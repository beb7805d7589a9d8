# Luvia back-office: a Dafny model of its state and list rules

Luvia is a React/TypeScript back-office for a small business. It manages contacts, tags, a sales pipeline (deals on a kanban board), tasks and messaging channels, on top of a Supabase database. This project models the deterministic rules behind those screens and services, and proves what they promise:

- the WhatsApp connection service and its listener registry;
- the QR-code pairing dialog that listens to it;
- the channel list;
- the tag form and tag list;
- the task status cycle;
- the contact search, tag bar and tag picker;
- the kanban board;
- the deal dialog;
- the contacts service's row mapping and `contact_tags` link table.

There is one module per source file, plus three shared modules:

- `common.dfy` (`Common`): the JavaScript behaviour the code relies on.
  - Truthiness of optional text: `null`, `undefined` and `''` are falsy.
  - ASCII `toLowerCase`/`toUpperCase`, `trim` with the ECMAScript white-space set, `includes`, `filter` and `find`.
  - `filter` is proved to keep every passing element as often as it occurs, and in order, as a subsequence of its input.
- `records.dfy` (`Records`): the `Tag`, `Contact` and `Deal` records.
- `services.dfy` (`Services`): which operations the `tagsService` and `contactsService` objects define, what awaiting an operation an object lacks does, and the tag row mapping of `src/services/tags.ts`.

Handlers that update component state step by step are methods of a class whose fields are that state. Lists and lookups that the source computes as expressions are functions. Three kinds of input become plain parameters of the handler that uses them:

- the answer of a remote call: success or failure, a fetched list, or a created tag;
- a clock reading;
- the id the database assigns.

Calling a parent's callback is recorded by appending to a `fired` or `calls` sequence. A service listener is an opaque `ListenerId`. Every call to a listener is appended, as a `Delivery`, to the service's `delivered` log. A JavaScript `Set` iterates in insertion order, so the listener registry is a sequence without duplicates.

Some behaviour of the code is modelled as written, though a reader might expect otherwise:

- `DealModal.DealModalState.Submit`: when no loaded contact has the chosen id, the code throws "Contato não encontrado" inside its own `try`. The message the user sees is therefore the generic "Erro ao atualizar/criar negociação", and that is what the model shows.
- `ContactsService.ContactStore.Update`: the result of the delete of the old `contact_tags` rows is not checked. If that delete fails, the new links are added to the old ones.
- `ContactsService.ContactStore.Update`: `email`, `phone`, `company`, `position` and `notes` are always written. A partial update that omits them clears them to `null`, while an omitted `name`, `source` or `status` keeps its stored value.
- `TagsPage.CountLabel`: `tagsService.getAll` copies only `id`, `name`, `color` and `status` from a row, so a fetched tag has no `count` and its label always reads "itens marcados" (`TagsPage.FetchedTagsReadPlural`).

## Model

| member | source | states |
|---|---|---|
| WhatsApp.Broadcast | src/services/whatsapp.ts:72-74 | one notification is one call per registered listener, in registration order, each with the same event |
| WhatsApp.BroadcastReachesEachListenerOnce | src/services/whatsapp.ts:72-74 | a notification reaches each registered listener exactly once and no unregistered callback |
| WhatsApp.TwoBroadcastsInOrder | src/services/whatsapp.ts:7-15 | a registered listener hears the two status events of `connect` in emission order; an unregistered one hears nothing |
| WhatsApp.Register | src/services/whatsapp.ts:64 | a new callback goes last, after every earlier registration, which keeps its place; a second add of a registered callback changes nothing; the registry stays duplicate-free |
| WhatsApp.Unregister | src/services/whatsapp.ts:68-70 | removing a callback drops exactly it, keeps every other registration in order and keeps the registry duplicate-free |
| WhatsApp.UnregisteredHearsNothing | src/services/whatsapp.ts:68-74 | after removal a callback receives no further events, while every other callback receives exactly what it did before |
| WhatsApp.WhatsAppService.constructor | src/services/whatsapp.ts:4-5 | the service starts disconnected with no listeners |
| WhatsApp.WhatsAppService.NotifyListeners | src/services/whatsapp.ts:72-74 | the loop appends exactly one broadcast of the event to the delivery log |
| WhatsApp.WhatsAppService.UpdateChannelStatus | src/services/whatsapp.ts:33-46 | a failed write of the channel flag is swallowed and changes nothing, not even the status |
| WhatsApp.WhatsAppService.Connect | src/services/whatsapp.ts:7-21 | ends connected, with listeners unchanged, having broadcast `connecting` then `connected` |
| WhatsApp.WhatsAppService.Disconnect | src/services/whatsapp.ts:23-31 | from any state ends disconnected and broadcasts `disconnected` once |
| WhatsApp.WhatsAppService.SendMessage | src/services/whatsapp.ts:49-61 | succeeds exactly when connected, otherwise fails with "WhatsApp is not connected" |
| WhatsApp.WhatsAppService.AddListener | src/services/whatsapp.ts:63-66 | registers the callback and delivers the current status to that callback only |
| WhatsApp.WhatsAppService.RemoveListener | src/services/whatsapp.ts:68-70 | the registry afterwards is the old one without that callback |
| WhatsApp.WhatsAppService.GetStatus | src/services/whatsapp.ts:76-78 | returns the current connection status |
| QrCodeModal.Update | src/components/Channels/QRCodeModal.tsx:18-32 | a `qr` event sets the code to its payload and clears the error, keeping the status; a `status` event sets the status to its payload and keeps code and error; an `error` event sets the error to its message and keeps the rest; any other kind changes nothing; `onConnect` then `onClose` fire exactly on `status=connected` |
| QrCodeModal.Render | src/components/Channels/QRCodeModal.tsx:61-125 | the spinner shows exactly while connecting with no code; an error or code panel shows the state's non-empty text |
| QrCodeModal.RenderPriority | src/components/Channels/QRCodeModal.tsx:61-125 | the four panels are mutually exclusive and chosen in the order spinner, error, code, waiting |
| QrCodeModal.QrEventShowsCode | src/components/Channels/QRCodeModal.tsx:20-22 | a non-empty QR payload is shown at once, whatever was shown before |
| QrCodeModal.ErrorEventShowsMessage | src/components/Channels/QRCodeModal.tsx:61-68 | an error message is shown unless the start-up spinner hides it |
| QrCodeModal.RefreshedDialogWaits | src/components/Channels/QRCodeModal.tsx:41-45 | after a refresh and the resulting `disconnected` event the dialog shows the waiting panel |
| QrCodeModal.QrModal.constructor | src/components/Channels/QRCodeModal.tsx:13-15 | no code, disconnected, no error |
| QrCodeModal.QrModal.HandleUpdate | src/components/Channels/QRCodeModal.tsx:18-32 | the dialog state and fired callbacks follow the reducer `Update` |
| QrCodeModal.QrModal.Mount | src/components/Channels/QRCodeModal.tsx:34 | registers the dialog's callback, which at once receives the service's current status; the service's status and persisted flag are untouched |
| QrCodeModal.QrModal.Unmount | src/components/Channels/QRCodeModal.tsx:36-38 | the cleanup removes the same callback, which is then no longer registered; only the registry of the service changes |
| QrCodeModal.QrModal.Refresh | src/components/Channels/QRCodeModal.tsx:41-45 | clears error and code before the service disconnects; the service broadcasts `disconnected` once and records `false` when the write succeeds; a registered dialog then shows `disconnected` |
| Channels.MarkConnected | src/components/Channels/index.tsx:81-90 | the channel with the id becomes connected with zero statistics and keeps id, name, icon and API status; all others are unchanged; length and order kept |
| Channels.MarkConnectedUnknownId | src/components/Channels/index.tsx:81-90 | an id no channel has leaves the list unchanged |
| Channels.FilteredChannelsSpec | src/components/Channels/index.tsx:94-96 | exactly the channels whose lower-cased name contains the lower-cased term, each as often as in the input, in order; an empty term keeps all |
| Channels.ChannelsPage.constructor | src/components/Channels/index.tsx:59-62 | no search, no selection, dialog closed |
| Channels.ChannelsPage.HandleReconnect | src/components/Channels/index.tsx:64-67 | selects the channel and opens the dialog |
| Channels.ChannelsPage.HandleShowQr | src/components/Channels/index.tsx:69-72 | selects the channel and opens the dialog |
| Channels.ChannelsPage.HandleCloseQrModal | src/components/Channels/index.tsx:74-77 | closes the dialog and clears the selection |
| Channels.ChannelsPage.HandleConnect | src/components/Channels/index.tsx:79-92 | with no selected channel the list is unchanged; otherwise the selected channel is marked connected |
| TagModal.NormalizeColor | src/components/Tags/TagModal.tsx:50 | the colour starts with `#` and is upper-case; input already starting with `#` is only upper-cased |
| TagModal.NormalizeColorIdempotent | src/components/Tags/TagModal.tsx:50 | normalising a normalised colour returns it unchanged |
| TagModal.LowercaseHexRejected | src/components/Tags/TagModal.tsx:70-74 | a lower-case hex digit makes a colour invalid |
| TagModal.NormalizedHexDigitsAreValid | src/components/Tags/TagModal.tsx:48-54 | six hex digits of either case, with or without `#`, normalise to a valid colour |
| Common.TrimEmptyIffBlank | src/components/Tags/TagModal.tsx:64 | `trim` gives the empty string exactly when every character is ECMAScript white space, which is how blank names and tag inputs are recognised |
| TagModal.ValidateForm | src/components/Tags/TagModal.tsx:63-77 | the form is valid iff the trimmed name is non-empty and the colour is `#` plus six of `0-9A-F`; a blank name reports the name error first |
| TagModal.Prefill | src/components/Tags/TagModal.tsx:29-43 | editing copies the name and status and takes the tag's colour upper-cased; otherwise empty name, `#3B82F6`, `active` |
| TagModal.DefaultColorIsValid | src/components/Tags/TagModal.tsx:37-42 | the default colour passes validation |
| TagModal.SubmitError | src/components/Tags/TagModal.tsx:100-106 | error code `23505` gives the duplicate-name message and any other gives the generic create/update message |
| TagModal.EditedTagNeverSavesAsWritten | src/components/Tags/TagModal.tsx:93-106 | with the tags service as written, saving an edited tag always throws and shows the generic update error |
| TagModal.TagFormState.constructor | src/components/Tags/TagModal.tsx:20-27 | default form, not submitting, no error |
| TagModal.TagFormState.ApplyPrefill | src/components/Tags/TagModal.tsx:29-43 | the form becomes the prefill of the tag |
| TagModal.TagFormState.ChangeName | src/components/Tags/TagModal.tsx:55-60 | only the name changes |
| TagModal.TagFormState.ChangeColor | src/components/Tags/TagModal.tsx:48-54 | only the colour changes, to its normalised form |
| TagModal.TagFormState.ChangeStatus | src/components/Tags/TagModal.tsx:55-60 | only the status changes |
| TagModal.TagFormState.Submit | src/components/Tags/TagModal.tsx:79-110 | an invalid form sets its error and makes no service call; a valid one makes one update (editing) or create call with the upper-cased colour, counts a success or maps the error code, and ends not submitting |
| TaskList.NextStatus | src/components/Tasks/TaskList.tsx:57-61 | the next status always differs from the current one |
| TaskList.NextStatusCycle | src/components/Tasks/TaskList.tsx:57-61 | the statuses form one cycle of length three |
| TaskList.ToggleTaskStatus | src/components/Tasks/TaskList.tsx:54-66 | only tasks with the id change, and only in their status; length and order kept |
| TaskList.ToggleUnknownId | src/components/Tasks/TaskList.tsx:54-66 | an id no task has leaves the list unchanged |
| TaskList.ToggleThreeTimes | src/components/Tasks/TaskList.tsx:54-66 | three toggles restore the list |
| TaskList.FilteredTasksSpec | src/components/Tasks/TaskList.tsx:79-81 | `all` keeps every task; another filter keeps exactly the tasks with that status, each as often as in the input, in order |
| ContactsPage.FilteredContactsSpec | src/components/Contacts/index.tsx:62-71 | a contact is kept iff the search matches its name, e-mail or company (missing company as `''`) and some selected tag name equals one of its tags; a kept contact appears as often as in the input; the result is an order-preserving subsequence |
| ContactsPage.NoCriteriaKeepsAll | src/components/Contacts/index.tsx:62-71 | an empty search with no selected tag lists every contact |
| ContactsPage.NoTagsIsSearchOnly | src/components/Contacts/index.tsx:67 | with no selected tag the list equals the filter by the search alone |
| ContactsPage.TagMatchIsCaseSensitive | src/components/Contacts/index.tsx:63-68 | an illustration on one contact: the search ignores case but the tag match does not |
| ContactList.NamesOf | src/components/Contacts/ContactList.tsx:27 | one name per tag, position by position |
| ContactList.TagNames | src/components/Contacts/ContactList.tsx:27 | the flattened names are exactly the tag names of all contacts |
| ContactList.TagNamesAppend | src/components/Contacts/ContactList.tsx:27 | flattening joined contact lists joins their names, so names come contact by contact in list order |
| ContactList.TagNamesSingle | src/components/Contacts/ContactList.tsx:27 | one contact contributes its own tag names in its own order |
| ContactList.Distinct | src/components/Contacts/ContactList.tsx:26-28 | the set conversion keeps each value once and loses none |
| ContactList.DistinctFirstAppearanceOrder | src/components/Contacts/ContactList.tsx:26-28 | the distinct values come in the order of their first occurrence |
| ContactList.AllTagsSpec | src/components/Contacts/ContactList.tsx:26-28 | every tag name on any contact, each exactly once, ordered by first appearance |
| ContactList.ToggleTag | src/components/Contacts/ContactList.tsx:43-49 | a selected tag is removed everywhere, keeping every other tag as often as before and in order; an unselected one is appended |
| ContactList.ToggleTwiceRestores | src/components/Contacts/ContactList.tsx:43-49 | toggling an unselected tag twice restores the selection |
| ContactList.ContactListState.constructor | src/components/Contacts/ContactList.tsx:23-24 | no contact pending, confirmation closed |
| ContactList.ContactListState.HandleDeleteClick | src/components/Contacts/ContactList.tsx:30-33 | the contact becomes pending and the confirmation opens |
| ContactList.ContactListState.HandleDeleteConfirm | src/components/Contacts/ContactList.tsx:35-41 | `onDelete` is called only when a contact is pending; then the pending id is cleared and the confirmation closed |
| ContactModal.FindTagByName | src/components/Contacts/ContactModal.tsx:105-107 | the first available tag whose lower-cased name equals the trimmed, lower-cased input; none iff no name matches |
| ContactModal.AddExistingTag | src/components/Contacts/ContactModal.tsx:109-112 | a tag whose id is already chosen changes nothing; otherwise it is appended; distinct ids stay distinct |
| ContactModal.RemoveTag | src/components/Contacts/ContactModal.tsx:132-134 | every chosen tag with that id goes; every other stays, as often as before and in order |
| ContactModal.UnchosenTags | src/components/Contacts/ContactModal.tsx:303-304 | exactly the available tags whose id is not chosen, each as often as available, in order |
| ContactModal.RemovedTagIsOfferedAgain | src/components/Contacts/ContactModal.tsx:303-304 | an available tag removed from the chosen ones is offered again |
| ContactModal.ContactFormState.constructor | src/components/Contacts/ContactModal.tsx:20-35 | empty form with source `manual` and status `active`, no tags, empty input, no error, no create request yet |
| ContactModal.ContactFormState.ResetForm | src/components/Contacts/ContactModal.tsx:77-91 | back to the empty form with `manual`/`active`, no tags, empty input and no error |
| ContactModal.FormOf | src/components/Contacts/ContactModal.tsx:60-69 | a loaded contact's fields are copied into the form, absent company, position and notes shown as `''` |
| ContactModal.ContactFormState.LoadContact | src/components/Contacts/ContactModal.tsx:56-75 | without a contact id nothing changes; a loaded contact fills the form and its tags; a failed load keeps the form and shows the load error |
| ContactModal.ContactFormState.LoadContactAsWritten | src/components/Contacts/ContactModal.tsx:59 | with the contacts service as written, loading a contact by id always ends in the load error |
| ContactModal.ContactFormState.HandleAddTag | src/components/Contacts/ContactModal.tsx:100-130 | nothing happens unless the key is Enter and the trimmed input is non-empty; an existing tag is added without duplicating its id; otherwise the created tag is appended to both lists or the error is set; a successful add clears the input; when no available tag matches, one create request with the trimmed input as name and status `active` is made, whatever its outcome |
| ContactModal.ContactFormState.HandleRemoveTag | src/components/Contacts/ContactModal.tsx:132-134 | the chosen tags become `RemoveTag` of the old ones |
| ContactModal.ContactFormState.PickOfferedTag | src/components/Contacts/ContactModal.tsx:309 | an offered tag is appended, keeping chosen ids distinct |
| TagsPage.FilteredTagsSpec | src/components/Tags/index.tsx:72-74 | exactly the tags whose lower-cased name contains the lower-cased term, each as often as in the input, in order; an empty term keeps all |
| TagsPage.CountLabel | src/components/Tags/index.tsx:157 | the label is singular iff the count is exactly 1 |
| TagsPage.FetchedTagsReadPlural | src/components/Tags/index.tsx:157 | a tag as `getAll` maps it has no count, so its label reads plural |
| TagsPage.StatusLabel | src/components/Tags/index.tsx:166 | "Ativa" iff the status is `active`, otherwise "Inativa" |
| TagsPage.TagsPageState.constructor | src/components/Tags/index.tsx:11-18 | no tags, no search, no error, no dialog open |
| TagsPage.TagsPageState.FetchTags | src/components/Tags/index.tsx:24-35 | a successful fetch replaces the list; a failed one keeps it and sets the load error |
| TagsPage.TagsPageState.HandleCreateTag | src/components/Tags/index.tsx:37-40 | clears the tag being edited and opens the dialog |
| TagsPage.TagsPageState.HandleEditTag | src/components/Tags/index.tsx:42-45 | sets the tag being edited and opens the dialog |
| TagsPage.TagsPageState.HandleDeleteClick | src/components/Tags/index.tsx:47-50 | the tag becomes pending and the confirmation opens |
| TagsPage.TagsPageState.HandleDeleteConfirm | src/components/Tags/index.tsx:52-64 | with no pending tag nothing happens; otherwise one delete call; on success reload and close, on failure the delete error with the confirmation left open |
| TagsPage.TagsPageState.HandleDeleteConfirmAsWritten | src/components/Tags/index.tsx:56 | with the tags service as written, confirming a delete always shows the delete error and leaves the confirmation open; the attempted delete is still logged |
| TagsPage.TagsPageState.HandleModalSuccess | src/components/Tags/index.tsx:66-70 | reloads, closes the dialog and forgets the tag being edited |
| TagsPage.TagsPageState.HandleModalClose | src/components/Tags/index.tsx:176-179 | closes the dialog and forgets the tag being edited |
| TagsPage.TagsPageState.HandleDeleteModalClose | src/components/Tags/index.tsx:187-190 | closes the confirmation and forgets the pending tag |
| Board.StagesAreDistinct | src/components/CRM/Board.tsx:13-19 | five distinct column ids |
| Board.ColumnMultiplicity | src/components/CRM/Board.tsx:100-102 | a column holds every copy of each deal whose stage is its id, and no other deal |
| Board.ColumnIsSubsequence | src/components/CRM/Board.tsx:100-102 | a column keeps the input order |
| Board.DealInOneColumn | src/components/CRM/Board.tsx:100-102 | no deal appears in two columns |
| Board.ColumnCountsSumToDeals | src/components/CRM/Board.tsx:95 | when every stage is one of the five, the column badge counts add up to the number of deals |
| Board.TotalValueSingle | src/components/CRM/Board.tsx:41 | one deal's total is its value, so with `TotalValueAppend` the total is the sum of the values |
| Board.TotalValueAppend | src/components/CRM/Board.tsx:41 | the total of joined lists is the sum of their totals |
| Board.TotalValueBounds | src/components/CRM/Board.tsx:41 | the total is 0 for no deals and never negative when no value is |
| Board.GetData | src/components/CRM/Board.tsx:37 | reading drag data gives the stored text, or `''` when nothing is stored |
| Board.DragStart | src/components/CRM/Board.tsx:27-29 | the drag data then holds the deal id; other entries are kept |
| Board.Drop | src/components/CRM/Board.tsx:35-39 | the drop passes the stored id and the column's stage |
| Board.DropForwardsDraggedDeal | src/components/CRM/Board.tsx:27-39 | dropping forwards the dragged deal's id and the target stage unchanged |
| DealModal.Prefill | src/components/CRM/DealModal.tsx:39-50 | editing copies title, company, value, due date and stage and takes the contact id from the deal's contact; with no deal the form is unchanged |
| DealModal.BuildDealData | src/components/CRM/DealModal.tsx:76-86 | fails iff no loaded contact has the form's contact id; otherwise uses the first such contact and copies the other fields from the form |
| DealModal.PrefilledContactResolves | src/components/CRM/DealModal.tsx:76-77 | a deal whose contact is loaded resolves to a contact with the same id |
| DealModal.DealModalState.constructor | src/components/CRM/DealModal.tsx:22-33 | default form with stage `prospect`, not loading, no error |
| DealModal.DealModalState.LoadContacts | src/components/CRM/DealModal.tsx:52-60 | a successful load replaces the contacts; a failed one sets the load error |
| DealModal.DealModalState.ApplyPrefill | src/components/CRM/DealModal.tsx:39-50 | the form becomes the prefill of the deal |
| DealModal.DealModalState.Submit | src/components/CRM/DealModal.tsx:70-102 | no contact: no call and the generic error; otherwise one update (editing) or create call, then `onSuccess` before `onClose`, or the generic error; loading always ends false |
| DealModal.DealModalState.SubmitAsWritten | src/services/deals.ts:41-114 | with the deals service as written, every save ends in the generic error with no callback fired, after exactly one call was made — an update of the edited deal or a create — carrying the built deal data; with no loaded contact, no call is made |
| Services.TagsServiceCalls | src/services/tags.ts:4-50 | a tag create fails exactly when its query does; a tag update or delete always throws an error without a code |
| Services.TagOfRow | src/services/tags.ts:14-19 | a tag row's four columns are copied and no usage count is set |
| ContactsService.FromRow | src/services/contacts.ts:20-33 | null e-mail or phone becomes `''`; null or empty company, position and notes become absent; a missing source or status becomes `manual`/`active`; the result is canonical |
| ContactsService.ToRow | src/services/contacts.ts:44-53 | empty e-mail, phone, company, position and notes are stored as `null`; source and status are written as given |
| ContactsService.WriteThenRead | src/services/contacts.ts:44-53 | writing and reading back keeps name, e-mail and phone (empty ones included) and tags; empty optional text comes back absent and empty source/status as the default |
| ContactsService.CanonicalRecordRoundTrip | src/services/contacts.ts:20-53 | on a canonical record, write-then-read is the identity |
| ContactsService.CanonicalRowRoundTrip | src/services/contacts.ts:20-53 | on a canonical row, read-then-write is the identity |
| ContactsService.LinksFor | src/services/contacts.ts:60-71 | one link per given tag to the contact, and no links for no tags |
| ContactsService.ReplaceLinks | src/services/contacts.ts:114-133 | the contact ends up linked to exactly the given tags' ids; other contacts' links are untouched |
| ContactsService.ReplacedLinksReadBack | src/services/contacts.ts:114-133 | after the replacement a read of the contact joins exactly the given tags |
| ContactsService.PatchRow | src/services/contacts.ts:95-110 | an undefined name, source or status keeps the stored value; the other text columns are always written, empty or missing as `null`; id and timestamp kept |
| ContactsService.FullPatchIsInsert | src/services/contacts.ts:93-110 | updating with a full record stores the row an insert of it would |
| ContactsService.ContactStore.Create | src/services/contacts.ts:40-91 | a failed insert changes nothing; otherwise the row is stored, one link per tag added (none for no tags), and the mapped record returned; a failed link insert leaves the row |
| ContactsService.ContactStore.Update | src/services/contacts.ts:93-154 | a missing id fails and changes nothing; a failed row write fails with the row and the links unchanged; otherwise the row is patched; without tags the links are unchanged; with tags the old links are deleted and the new ones inserted, so when both link writes succeed the contact is linked to exactly the given tags and every other contact's links are untouched |

## Left out

- `Common.Lower` and `Common.Upper` map only the ASCII letters. JavaScript's `toLowerCase`/`toUpperCase` also map other letters and can change a string's length.
- Clock readings (`new Date()`, `toLocaleTimeString`, the `lastSync` stamp, `created_at`) are parameters. The `averageDays` figure of the board is left out: it uses the clock and floating point, and divides by zero on an empty board.
- Deal values are exact reals, not JavaScript doubles, so `TotalValue` has no rounding. `parseFloat(value) || 0` in the deal form's change handler is left out.
- The random colour of a tag created from the contact form is left out. The created tag is a parameter of `ContactModal.ContactFormState.HandleAddTag`.
- Remote calls (Supabase queries, the tags, deals and contacts services seen from the screens) are not modelled. Their outcomes are parameters:
  - a success flag;
  - a fetched list, or `None` for a thrown error;
  - an error code.
- The `getAll` queries of the contacts and tags services and their ordering (`order('created_at')`, `order('name')`) are left out. So are `delete` of a contact and whether the database cascades that delete to `contact_tags`. The schema is not part of this model.
- `src/services/deals.ts` is not part of this model beyond its call of `contactsService.getById`, which does not exist (see "## Findings"); its queries and row mapping are left out.
- `src/services/tags.ts` is modelled only by the operations it defines and its row mapping (`Services`); its queries are left out like the other remote calls.
- The avatar address built with `encodeURIComponent` is a parameter of `ContactsService.FromRow`.
- Asynchronous ordering, React re-rendering, `useEffect` dependencies and `window.location.reload` are left out. Each handler is one atomic step.
- `WhatsApp.WhatsAppService.Connect`: the `catch` branch that broadcasts an error is not modelled. Listener callbacks are assumed not to throw, and nothing else in `connect` can.
- Generic form field changes through `handleChange` are modelled only for the tag form. In the contact and deal forms they are plain field writes.
- The contact form's `handleSubmit` and `loadTags`, and the contacts page's fetch and delete handlers, are remote round trips with no rule of their own and are left out.
- Presentational components (dashboard, reports, settings, queues, chat, sidebar, layout, cards, menus) are not part of this model.

## Findings

`src/services/tags.ts` defines only `getAll` and `create`, and `src/services/contacts.ts` has no `getById`. The screens and the deals service call the missing operations anyway. Calling an `undefined` property throws a `TypeError` without a `code`, and the screen's `catch` turns it into its generic error. The handlers of the model take the service's answer as a parameter, as for a service that defines these operations; the as-written members feed them the answer the code as written gives.

| source | as written | input that shows it | evidently intended | confidence | as-written member | corrected member |
|---|---|---|---|---|---|---|
| src/components/Tags/TagModal.tsx:93-94 | `tagsService.update` does not exist, so saving an edited tag always throws | any valid form with `tag` set: the error is "Erro ao atualizar etiqueta…" and `onSuccess` never runs | the update is saved and `onSuccess` runs when the database accepts it | high, not executed | TagModal.EditedTagNeverSavesAsWritten | TagModal.TagFormState.Submit |
| src/components/Tags/index.tsx:56 | `tagsService.delete` does not exist, so confirming a delete always throws | any pending tag: "Falha ao excluir etiqueta…" is shown and the confirmation stays open | the tag is deleted, the list reloaded and the confirmation closed | high, not executed | TagsPage.TagsPageState.HandleDeleteConfirmAsWritten | TagsPage.TagsPageState.HandleDeleteConfirm |
| src/components/Contacts/ContactModal.tsx:59 | `contactsService.getById` does not exist, so opening a contact for editing always fails to load it | any non-empty `contactId`: the form stays as it was and shows "Erro ao carregar contato" | the contact's fields and tags fill the form | high, not executed | ContactModal.ContactFormState.LoadContactAsWritten | ContactModal.ContactFormState.LoadContact |
| src/services/deals.ts:61 | `create` (and `update`, line 99) call `contactsService.getById`, which does not exist, after the deal is written, so every save throws | any form whose contact is loaded: the deal is written, "Erro ao criar/atualizar negociação" shows, neither `onSuccess` nor `onClose` runs, and a second submit writes the deal again | the saved deal is returned and the dialog reports success and closes | high, not executed | DealModal.DealModalState.SubmitAsWritten | DealModal.DealModalState.Submit |
