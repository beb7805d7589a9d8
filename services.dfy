/**
 * What the screens can rely on from the service objects
 * (`src/services/tags.ts`, `src/services/contacts.ts`): which operations
 * each object defines, what awaiting a call of an operation it lacks
 * does, and the tag row mapping of `tagsService`.
 *
 * Calling an operation an object does not define reads an `undefined`
 * property and calls it, which throws a `TypeError`; that error carries
 * no `code`.
 */
module Services {
  import opened Common
  import opened Records

  datatype Operation = GetAll | GetById | Create | Update | Delete

  /** `tagsService` defines `getAll` and `create` and nothing else. */
  predicate TagsServiceDefines(op: Operation) {
    op == GetAll || op == Create
  }

  /** `contactsService` defines `getAll`, `create`, `update` and `delete`; it has no `getById`. */
  predicate ContactsServiceDefines(op: Operation) {
    op != GetById
  }

  /**
   * The error an awaited service call throws, as its `code` (`""` for an
   * error without one), or `None` when the call returns.  `queryError` is
   * what a defined operation's database query answers.
   */
  function CallError(defined: bool, queryError: Option<string>): Option<string> {
    if defined then queryError else Some("")
  }

  /** Creating a tag fails exactly when its query does; a tag update or delete always throws, with no code. */
  lemma TagsServiceCalls(queryError: Option<string>)
    ensures CallError(TagsServiceDefines(Create), queryError) == queryError
    ensures CallError(TagsServiceDefines(Update), queryError) == Some("")
    ensures CallError(TagsServiceDefines(Delete), queryError) == Some("")
  {
  }

  /** A `tags` row. */
  datatype TagRow = TagRow(id: string, name: string, color: string, status: string)

  /** The row mapping of `getAll` and `create`: the four columns are copied and no usage count is read. */
  function TagOfRow(row: TagRow): (r: Tag)
    ensures r.id == row.id && r.name == row.name && r.color == row.color && r.status == row.status
    ensures r.count.None?
  {
    Tag(row.id, row.name, row.color, row.status, None)
  }
}
