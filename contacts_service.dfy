/**
 * The contacts service (`src/services/contacts.ts`): converting database
 * rows to contact records and back, and keeping the `contact_tags` link
 * table in step with a contact's tags on create and update.  The
 * `contacts` table is a map from id to row and `contact_tags` a set of
 * (contact id, tag id) pairs.
 */
module ContactsService {
  import opened Common
  import opened Records

  /** A `contacts` row; `None` is SQL `null`. */
  datatype ContactRow = ContactRow(
    id: string,
    name: string,
    email: Option<string>,
    phone: Option<string>,
    company: Option<string>,
    position: Option<string>,
    source: Option<string>,
    status: Option<string>,
    notes: Option<string>,
    createdAt: string)

  /** The argument of `create`: a contact without id, timestamp or avatar. */
  datatype ContactInput = ContactInput(
    name: string,
    email: string,
    phone: string,
    company: Option<string>,
    position: Option<string>,
    tags: seq<Tag>,
    source: string,
    status: string,
    notes: Option<string>)

  /** `x || null` and `x || undefined` on optional text: absent, `null` and `''` all become absent. */
  function NonEmpty(o: Option<string>): (r: Option<string>)
    ensures r.Some? <==> o.Some? && o.value != ""
    ensures r.Some? ==> r == o
  {
    if Truthy(o) then o else None
  }

  /** `x || ''`. */
  function OrEmpty(o: Option<string>): (r: string)
    ensures o.Some? ==> r == o.value
    ensures o.None? ==> r == ""
  {
    if Truthy(o) then o.value else ""
  }

  /** `x || d`: the text when it is present and non-empty, else `d`. */
  function OrDefault(o: Option<string>, d: string): (r: string)
    ensures Truthy(o) ==> r == o.value
    ensures !Truthy(o) ==> r == d
  {
    if Truthy(o) then o.value else d
  }

  /** `s || null` on required text. */
  function NullIfEmpty(s: string): (r: Option<string>)
    ensures r.None? <==> s == ""
    ensures r.Some? ==> r.value == s
  {
    if s == "" then None else Some(s)
  }

  /**
   * A record is canonical when it is what the row mapping can produce:
   * optional text is absent rather than empty, and source and status are
   * set.
   */
  predicate Canonical(c: Contact) {
    NonEmpty(c.company) == c.company && NonEmpty(c.position) == c.position && NonEmpty(c.notes) == c.notes
    && c.source != "" && c.status != ""
  }

  /**
   * The row-to-record mapping.  `tags` is what the caller attaches (the
   * joined tags when reading, the given tags after a write); `avatar` is
   * the avatar address built from the name.
   */
  function FromRow(row: ContactRow, tags: seq<Tag>, avatar: string): (r: Contact)
    ensures r.id == row.id && r.name == row.name && r.tags == tags && r.lastContact == row.createdAt
    ensures r.email == (if row.email.Some? then row.email.value else "")
    ensures r.phone == (if row.phone.Some? then row.phone.value else "")
    ensures r.company == NonEmpty(row.company) && r.position == NonEmpty(row.position) && r.notes == NonEmpty(row.notes)
    ensures r.source == (if Truthy(row.source) then row.source.value else "manual")
    ensures r.status == (if Truthy(row.status) then row.status.value else "active")
    ensures Canonical(r)
  {
    Contact(
      row.id,
      row.name,
      OrEmpty(row.email),
      OrEmpty(row.phone),
      NonEmpty(row.company),
      NonEmpty(row.position),
      avatar,
      tags,
      row.createdAt,
      OrDefault(row.source, "manual"),
      OrDefault(row.status, "active"),
      NonEmpty(row.notes))
  }

  /** `contact.tags || []` on the tags of a patch. */
  function TagsOrEmpty(tags: Option<seq<Tag>>): seq<Tag> {
    match tags
    case None => []
    case Some(ts) => ts
  }

  /** The row the database holds after inserting `input`, given the id and timestamp it assigns. */
  function ToRow(input: ContactInput, id: string, createdAt: string): (r: ContactRow)
    ensures r.id == id && r.createdAt == createdAt && r.name == input.name
    ensures r.email.None? <==> input.email == ""
    ensures r.phone.None? <==> input.phone == ""
    ensures r.email.Some? ==> r.email.value == input.email
    ensures r.phone.Some? ==> r.phone.value == input.phone
    ensures r.company == NonEmpty(input.company) && r.position == NonEmpty(input.position) && r.notes == NonEmpty(input.notes)
    ensures r.source == Some(input.source) && r.status == Some(input.status)
  {
    ContactRow(
      id,
      input.name,
      NullIfEmpty(input.email),
      NullIfEmpty(input.phone),
      NonEmpty(input.company),
      NonEmpty(input.position),
      Some(input.source),
      Some(input.status),
      NonEmpty(input.notes),
      createdAt)
  }

  /** The create argument a record corresponds to. */
  function InputOf(c: Contact): (r: ContactInput)
    ensures r.name == c.name && r.email == c.email && r.phone == c.phone && r.tags == c.tags
    ensures r.company == c.company && r.position == c.position && r.notes == c.notes
    ensures r.source == c.source && r.status == c.status
  {
    ContactInput(c.name, c.email, c.phone, c.company, c.position, c.tags, c.source, c.status, c.notes)
  }

  /**
   * Writing a contact and reading it back keeps name, e-mail and phone
   * (an empty e-mail or phone included) and tags; empty optional text
   * comes back absent and an empty source or status comes back as the
   * default.
   */
  lemma WriteThenRead(input: ContactInput, id: string, createdAt: string, avatar: string)
    ensures var c := FromRow(ToRow(input, id, createdAt), input.tags, avatar);
      && c.id == id && c.lastContact == createdAt && c.avatar == avatar
      && c.name == input.name && c.email == input.email && c.phone == input.phone && c.tags == input.tags
      && c.company == NonEmpty(input.company) && c.position == NonEmpty(input.position) && c.notes == NonEmpty(input.notes)
      && c.source == (if input.source == "" then "manual" else input.source)
      && c.status == (if input.status == "" then "active" else input.status)
  {
  }

  /** On a canonical record, writing and reading back is the identity (up to the fields the database assigns). */
  lemma CanonicalRecordRoundTrip(c: Contact)
    requires Canonical(c)
    ensures FromRow(ToRow(InputOf(c), c.id, c.lastContact), c.tags, c.avatar) == c
  {
    WriteThenRead(InputOf(c), c.id, c.lastContact, c.avatar);
  }

  /** A row is canonical when no text column holds `''` and source and status are set. */
  predicate CanonicalRow(row: ContactRow) {
    NonEmpty(row.email) == row.email && NonEmpty(row.phone) == row.phone
    && NonEmpty(row.company) == row.company && NonEmpty(row.position) == row.position
    && NonEmpty(row.notes) == row.notes && Truthy(row.source) && Truthy(row.status)
  }

  /** Reading a canonical row and writing the record back reproduces the row. */
  lemma CanonicalRowRoundTrip(row: ContactRow, tags: seq<Tag>, avatar: string)
    requires CanonicalRow(row)
    ensures ToRow(InputOf(FromRow(row, tags, avatar)), row.id, row.createdAt) == row
  {
  }

  /** A `contact_tags` row. */
  datatype Link = Link(contactId: string, tagId: string)

  /** `contact.tags.map(tag => ({ contact_id, tag_id: tag.id }))`, as a set of rows. */
  function LinksFor(contactId: string, tags: seq<Tag>): (r: set<Link>)
    ensures forall l: Link :: l in r <==> l.contactId == contactId && HasTagId(tags, l.tagId)
    ensures r == {} <==> tags == []
  {
    var r := set t | t in tags :: Link(contactId, t.id);
    assert forall l :: l in r ==> l.contactId == contactId && HasTagId(tags, l.tagId);
    assert tags != [] ==> Link(contactId, tags[0].id) in r;
    r
  }

  /** The ids of the tags linked to a contact. */
  function TagIdsOf(links: set<Link>, contactId: string): set<string> {
    set l | l in links && l.contactId == contactId :: l.tagId
  }

  /** The ids of a list of tags. */
  function IdsOf(tags: seq<Tag>): set<string> {
    set t | t in tags :: t.id
  }

  /** `delete().eq('contact_id', id)`: every link of the contact goes. */
  function DropLinks(links: set<Link>, contactId: string): (r: set<Link>)
    ensures forall l: Link :: l in r <==> l in links && l.contactId != contactId
  {
    set l | l in links && l.contactId != contactId
  }

  /**
   * The replacement `update` performs: drop the contact's links, then
   * link the given tags.  The contact ends up linked to exactly those
   * tags, and the links of every other contact are untouched.
   */
  function ReplaceLinks(links: set<Link>, contactId: string, tags: seq<Tag>): (r: set<Link>)
    ensures TagIdsOf(r, contactId) == IdsOf(tags)
    ensures forall l: Link :: l.contactId != contactId ==> (l in r <==> l in links)
  {
    var r := DropLinks(links, contactId) + LinksFor(contactId, tags);
    forall x | x in IdsOf(tags) ensures x in TagIdsOf(r, contactId) {
      var t :| t in tags && t.id == x;
      assert Link(contactId, x) in r;
    }
    r
  }

  /** The tags a read joins to a contact, from the link table and the `tags` table. */
  function LinkedTags(links: set<Link>, tagTable: map<string, Tag>, contactId: string): set<Tag> {
    set l | l in links && l.contactId == contactId && l.tagId in tagTable :: tagTable[l.tagId]
  }

  /**
   * After the links of a contact are replaced with `tags`, a read of that
   * contact joins exactly those tags (when each is the stored tag of its id).
   */
  lemma {:induction false} ReplacedLinksReadBack(links: set<Link>, tagTable: map<string, Tag>, contactId: string, tags: seq<Tag>)
    requires forall t :: t in tags ==> t.id in tagTable && tagTable[t.id] == t
    ensures LinkedTags(ReplaceLinks(links, contactId, tags), tagTable, contactId) == set t | t in tags
  {
    var r := ReplaceLinks(links, contactId, tags);
    var joined := LinkedTags(r, tagTable, contactId);
    forall t | t in tags ensures t in joined {
      assert Link(contactId, t.id) in r;
    }
    forall x | x in joined ensures x in tags {
      var l :| l in r && l.contactId == contactId && l.tagId in tagTable && tagTable[l.tagId] == x;
      assert l.tagId in TagIdsOf(r, contactId);
      var t :| t in tags && t.id == l.tagId;
    }
  }

  /** The fields of `Partial<Contact>` that `update` writes; `None` is `undefined`. */
  datatype ContactPatch = ContactPatch(
    name: Option<string>,
    email: Option<string>,
    phone: Option<string>,
    company: Option<string>,
    position: Option<string>,
    source: Option<string>,
    status: Option<string>,
    notes: Option<string>,
    tags: Option<seq<Tag>>)

  /**
   * The row after `update`.  An `undefined` name, source or status is left
   * out of the update and keeps the stored value; the other text columns
   * are always written, so an omitted or empty one is cleared to `null`.
   */
  function PatchRow(row: ContactRow, patch: ContactPatch): (r: ContactRow)
    ensures r.id == row.id && r.createdAt == row.createdAt
    ensures r.name == (if patch.name.Some? then patch.name.value else row.name)
    ensures r.source == (if patch.source.Some? then patch.source else row.source)
    ensures r.status == (if patch.status.Some? then patch.status else row.status)
    ensures r.email == NonEmpty(patch.email) && r.phone == NonEmpty(patch.phone)
    ensures r.company == NonEmpty(patch.company) && r.position == NonEmpty(patch.position)
    ensures r.notes == NonEmpty(patch.notes)
  {
    row.(
      name := if patch.name.Some? then patch.name.value else row.name,
      email := NonEmpty(patch.email),
      phone := NonEmpty(patch.phone),
      company := NonEmpty(patch.company),
      position := NonEmpty(patch.position),
      source := if patch.source.Some? then patch.source else row.source,
      status := if patch.status.Some? then patch.status else row.status,
      notes := NonEmpty(patch.notes))
  }

  /** A patch carrying every field of a record. */
  function PatchOf(c: Contact): ContactPatch {
    ContactPatch(Some(c.name), Some(c.email), Some(c.phone), c.company, c.position,
                 Some(c.source), Some(c.status), c.notes, Some(c.tags))
  }

  /** Updating with a full record stores the same row as inserting it would. */
  lemma FullPatchIsInsert(row: ContactRow, c: Contact)
    ensures PatchRow(row, PatchOf(c)) == ToRow(InputOf(c), row.id, row.createdAt)
  {
  }

  /** Why a service call threw. */
  datatype StoreError = RowWriteFailed | NoSuchContact | LinkInsertFailed

  class ContactStore {
    /** The `contacts` table, by id. */
    var rows: map<string, ContactRow>
    /** The `contact_tags` table. */
    var links: set<Link>

    constructor (rows: map<string, ContactRow>, links: set<Link>)
      ensures this.rows == rows && this.links == links
    {
      this.rows := rows;
      this.links := links;
    }

    /**
     * `create`.  The database assigns `newId` and `createdAt`; `rowOk` and
     * `linksOk` are whether the row insert and the link insert succeed.
     * A failed link insert leaves the new row in place.
     */
    method Create(input: ContactInput, newId: string, createdAt: string, avatar: string, rowOk: bool, linksOk: bool)
      returns (r: Result<Contact, StoreError>)
      requires newId !in rows
      modifies this
      ensures !rowOk ==> r == Err(RowWriteFailed) && rows == old(rows) && links == old(links)
      ensures rowOk ==> rows == old(rows)[newId := ToRow(input, newId, createdAt)]
      ensures rowOk && input.tags != [] && !linksOk ==> r == Err(LinkInsertFailed) && links == old(links)
      ensures rowOk && (input.tags == [] || linksOk) ==>
        && links == old(links) + LinksFor(newId, input.tags)
        && r == Ok(FromRow(ToRow(input, newId, createdAt), input.tags, avatar))
    {
      if !rowOk {
        return Err(RowWriteFailed);
      }
      var row := ToRow(input, newId, createdAt);
      rows := rows[newId := row];
      if |input.tags| > 0 {
        if !linksOk {
          return Err(LinkInsertFailed);
        }
        links := links + LinksFor(newId, input.tags);
      }
      r := Ok(FromRow(row, input.tags, avatar));
    }

    /**
     * `update`.  A missing id fails before anything is written, and so
     * does a row write that fails (`rowOk`: whether the row update
     * succeeded); either way the links are not touched.  With tags, the
     * contact's links are deleted (`deleteOk`: whether that delete
     * succeeded, which the source does not check) and the new ones
     * inserted (`linksOk`).  Without tags the links are untouched.
     */
    method Update(id: string, patch: ContactPatch, avatar: string, rowOk: bool, deleteOk: bool, linksOk: bool)
      returns (r: Result<Contact, StoreError>)
      modifies this
      ensures id !in old(rows) ==> r == Err(NoSuchContact) && rows == old(rows) && links == old(links)
      ensures id in old(rows) && !rowOk ==> r == Err(RowWriteFailed) && rows == old(rows) && links == old(links)
      ensures id in old(rows) && rowOk ==> rows == old(rows)[id := PatchRow(old(rows)[id], patch)]
      ensures id in old(rows) && rowOk && patch.tags.None? ==>
        links == old(links) && r == Ok(FromRow(PatchRow(old(rows)[id], patch), [], avatar))
      ensures id in old(rows) && rowOk && patch.tags.Some? ==>
        var kept := if deleteOk then DropLinks(old(links), id) else old(links);
        if patch.tags.value != [] && !linksOk then
          links == kept && r == Err(LinkInsertFailed)
        else
          links == kept + LinksFor(id, patch.tags.value)
          && r == Ok(FromRow(PatchRow(old(rows)[id], patch), patch.tags.value, avatar))
      ensures id in old(rows) && rowOk && patch.tags.Some? && deleteOk && (patch.tags.value == [] || linksOk) ==>
        && TagIdsOf(links, id) == IdsOf(patch.tags.value)
        && forall l: Link :: l.contactId != id ==> (l in links <==> l in old(links))
    {
      if id !in rows {
        return Err(NoSuchContact);
      }
      if !rowOk {
        return Err(RowWriteFailed);
      }
      var row := PatchRow(rows[id], patch);
      rows := rows[id := row];
      if patch.tags.Some? {
        if deleteOk {
          links := DropLinks(links, id);
        }
        if |patch.tags.value| > 0 {
          if !linksOk {
            return Err(LinkInsertFailed);
          }
          links := links + LinksFor(id, patch.tags.value);
        }
      }
      r := Ok(FromRow(row, TagsOrEmpty(patch.tags), avatar));
    }
  }
}
