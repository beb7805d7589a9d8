/**
 * The record shapes the screens exchange (`src/types/index.ts`).  Union-typed
 * text fields (`status`, `source`, `stage`) stay strings: the database rows
 * are cast to them without a check, so any text can reach them at run time.
 */
module Records {
  import opened Common

  datatype Tag = Tag(
    id: string,
    name: string,
    color: string,
    status: string,
    count: Option<int>)

  datatype Contact = Contact(
    id: string,
    name: string,
    email: string,
    phone: string,
    company: Option<string>,
    position: Option<string>,
    avatar: string,
    tags: seq<Tag>,
    lastContact: string,
    source: string,
    status: string,
    notes: Option<string>)

  /** A deal's `value` is a JavaScript number; the model uses exact reals. */
  datatype Deal = Deal(
    id: string,
    title: string,
    company: string,
    value: real,
    dueDate: string,
    stage: string,
    contact: Contact)

  /** `tags.some(t => t.id === id)`. */
  predicate HasTagId(tags: seq<Tag>, id: string) {
    exists t :: t in tags && t.id == id
  }
}
