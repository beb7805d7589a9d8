/**
 * The contacts page's list filter (`src/components/Contacts/index.tsx`):
 * a case-insensitive text search over name, e-mail and company, combined
 * with a case-sensitive "has any of the selected tags" test.
 */
module ContactsPage {
  import opened Common
  import opened Records

  /** `contact.company?.toLowerCase() || ''`, before lower-casing. */
  function CompanyText(c: Contact): string {
    match c.company
    case Some(company) => company
    case None => ""
  }

  predicate MatchesSearch(c: Contact, searchTerm: string) {
    MatchesTerm(c.name, searchTerm) || MatchesTerm(c.email, searchTerm) || MatchesTerm(CompanyText(c), searchTerm)
  }

  predicate HasTagNamed(c: Contact, name: string) {
    exists t :: t in c.tags && t.name == name
  }

  /** No tag selected, or at least one selected name is exactly the name of one of the contact's tags. */
  predicate MatchesTags(c: Contact, selectedTags: seq<string>) {
    |selectedTags| == 0 || exists name :: name in selectedTags && HasTagNamed(c, name)
  }

  predicate Keeps(c: Contact, searchTerm: string, selectedTags: seq<string>) {
    MatchesSearch(c, searchTerm) && MatchesTags(c, selectedTags)
  }

  /** `filteredContacts`. */
  function FilteredContacts(contacts: seq<Contact>, searchTerm: string, selectedTags: seq<string>): seq<Contact> {
    Filter(contacts, (c: Contact) => Keeps(c, searchTerm, selectedTags))
  }

  lemma FilteredContactsSpec(contacts: seq<Contact>, searchTerm: string, selectedTags: seq<string>)
    ensures forall c :: (c in FilteredContacts(contacts, searchTerm, selectedTags)
                         <==> c in contacts && MatchesSearch(c, searchTerm) && MatchesTags(c, selectedTags))
    ensures forall c :: multiset(FilteredContacts(contacts, searchTerm, selectedTags))[c]
                        == if Keeps(c, searchTerm, selectedTags) then multiset(contacts)[c] else 0
    ensures IsSubsequence(FilteredContacts(contacts, searchTerm, selectedTags), contacts)
  {
    FilterMultiplicity(contacts, (c: Contact) => Keeps(c, searchTerm, selectedTags));
    FilterIsSubsequence(contacts, (c: Contact) => Keeps(c, searchTerm, selectedTags));
  }

  /** With no search term and no selected tag, every contact is listed. */
  lemma NoCriteriaKeepsAll(contacts: seq<Contact>)
    ensures FilteredContacts(contacts, "", []) == contacts
  {
    forall c | c in contacts ensures Keeps(c, "", []) {
      IncludesEmpty(Lower(c.name));
    }
    FilterKeepsAll(contacts, (c: Contact) => Keeps(c, "", []));
  }

  /** With no selected tag, the list is exactly the search-only filter of the contacts. */
  lemma {:induction false} NoTagsIsSearchOnly(contacts: seq<Contact>, searchTerm: string)
    ensures FilteredContacts(contacts, searchTerm, []) == Filter(contacts, (c: Contact) => MatchesSearch(c, searchTerm))
    decreases |contacts|
  {
    if contacts != [] {
      NoTagsIsSearchOnly(contacts[1..], searchTerm);
    }
  }

  /**
   * An illustration of `FilteredContactsSpec`, whose tag match compares
   * names with `==`: the search ignores case but the tag match does not.
   * A contact named "VIP" whose only tag is "VIP" is found by the search
   * "vip" and dropped by the tag selection "vip".
   */
  lemma TagMatchIsCaseSensitive(c: Contact)
    requires c.name == "VIP" && c.tags == [Tag("1", "VIP", "#FF0000", "active", None)]
    ensures MatchesSearch(c, "vip")
    ensures !MatchesTags(c, ["vip"])
  {
    assert Lower("VIP") == "vip";
    assert Lower(c.name) == Lower("vip");
    assert "vip" <= Lower(c.name);
  }
}
