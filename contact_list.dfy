/**
 * The contact table's tag bar and delete confirmation
 * (`src/components/Contacts/ContactList.tsx`).
 */
module ContactList {
  import opened Common
  import opened Records

  /** `tags.map(tag => tag.name)`. */
  function NamesOf(tags: seq<Tag>): (r: seq<string>)
    ensures |r| == |tags| && forall i :: 0 <= i < |r| ==> r[i] == tags[i].name
    ensures forall name :: name in r <==> exists t :: t in tags && t.name == name
    decreases |tags|
  {
    if tags == [] then [] else [tags[0].name] + NamesOf(tags[1..])
  }

  /** `contacts.flatMap(contact => contact.tags.map(tag => tag.name))`. */
  function TagNames(contacts: seq<Contact>): (r: seq<string>)
    ensures forall name :: name in r <==> exists c, t :: c in contacts && t in c.tags && t.name == name
    decreases |contacts|
  {
    if contacts == [] then [] else NamesOf(contacts[0].tags) + TagNames(contacts[1..])
  }

  /** Flattening lists the tag names contact by contact: joined lists give joined names. */
  lemma {:induction false} TagNamesAppend(a: seq<Contact>, b: seq<Contact>)
    ensures TagNames(a + b) == TagNames(a) + TagNames(b)
    decreases |a|
  {
    if a == [] {
      assert a + b == b;
    } else {
      assert (a + b)[1..] == a[1..] + b;
      assert (a + b)[0] == a[0];
      TagNamesAppend(a[1..], b);
    }
  }

  /** A single contact contributes its own tag names, in its own order. */
  lemma TagNamesSingle(c: Contact)
    ensures TagNames([c]) == NamesOf(c.tags)
  {
    assert [c][1..] == [];
  }

  /** The position of the first occurrence of `x` in `s`. */
  function FirstIndex(s: seq<string>, x: string): (k: nat)
    requires x in s
    ensures k < |s| && s[k] == x && forall j :: 0 <= j < k ==> s[j] != x
  {
    if s[0] == x then 0 else 1 + FirstIndex(s[1..], x)
  }

  /**
   * `Array.from(new Set(s))`: each value once, in the order of its first
   * occurrence, built the way a `Set` is: element by element, adding the
   * ones not yet present.
   */
  function Distinct(s: seq<string>): (r: seq<string>)
    ensures NoDuplicates(r)
    ensures forall x :: x in r <==> x in s
    decreases |s|
  {
    if s == [] then []
    else
      var d := Distinct(s[..|s| - 1]);
      var x := s[|s| - 1];
      assert s == s[..|s| - 1] + [x];
      if x in d then d else d + [x]
  }

  lemma FirstIndexOfPrefix(s: seq<string>, y: string, x: string)
    requires x in s
    ensures FirstIndex(s + [y], x) == FirstIndex(s, x)
  {
    var k := FirstIndex(s + [y], x);
    var k' := FirstIndex(s, x);
    assert (s + [y])[k'] == x;
  }

  /** The values of `d`, all occurring in `s`, are listed in the order of their first occurrence in `s`. */
  predicate InFirstAppearanceOrder(s: seq<string>, d: seq<string>)
    requires forall y :: y in d ==> y in s
  {
    forall i, j :: 0 <= i < j < |d| ==> FirstIndex(s, d[i]) < FirstIndex(s, d[j])
  }

  /** Appending a value to `s` does not move the first occurrence of any value already in `s`. */
  lemma OrderSurvivesAppend(p: seq<string>, x: string, d: seq<string>)
    requires forall y :: y in d ==> y in p
    requires InFirstAppearanceOrder(p, d)
    ensures forall y :: y in d ==> y in p + [x]
    ensures InFirstAppearanceOrder(p + [x], d)
  {
    forall y | y in d ensures FirstIndex(p + [x], y) == FirstIndex(p, y) {
      FirstIndexOfPrefix(p, x, y);
    }
  }

  /** A value new to `s` goes last, after every value already listed. */
  lemma NewValueGoesLast(p: seq<string>, x: string, d: seq<string>)
    requires forall y :: y in d ==> y in p
    requires x !in p
    requires InFirstAppearanceOrder(p, d)
    ensures forall y :: y in d + [x] ==> y in p + [x]
    ensures InFirstAppearanceOrder(p + [x], d + [x])
  {
    OrderSurvivesAppend(p, x, d);
    var s, r := p + [x], d + [x];
    assert FirstIndex(s, x) == |p| by {
      assert s[|p|] == x;
    }
    forall i, j | 0 <= i < j < |r| ensures FirstIndex(s, r[i]) < FirstIndex(s, r[j]) {
      assert r[i] == d[i] && r[i] in d;
      if j < |d| {
        assert r[j] == d[j];
      }
    }
  }

  /** `Distinct` lists the values in the order in which they first occur. */
  lemma {:induction false} DistinctFirstAppearanceOrder(s: seq<string>)
    ensures InFirstAppearanceOrder(s, Distinct(s))
    decreases |s|
  {
    if s != [] {
      var p, x := s[..|s| - 1], s[|s| - 1];
      assert s == p + [x];
      DistinctFirstAppearanceOrder(p);
      var d := Distinct(p);
      assert Distinct(s) == if x in d then d else d + [x];
      if x in d {
        OrderSurvivesAppend(p, x, d);
      } else {
        NewValueGoesLast(p, x, d);
      }
    }
  }

  /** `allTags`: every tag name used by any contact, once each, in order of first use. */
  function AllTags(contacts: seq<Contact>): seq<string> {
    Distinct(TagNames(contacts))
  }

  lemma AllTagsSpec(contacts: seq<Contact>)
    ensures NoDuplicates(AllTags(contacts))
    ensures forall name :: name in AllTags(contacts) <==> exists c, t :: c in contacts && t in c.tags && t.name == name
    ensures InFirstAppearanceOrder(TagNames(contacts), AllTags(contacts))
  {
    DistinctFirstAppearanceOrder(TagNames(contacts));
  }

  /** `toggleTag`: drop every occurrence of a selected tag, or append an unselected one. */
  function ToggleTag(selectedTags: seq<string>, tag: string): (r: seq<string>)
    ensures tag in r <==> tag !in selectedTags
    ensures forall x :: x != tag ==> (x in r <==> x in selectedTags)
    ensures tag !in selectedTags ==> r == selectedTags + [tag]
    ensures tag in selectedTags ==> IsSubsequence(r, selectedTags)
    ensures tag in selectedTags ==> forall x :: x != tag ==> multiset(r)[x] == multiset(selectedTags)[x]
  {
    if tag in selectedTags then
      FilterMultiplicity(selectedTags, t => t != tag);
      FilterIsSubsequence(selectedTags, t => t != tag);
      Filter(selectedTags, t => t != tag)
    else selectedTags + [tag]
  }

  /** Toggling an unselected tag twice restores the selection. */
  lemma ToggleTwiceRestores(selectedTags: seq<string>, tag: string)
    requires tag !in selectedTags
    ensures ToggleTag(ToggleTag(selectedTags, tag), tag) == selectedTags
  {
    FilterAppendDropsLast(selectedTags, tag);
  }

  lemma {:induction false} FilterAppendDropsLast(s: seq<string>, tag: string)
    requires tag !in s
    ensures Filter(s + [tag], t => t != tag) == s
    decreases |s|
  {
    if s == [] {
      assert [tag][1..] == [];
    } else {
      assert (s + [tag])[1..] == s[1..] + [tag];
      FilterAppendDropsLast(s[1..], tag);
      assert [s[0]] + s[1..] == s;
    }
  }

  class ContactListState {
    var contactToDelete: Option<string>
    var isDeleteModalOpen: bool
    /** The ids handed to `onDelete`, in order. */
    var deleted: seq<string>

    constructor ()
      ensures contactToDelete == None && !isDeleteModalOpen && deleted == []
    {
      contactToDelete := None;
      isDeleteModalOpen := false;
      deleted := [];
    }

    method HandleDeleteClick(id: string)
      modifies this`contactToDelete, this`isDeleteModalOpen
      ensures contactToDelete == Some(id) && isDeleteModalOpen
    {
      contactToDelete := Some(id);
      isDeleteModalOpen := true;
    }

    /** `handleDeleteConfirm`: acts only when a (non-empty) id is pending. */
    method HandleDeleteConfirm()
      modifies this
      ensures Truthy(old(contactToDelete)) ==>
        deleted == old(deleted) + [old(contactToDelete).value] && contactToDelete == None && !isDeleteModalOpen
      ensures !Truthy(old(contactToDelete)) ==>
        deleted == old(deleted) && contactToDelete == old(contactToDelete) && isDeleteModalOpen == old(isDeleteModalOpen)
    {
      if Truthy(contactToDelete) {
        deleted := deleted + [contactToDelete.value];
        isDeleteModalOpen := false;
        contactToDelete := None;
      }
    }
  }
}
