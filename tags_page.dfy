/**
 * The tag list page (`src/components/Tags/index.tsx`): the name search,
 * the labels on each tag card, and the create, edit and delete dialogs.
 */
module TagsPage {
  import opened Common
  import opened Records
  import opened Services

  /** `filteredTags`: a case-insensitive search on the tag name. */
  function FilteredTags(tags: seq<Tag>, searchTerm: string): seq<Tag> {
    Filter(tags, (t: Tag) => MatchesTerm(t.name, searchTerm))
  }

  lemma FilteredTagsSpec(tags: seq<Tag>, searchTerm: string)
    ensures forall t :: t in FilteredTags(tags, searchTerm) <==> t in tags && MatchesTerm(t.name, searchTerm)
    ensures forall t :: multiset(FilteredTags(tags, searchTerm))[t]
                        == if MatchesTerm(t.name, searchTerm) then multiset(tags)[t] else 0
    ensures IsSubsequence(FilteredTags(tags, searchTerm), tags)
    ensures searchTerm == "" ==> FilteredTags(tags, searchTerm) == tags
  {
    FilterMultiplicity(tags, (t: Tag) => MatchesTerm(t.name, searchTerm));
    FilterIsSubsequence(tags, (t: Tag) => MatchesTerm(t.name, searchTerm));
    if searchTerm == "" {
      forall t | t in tags ensures MatchesTerm(t.name, searchTerm) {
        IncludesEmpty(Lower(t.name));
      }
      FilterKeepsAll(tags, (t: Tag) => MatchesTerm(t.name, searchTerm));
    }
  }

  const Singular := "item marcado"
  const Plural := "itens marcados"

  /** The words after a tag's usage count. */
  function CountLabel(count: Option<int>): (r: string)
    ensures r == Singular <==> count == Some(1)
    ensures r == Singular || r == Plural
  {
    if count == Some(1) then Singular else Plural
  }

  /** A tag as `getAll` returns it carries no count, so its label always reads plural. */
  lemma FetchedTagsReadPlural(row: TagRow)
    ensures CountLabel(TagOfRow(row).count) == Plural
  {
  }

  const ActiveLabel := "Ativa"
  const InactiveLabel := "Inativa"

  /** The status badge: only the exact status `active` reads as active. */
  function StatusLabel(status: string): (r: string)
    ensures r == ActiveLabel <==> status == "active"
    ensures r == ActiveLabel || r == InactiveLabel
  {
    if status == "active" then ActiveLabel else InactiveLabel
  }

  const FetchFailed := "Falha ao carregar etiquetas. Por favor, tente novamente."
  const DeleteFailed := "Falha ao excluir etiqueta. Por favor, tente novamente."

  class TagsPageState {
    var tags: seq<Tag>
    var searchTerm: string
    var error: Option<string>
    var isModalOpen: bool
    var editingTag: Option<Tag>
    var deletingTag: Option<Tag>
    var isDeleteModalOpen: bool
    /** Ids for which `handleDeleteConfirm` attempted the tags service's `delete`, in order. */
    var deleteRequests: seq<string>

    constructor ()
      ensures tags == [] && searchTerm == "" && error == None
      ensures !isModalOpen && editingTag == None && deletingTag == None && !isDeleteModalOpen
      ensures deleteRequests == []
    {
      tags := [];
      searchTerm := "";
      error := None;
      isModalOpen := false;
      editingTag := None;
      deletingTag := None;
      isDeleteModalOpen := false;
      deleteRequests := [];
    }

    /**
     * `fetchTags`, with the service's answer as `fetched` (`None` when it
     * threw).  It handles its own failure, so it never fails its caller.
     */
    method FetchTags(fetched: Option<seq<Tag>>)
      modifies this`tags, this`error
      ensures fetched.Some? ==> tags == fetched.value && error == old(error)
      ensures fetched.None? ==> tags == old(tags) && error == Some(FetchFailed)
    {
      if fetched.Some? {
        tags := fetched.value;
      } else {
        error := Some(FetchFailed);
      }
    }

    method HandleCreateTag()
      modifies this`editingTag, this`isModalOpen
      ensures editingTag == None && isModalOpen
    {
      editingTag := None;
      isModalOpen := true;
    }

    method HandleEditTag(t: Tag)
      modifies this`editingTag, this`isModalOpen
      ensures editingTag == Some(t) && isModalOpen
    {
      editingTag := Some(t);
      isModalOpen := true;
    }

    method HandleDeleteClick(t: Tag)
      modifies this`deletingTag, this`isDeleteModalOpen
      ensures deletingTag == Some(t) && isDeleteModalOpen
    {
      deletingTag := Some(t);
      isDeleteModalOpen := true;
    }

    /**
     * `handleDeleteConfirm`.  `deleteOk` is whether the service's `delete`
     * succeeded and `fetched` the answer of the reload that follows it.
     */
    method HandleDeleteConfirm(deleteOk: bool, fetched: Option<seq<Tag>>)
      modifies this`tags, this`error, this`deletingTag, this`isDeleteModalOpen, this`deleteRequests
      ensures old(deletingTag).None? ==>
        && tags == old(tags) && error == old(error) && deletingTag == None
        && isDeleteModalOpen == old(isDeleteModalOpen) && deleteRequests == old(deleteRequests)
      ensures old(deletingTag).Some? ==> deleteRequests == old(deleteRequests) + [old(deletingTag).value.id]
      ensures old(deletingTag).Some? && deleteOk ==>
        && (fetched.Some? ==> tags == fetched.value && error == old(error))
        && (fetched.None? ==> tags == old(tags) && error == Some(FetchFailed))
        && !isDeleteModalOpen && deletingTag == None
      ensures old(deletingTag).Some? && !deleteOk ==>
        && tags == old(tags) && error == Some(DeleteFailed)
        && isDeleteModalOpen == old(isDeleteModalOpen) && deletingTag == old(deletingTag)
    {
      if deletingTag.None? {
        return;
      }
      deleteRequests := deleteRequests + [deletingTag.value.id];
      if deleteOk {
        FetchTags(fetched);
        isDeleteModalOpen := false;
        deletingTag := None;
      } else {
        error := Some(DeleteFailed);
      }
    }

    /**
     * With the tags service as written, which has no `delete`, the confirm
     * step always takes the failure branch: the delete error is shown and
     * the confirmation stays open.
     */
    method HandleDeleteConfirmAsWritten(queryError: Option<string>, fetched: Option<seq<Tag>>)
      modifies this`tags, this`error, this`deletingTag, this`isDeleteModalOpen, this`deleteRequests
      ensures old(deletingTag).Some? ==>
        && tags == old(tags) && error == Some(DeleteFailed)
        && isDeleteModalOpen == old(isDeleteModalOpen) && deletingTag == old(deletingTag)
        && deleteRequests == old(deleteRequests) + [old(deletingTag).value.id]
    {
      HandleDeleteConfirm(CallError(TagsServiceDefines(Delete), queryError).None?, fetched);
    }

    /** `handleModalSuccess`: reload, then close the dialog and forget the tag being edited. */
    method HandleModalSuccess(fetched: Option<seq<Tag>>)
      modifies this`tags, this`error, this`isModalOpen, this`editingTag
      ensures fetched.Some? ==> tags == fetched.value && error == old(error)
      ensures fetched.None? ==> tags == old(tags) && error == Some(FetchFailed)
      ensures !isModalOpen && editingTag == None
    {
      FetchTags(fetched);
      isModalOpen := false;
      editingTag := None;
    }

    /** The `onClose` of the tag dialog. */
    method HandleModalClose()
      modifies this`isModalOpen, this`editingTag
      ensures !isModalOpen && editingTag == None
    {
      isModalOpen := false;
      editingTag := None;
    }

    /** The `onClose` of the delete confirmation. */
    method HandleDeleteModalClose()
      modifies this`isDeleteModalOpen, this`deletingTag
      ensures !isDeleteModalOpen && deletingTag == None
    {
      isDeleteModalOpen := false;
      deletingTag := None;
    }

    function Visible(): seq<Tag>
      reads this
    {
      FilteredTags(tags, searchTerm)
    }
  }
}
