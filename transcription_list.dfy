/** The `TranscriptionList` component: the fetched transcriptions, the
    single expanded entry, the "copied" marker and the delete
    confirmation dialog. */
module TranscriptionListView {
  import opened Wrappers

  datatype Transcription = Transcription(uuid: string, title: string, createdAt: string, transcription: string)

  /** How the request for the list settled: the response body, or a failure. */
  datatype FetchResult = Fetched(list: seq<Transcription>) | FetchFailed

  const FetchError := "Failed to fetch transcriptions"

  /** `prev.filter((t) => t.uuid !== uuid)`. */
  function RemoveByUuid(list: seq<Transcription>, uuid: string): (r: seq<Transcription>)
    ensures |r| <= |list|
    decreases |list|
  {
    if |list| == 0 then []
    else (if list[0].uuid != uuid then [list[0]] else []) + RemoveByUuid(list[1..], uuid)
  }

  /** Exactly the entries without the uuid remain. */
  lemma {:induction false} RemoveByUuidMembers(list: seq<Transcription>, uuid: string)
    ensures forall t :: t in RemoveByUuid(list, uuid) <==> t in list && t.uuid != uuid
    decreases |list|
  {
    if |list| > 0 {
      RemoveByUuidMembers(list[1..], uuid);
      assert list == [list[0]] + list[1..];
    }
  }

  /** The filter keeps order: filtering a concatenation filters each part. */
  lemma {:induction false} RemoveByUuidConcat(a: seq<Transcription>, b: seq<Transcription>, uuid: string)
    ensures RemoveByUuid(a + b, uuid) == RemoveByUuid(a, uuid) + RemoveByUuid(b, uuid)
    decreases |a|
  {
    if |a| == 0 {
      assert a + b == b;
      assert RemoveByUuid(a, uuid) == [];
    } else {
      RemoveByUuidConcat(a[1..], b, uuid);
      var head := if a[0].uuid != uuid then [a[0]] else [];
      assert (a + b)[0] == a[0] && (a + b)[1..] == a[1..] + b;
      assert RemoveByUuid(a + b, uuid) == head + RemoveByUuid(a[1..] + b, uuid);
      assert RemoveByUuid(a, uuid) == head + RemoveByUuid(a[1..], uuid);
    }
  }

  /** A list with no entry for the uuid is left exactly as it was. */
  lemma {:induction false} RemoveByUuidAbsent(list: seq<Transcription>, uuid: string)
    requires forall i :: 0 <= i < |list| ==> list[i].uuid != uuid
    ensures RemoveByUuid(list, uuid) == list
    decreases |list|
  {
    if |list| > 0 {
      RemoveByUuidAbsent(list[1..], uuid);
      assert list == [list[0]] + list[1..];
    }
  }

  /** Deleting twice is deleting once. */
  lemma RemoveByUuidIdempotent(list: seq<Transcription>, uuid: string)
    ensures RemoveByUuid(RemoveByUuid(list, uuid), uuid) == RemoveByUuid(list, uuid)
  {
    var once := RemoveByUuid(list, uuid);
    RemoveByUuidMembers(list, uuid);
    assert forall i :: 0 <= i < |once| ==> once[i] in once;
    RemoveByUuidAbsent(once, uuid);
  }

  class TranscriptionList {
    var transcriptions: seq<Transcription>
    var loading: bool
    var error: Option<string>
    var expandedId: Option<string>
    var copiedId: Option<string>
    var isDeleteModalOpen: bool
    var transcriptionToDelete: Option<Transcription>

    /** The state before the first fetch settles. */
    constructor ()
      ensures transcriptions == [] && loading && error == None
      ensures expandedId == None && copiedId == None
      ensures !isDeleteModalOpen && transcriptionToDelete == None
    {
      transcriptions := [];
      loading := true;
      error := None;
      expandedId := None;
      copiedId := None;
      isDeleteModalOpen := false;
      transcriptionToDelete := None;
    }

    /** Whether an entry's text is shown. At most one uuid is expanded. */
    predicate IsExpanded(uuid: string)
      reads this
    {
      expandedId == Some(uuid)
    }

    /** `fetchTranscriptions` up to its request: the list shows as loading. */
    method BeginFetch()
      modifies this
      ensures loading
      ensures transcriptions == old(transcriptions) && error == old(error)
      ensures expandedId == old(expandedId) && copiedId == old(copiedId)
      ensures isDeleteModalOpen == old(isDeleteModalOpen) && transcriptionToDelete == old(transcriptionToDelete)
    {
      loading := true;
    }

    /** `fetchTranscriptions` once its request settles: the response replaces
        the list, or the error is set and the list kept. Loading ends
        either way. A later success does not clear an earlier error. */
    method EndFetch(result: FetchResult)
      modifies this
      ensures !loading
      ensures result.Fetched? ==> transcriptions == result.list && error == old(error)
      ensures result.FetchFailed? ==> transcriptions == old(transcriptions) && error == Some(FetchError)
      ensures expandedId == old(expandedId) && copiedId == old(copiedId)
      ensures isDeleteModalOpen == old(isDeleteModalOpen) && transcriptionToDelete == old(transcriptionToDelete)
    {
      match result
      case Fetched(list) =>
        transcriptions := list;
        loading := false;
      case FetchFailed =>
        error := Some(FetchError);
        loading := false;
    }

    /** `toggleExpand`: collapses the expanded entry, or makes `uuid` the
        only expanded one. */
    method ToggleExpand(uuid: string)
      modifies this
      ensures old(IsExpanded(uuid)) ==> expandedId == None
      ensures !old(IsExpanded(uuid)) ==> IsExpanded(uuid)
      ensures forall other :: other != uuid ==> !IsExpanded(other)
      ensures transcriptions == old(transcriptions) && loading == old(loading) && error == old(error)
      ensures copiedId == old(copiedId)
      ensures isDeleteModalOpen == old(isDeleteModalOpen) && transcriptionToDelete == old(transcriptionToDelete)
    {
      expandedId := if expandedId == Some(uuid) then None else Some(uuid);
    }

    /** `copyToClipboard`: marks `uuid` as the copied entry. */
    method CopyToClipboard(uuid: string)
      modifies this
      ensures copiedId == Some(uuid)
      ensures transcriptions == old(transcriptions) && loading == old(loading) && error == old(error)
      ensures expandedId == old(expandedId)
      ensures isDeleteModalOpen == old(isDeleteModalOpen) && transcriptionToDelete == old(transcriptionToDelete)
    {
      copiedId := Some(uuid);
    }

    /** `openDeleteModal`: the dialog opens on `target`. */
    method OpenDeleteModal(target: Transcription)
      modifies this
      ensures isDeleteModalOpen && transcriptionToDelete == Some(target)
      ensures transcriptions == old(transcriptions) && loading == old(loading) && error == old(error)
      ensures expandedId == old(expandedId) && copiedId == old(copiedId)
    {
      transcriptionToDelete := Some(target);
      isDeleteModalOpen := true;
    }

    /** `closeDeleteModal`: the dialog closes and forgets its target. */
    method CloseDeleteModal()
      modifies this
      ensures !isDeleteModalOpen && transcriptionToDelete == None
      ensures transcriptions == old(transcriptions) && loading == old(loading) && error == old(error)
      ensures expandedId == old(expandedId) && copiedId == old(copiedId)
    {
      isDeleteModalOpen := false;
      transcriptionToDelete := None;
    }

    /** `handleDelete`, where `deleted` says whether the delete request
        succeeded. Without a target nothing happens. On success every
        entry with the target's uuid leaves the list, the others stay in
        order, and the dialog closes; on failure nothing changes. */
    method HandleDelete(deleted: bool)
      modifies this
      ensures old(transcriptionToDelete).None? || !deleted ==>
        && transcriptions == old(transcriptions)
        && isDeleteModalOpen == old(isDeleteModalOpen)
        && transcriptionToDelete == old(transcriptionToDelete)
      ensures old(transcriptionToDelete).Some? && deleted ==>
        && transcriptions == RemoveByUuid(old(transcriptions), old(transcriptionToDelete).value.uuid)
        && !isDeleteModalOpen && transcriptionToDelete == None
      ensures loading == old(loading) && error == old(error)
      ensures expandedId == old(expandedId) && copiedId == old(copiedId)
    {
      if transcriptionToDelete.None? {
        return;
      }
      if deleted {
        transcriptions := RemoveByUuid(transcriptions, transcriptionToDelete.value.uuid);
        CloseDeleteModal();
      }
    }
  }
}
