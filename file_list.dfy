/** The `FileList` component of the transcription page: the listed files,
    the delete confirmation dialog, the "transcribing" marker and the
    tests that decide which files offer a transcribe button. */
module FileListView {
  import opened Wrappers
  import opened Text
  import MediaKind

  /** A listed file. `contentType` is optional and the listing route never
      fills it in. */
  datatype FileItem = FileItem(name: string, key: string, url: string, size: int,
                               lastModified: string, contentType: Option<string>)

  /** How the request for the listing settled: a body whose `files` may be
      absent, or a failure. */
  datatype FetchResult = Fetched(files: Option<seq<FileItem>>) | FetchFailed

  const FetchError := "Failed to fetch files. Please try again later."
  const DeleteError := "Failed to delete file. Please try again later."
  const TranscribeError := "Failed to transcribe file. Please try again later."

  /** `contentType?.startsWith(prefix)`, false when there is no content type. */
  predicate ContentTypeStartsWith(file: FileItem, prefix: string) {
    file.contentType.Some? && StartsWith(file.contentType.value, prefix)
  }

  /** `isAudioFile`: an `audio/` content type, or an audio extension
      ignoring ASCII case; without a content type only the extension counts. */
  function IsAudioFile(file: FileItem): (r: bool)
    ensures r <==> (ContentTypeStartsWith(file, "audio/") ||
      exists i :: 0 <= i < |MediaKind.AudioExtensions| &&
        EndsWithIgnoringCase(file.name, "." + MediaKind.AudioExtensions[i]))
  {
    MediaKind.HasExtensionIff(file.name, MediaKind.AudioExtensions);
    ContentTypeStartsWith(file, "audio/") || MediaKind.HasExtension(file.name, MediaKind.AudioExtensions)
  }

  /** `isVideoFile`: a `video/` content type, or a video extension
      ignoring ASCII case. */
  function IsVideoFile(file: FileItem): (r: bool)
    ensures r <==> (ContentTypeStartsWith(file, "video/") ||
      exists i :: 0 <= i < |MediaKind.VideoExtensions| &&
        EndsWithIgnoringCase(file.name, "." + MediaKind.VideoExtensions[i]))
  {
    MediaKind.HasExtensionIff(file.name, MediaKind.VideoExtensions);
    ContentTypeStartsWith(file, "video/") || MediaKind.HasExtension(file.name, MediaKind.VideoExtensions)
  }

  /** `canTranscribe`: audio or video, that is an `audio/` or `video/`
      content type, or any media extension ignoring ASCII case. */
  function CanTranscribe(file: FileItem): (r: bool)
    ensures r <==> (ContentTypeStartsWith(file, "audio/") || ContentTypeStartsWith(file, "video/") ||
      exists i :: 0 <= i < |MediaKind.MediaExtensions| &&
        EndsWithIgnoringCase(file.name, "." + MediaKind.MediaExtensions[i]))
  {
    MediaKind.HasExtensionConcat(file.name, MediaKind.AudioExtensions, MediaKind.VideoExtensions);
    MediaKind.HasExtensionIff(file.name, MediaKind.MediaExtensions);
    IsAudioFile(file) || IsVideoFile(file)
  }

  /** Without a content type the extensions alone decide, and a file is
      then never both audio and video; a name that differs only in ASCII
      case is classified the same. */
  lemma ClassifiedByExtension(file: FileItem)
    requires file.contentType.None?
    ensures IsAudioFile(file) == MediaKind.HasExtension(file.name, MediaKind.AudioExtensions)
    ensures IsVideoFile(file) == MediaKind.HasExtension(file.name, MediaKind.VideoExtensions)
    ensures !(IsAudioFile(file) && IsVideoFile(file))
    ensures CanTranscribe(file) == CanTranscribe(file.(name := LowerAsciiString(file.name)))
  {
    MediaKind.AudioVideoExtensionsExclusive(file.name);
    MediaKind.HasExtensionIgnoresCase(file.name, MediaKind.AudioExtensions);
    MediaKind.HasExtensionIgnoresCase(file.name, MediaKind.VideoExtensions);
  }

  class FileList {
    var files: seq<FileItem>
    var loading: bool
    var error: Option<string>
    var isDeleteModalOpen: bool
    var fileToDelete: Option<FileItem>
    var transcribing: Option<string>

    /** The state before the first fetch settles. */
    constructor ()
      ensures files == [] && loading && error == None
      ensures !isDeleteModalOpen && fileToDelete == None && transcribing == None
    {
      files := [];
      loading := true;
      error := None;
      isDeleteModalOpen := false;
      fileToDelete := None;
      transcribing := None;
    }

    /** Whether a file's transcribe button is disabled: it is the file
        being transcribed. */
    predicate TranscribeDisabled(file: FileItem)
      reads this
    {
      transcribing == Some(file.key)
    }

    /** `fetchFiles` up to its request: the list shows as loading. */
    method BeginFetch()
      modifies this
      ensures loading
      ensures files == old(files) && error == old(error)
      ensures isDeleteModalOpen == old(isDeleteModalOpen) && fileToDelete == old(fileToDelete)
      ensures transcribing == old(transcribing)
    {
      loading := true;
    }

    /** `fetchFiles` once its request settles: on success the body's files
        (none when absent) replace the list and the error is cleared; on
        failure the error is set and the list kept. Loading ends either way. */
    method EndFetch(result: FetchResult)
      modifies this
      ensures !loading
      ensures result.Fetched? ==> files == result.files.GetOr([]) && error == None
      ensures result.FetchFailed? ==> files == old(files) && error == Some(FetchError)
      ensures isDeleteModalOpen == old(isDeleteModalOpen) && fileToDelete == old(fileToDelete)
      ensures transcribing == old(transcribing)
    {
      match result {
        case Fetched(body) =>
          files := body.GetOr([]);
          error := None;
        case FetchFailed =>
          error := Some(FetchError);
      }
      loading := false;
    }

    /** `openDeleteModal`: the dialog opens on `target`. */
    method OpenDeleteModal(target: FileItem)
      modifies this
      ensures isDeleteModalOpen && fileToDelete == Some(target)
      ensures files == old(files) && loading == old(loading) && error == old(error)
      ensures transcribing == old(transcribing)
    {
      fileToDelete := Some(target);
      isDeleteModalOpen := true;
    }

    /** `closeDeleteModal`: the dialog closes and forgets its target. */
    method CloseDeleteModal()
      modifies this
      ensures !isDeleteModalOpen && fileToDelete == None
      ensures files == old(files) && loading == old(loading) && error == old(error)
      ensures transcribing == old(transcribing)
    {
      isDeleteModalOpen := false;
      fileToDelete := None;
    }

    /** `handleDelete`, where `deleted` says whether the delete request
        succeeded and `refresh` how the following re-fetch settled.
        Without a target nothing happens. A failed delete sets the error
        and leaves the dialog open. A successful one re-fetches (which
        never throws) and then closes the dialog. */
    method HandleDelete(deleted: bool, refresh: FetchResult)
      modifies this
      ensures old(fileToDelete).None? ==>
        && files == old(files) && loading == old(loading) && error == old(error)
        && isDeleteModalOpen == old(isDeleteModalOpen) && fileToDelete == old(fileToDelete)
      ensures old(fileToDelete).Some? && !deleted ==>
        && error == Some(DeleteError)
        && files == old(files) && loading == old(loading)
        && isDeleteModalOpen == old(isDeleteModalOpen) && fileToDelete == old(fileToDelete)
      ensures old(fileToDelete).Some? && deleted ==>
        && !loading && !isDeleteModalOpen && fileToDelete == None
        && (refresh.Fetched? ==> files == refresh.files.GetOr([]) && error == None)
        && (refresh.FetchFailed? ==> files == old(files) && error == Some(FetchError))
      ensures transcribing == old(transcribing)
    {
      if fileToDelete.None? {
        return;
      }
      if !deleted {
        error := Some(DeleteError);
        return;
      }
      BeginFetch();
      EndFetch(refresh);
      CloseDeleteModal();
    }

    /** `handleTranscribe` up to its request: `file` is marked as being
        transcribed, which disables its button. */
    method BeginTranscribe(file: FileItem)
      modifies this
      ensures transcribing == Some(file.key) && TranscribeDisabled(file)
      ensures files == old(files) && loading == old(loading) && error == old(error)
      ensures isDeleteModalOpen == old(isDeleteModalOpen) && fileToDelete == old(fileToDelete)
    {
      transcribing := Some(file.key);
    }

    /** `handleTranscribe` once its request settles (`succeeded` says how):
        the marker is cleared either way, and a failure sets the error. */
    method EndTranscribe(succeeded: bool)
      modifies this
      ensures transcribing == None
      ensures error == if succeeded then old(error) else Some(TranscribeError)
      ensures files == old(files) && loading == old(loading)
      ensures isDeleteModalOpen == old(isDeleteModalOpen) && fileToDelete == old(fileToDelete)
    {
      if !succeeded {
        error := Some(TranscribeError);
      }
      transcribing := None;
    }
  }
}
