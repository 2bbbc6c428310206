/** The upload queue of the `FileUploader` component: the batch and
    per-file size checks when files are added, removal by position, the
    audio test that decides whether an upload is transcribed, the object
    keys and the per-file progress map of an upload run. */
module UploaderView {
  import opened Wrappers
  import opened Text
  import MediaKind
  import S3Listing

  /** A browser `File`: its name, its MIME type ("" when unknown) and its
      size in bytes. */
  datatype File = File(name: string, mimeType: string, size: nat)

  /** The default per-file limit, 250 MiB. */
  const DefaultIndividualLimit: nat := 250 * 1024 * 1024
  /** The default limit on one batch of added files, 500 MiB. */
  const DefaultTotalLimit: nat := 500 * 1024 * 1024

  /** The error line under the queue. Its text embeds limits rendered by
      `formatBytes`; the model keeps the limit itself. `NoNotice` is the
      empty string. */
  datatype Notice =
    | NoNotice
    | TotalTooLarge(totalLimit: nat)
    | SomeTooLarge(individualLimit: nat)
    | NothingSelected
    | UploadFailed(fileName: string, message: string)
    | TranscribeFailed(message: string)

  /** What `uploadFile` does for one queued file: the object key it asks a
      presigned URL for, and whether the upload is followed by a
      transcription request for that key. */
  datatype UploadTask = UploadTask(file: File, objectKey: string, transcribe: bool)

  /** `files.reduce((acc, file) => acc + file.size, 0)`. */
  function TotalSize(files: seq<File>): (total: nat)
    ensures forall i :: 0 <= i < |files| ==> files[i].size <= total
    ensures total == 0 <==> forall i :: 0 <= i < |files| ==> files[i].size == 0
    decreases |files|
  {
    if |files| == 0 then 0 else TotalSize(files[..|files| - 1]) + files[|files| - 1].size
  }

  /** The size of a concatenation is the sum of the sizes. */
  lemma {:induction false} TotalSizeConcat(a: seq<File>, b: seq<File>)
    ensures TotalSize(a + b) == TotalSize(a) + TotalSize(b)
    decreases |b|
  {
    if |b| > 0 {
      TotalSizeConcat(a, b[..|b| - 1]);
      assert (a + b)[..|a + b| - 1] == a + b[..|b| - 1];
    } else {
      assert a + b == a;
    }
  }

  /** `files.filter(file => file.size <= limit)`. */
  function WithinLimit(files: seq<File>, limit: nat): (kept: seq<File>)
    ensures |kept| <= |files|
    ensures forall f :: f in kept <==> f in files && f.size <= limit
    decreases |files|
  {
    if |files| == 0 then []
    else (if files[0].size <= limit then [files[0]] else []) + WithinLimit(files[1..], limit)
  }

  /** The filter keeps order: filtering a concatenation filters each part. */
  lemma {:induction false} WithinLimitConcat(a: seq<File>, b: seq<File>, limit: nat)
    ensures WithinLimit(a + b, limit) == WithinLimit(a, limit) + WithinLimit(b, limit)
    decreases |a|
  {
    if |a| == 0 {
      assert a + b == b;
    } else {
      WithinLimitConcat(a[1..], b, limit);
      var head := if a[0].size <= limit then [a[0]] else [];
      assert (a + b)[0] == a[0] && (a + b)[1..] == a[1..] + b;
      assert WithinLimit(a + b, limit) == head + WithinLimit(a[1..] + b, limit);
      assert WithinLimit(a, limit) == head + WithinLimit(a[1..], limit);
      assert head + (WithinLimit(a[1..], limit) + WithinLimit(b, limit))
          == (head + WithinLimit(a[1..], limit)) + WithinLimit(b, limit);
    }
  }

  /** Nothing is filtered out exactly when every file is within the limit. */
  lemma {:induction false} WithinLimitKeepsAll(files: seq<File>, limit: nat)
    ensures |WithinLimit(files, limit)| == |files| <==> forall i :: 0 <= i < |files| ==> files[i].size <= limit
    decreases |files|
  {
    if |files| > 0 {
      WithinLimitKeepsAll(files[1..], limit);
      if forall i :: 0 <= i < |files| ==> files[i].size <= limit {
        assert forall i :: 0 <= i < |files| - 1 ==> files[1..][i].size <= limit;
      } else {
        var i :| 0 <= i < |files| && files[i].size > limit;
        if i > 0 {
          assert files[1..][i - 1].size > limit;
        }
      }
    }
  }

  /** `prevFiles.filter((_, i) => i !== index)`, walking the list with the
      position of its first element at `index`'s origin. */
  function WithoutIndex(files: seq<File>, index: int): (r: seq<File>)
    ensures r == if 0 <= index < |files| then files[..index] + files[index + 1..] else files
    decreases |files|
  {
    if |files| == 0 then []
    else (if index == 0 then [] else [files[0]]) + WithoutIndex(files[1..], index - 1)
  }

  /** `isAudioFile`: the MIME type starts with `audio/` or the name ends in
      one of the audio extensions, ignoring ASCII case. */
  function IsAudioFile(file: File): (r: bool)
    ensures r <==> (StartsWith(file.mimeType, "audio/") ||
      exists i :: 0 <= i < |MediaKind.AudioExtensions| &&
        EndsWithIgnoringCase(file.name, "." + MediaKind.AudioExtensions[i]))
  {
    MediaKind.HasExtensionIff(file.name, MediaKind.AudioExtensions);
    StartsWith(file.mimeType, "audio/") || MediaKind.HasExtension(file.name, MediaKind.AudioExtensions)
  }

  /** The object key a file is uploaded under: the `uploads/` folder, the
      session's folder, then the file name. */
  function ObjectKey(sessionID: string, fileName: string): (key: string)
    ensures StartsWith(key, "uploads/") && |key| == 9 + |sessionID| + |fileName|
    ensures key[8..8 + |sessionID|] == sessionID && key[8 + |sessionID|] == '/'
    ensures key[9 + |sessionID|..] == fileName
  {
    "uploads/" + sessionID + "/" + fileName
  }

  /** The listing route shows an uploaded file under its own name, provided
      the name holds no `/`. */
  lemma ObjectKeyNamesFile(sessionID: string, fileName: string)
    requires '/' !in fileName
    ensures StartsWith(ObjectKey(sessionID, fileName), "uploads/")
    ensures S3Listing.FileName(ObjectKey(sessionID, fileName)) == fileName
  {
    S3Listing.FileNameAfterSlash("uploads/" + sessionID, fileName);
  }

  /** `selectedFiles.map(uploadFile)`: one task per queued file, in order. */
  function Plan(sessionID: string, files: seq<File>): (tasks: seq<UploadTask>)
    ensures |tasks| == |files|
    ensures forall i :: 0 <= i < |files| ==>
      tasks[i] == UploadTask(files[i], ObjectKey(sessionID, files[i].name), IsAudioFile(files[i]))
    decreases |files|
  {
    if |files| == 0 then []
    else
      var task := UploadTask(files[0], ObjectKey(sessionID, files[0].name), IsAudioFile(files[0]));
      [task] + Plan(sessionID, files[1..])
  }

  /** The names of the queued files. */
  function Names(files: seq<File>): set<string> {
    set i | 0 <= i < |files| :: files[i].name
  }

  /** The one name a plain object literal does not take as a key: assigning
      to `acc["__proto__"]` reaches the prototype setter, which ignores a
      string, so no entry is created. */
  const ProtoKey := "__proto__"

  /** The `reduce` that builds the initial progress map on a plain object:
      every queued name, once, at "0%", except `ProtoKey`, which the
      object drops. Files sharing a name share one entry. */
  function InitialProgress(files: seq<File>): (progress: map<string, string>)
    ensures progress.Keys == Names(files) - {ProtoKey}
    ensures forall name :: name in progress ==> progress[name] == "0%"
    decreases |files|
  {
    if |files| == 0 then map[]
    else
      var front := files[..|files| - 1];
      assert Names(files) == Names(front) + {files[|files| - 1].name} by {
        forall name | name in Names(files) ensures name in Names(front) + {files[|files| - 1].name} {
          var i :| 0 <= i < |files| && files[i].name == name;
          if i < |files| - 1 {
            assert front[i] == files[i];
          }
        }
        forall name | name in Names(front) ensures name in Names(files) {
          var i :| 0 <= i < |front| && front[i].name == name;
          assert files[i] == front[i];
        }
      }
      var name := files[|files| - 1].name;
      if name == ProtoKey then InitialProgress(front)
      else InitialProgress(front)[name := "0%"]
  }

  class FileUploader {
    const sessionID: string
    const individualFileSizeLimit: nat
    const totalFileSizeLimit: nat
    var selectedFiles: seq<File>
    var uploading: bool
    var uploadProgress: map<string, string>
    var errorMessage: Notice

    /** The component's initial state; an absent limit takes its default. */
    constructor (sessionID: string, individualLimit: Option<nat>, totalLimit: Option<nat>)
      ensures this.sessionID == sessionID
      ensures individualFileSizeLimit == individualLimit.GetOr(DefaultIndividualLimit)
      ensures totalFileSizeLimit == totalLimit.GetOr(DefaultTotalLimit)
      ensures selectedFiles == [] && !uploading && uploadProgress == map[] && errorMessage == NoNotice
    {
      this.sessionID := sessionID;
      individualFileSizeLimit := individualLimit.GetOr(DefaultIndividualLimit);
      totalFileSizeLimit := totalLimit.GetOr(DefaultTotalLimit);
      selectedFiles := [];
      uploading := false;
      uploadProgress := map[];
      errorMessage := NoNotice;
    }

    /** `handleFiles`: a batch whose total size is over the batch limit is
        refused whole; otherwise the files within the per-file limit are
        queued after the ones already selected, and the error line says
        whether any file was dropped. Files already queued do not count
        toward the batch total. */
    method HandleFiles(files: seq<File>)
      modifies this
      ensures TotalSize(files) > totalFileSizeLimit ==>
        selectedFiles == old(selectedFiles) && errorMessage == TotalTooLarge(totalFileSizeLimit)
      ensures TotalSize(files) <= totalFileSizeLimit ==>
        && selectedFiles == old(selectedFiles) + WithinLimit(files, individualFileSizeLimit)
        && (errorMessage == NoNotice <==> forall i :: 0 <= i < |files| ==> files[i].size <= individualFileSizeLimit)
        && (errorMessage != NoNotice ==> errorMessage == SomeTooLarge(individualFileSizeLimit))
      ensures uploading == old(uploading) && uploadProgress == old(uploadProgress)
    {
      errorMessage := NoNotice;
      var totalSize := TotalSize(files);
      if totalSize > totalFileSizeLimit {
        errorMessage := TotalTooLarge(totalFileSizeLimit);
        return;
      }
      var validFiles := WithinLimit(files, individualFileSizeLimit);
      WithinLimitKeepsAll(files, individualFileSizeLimit);
      if |validFiles| != |files| {
        errorMessage := SomeTooLarge(individualFileSizeLimit);
      }
      selectedFiles := selectedFiles + validFiles;
    }

    /** `handleDeleteFile`: drops the file at `index`, keeping the others
        in order; an index outside the queue changes nothing. */
    method HandleDeleteFile(index: int)
      modifies this
      ensures selectedFiles == if 0 <= index < |old(selectedFiles)|
        then old(selectedFiles)[..index] + old(selectedFiles)[index + 1..]
        else old(selectedFiles)
      ensures uploading == old(uploading) && uploadProgress == old(uploadProgress)
      ensures errorMessage == old(errorMessage)
    {
      selectedFiles := WithoutIndex(selectedFiles, index);
    }

    /** The synchronous start of `handleUpload`, up to the fan-out. With an
        empty queue it only sets the error line. Otherwise it marks the
        run as uploading, clears the error line, puts every queued name
        at "0%" (save `ProtoKey`, which the plain-object map drops) and
        returns the per-file tasks the fan-out performs. */
    method StartUpload() returns (started: bool, tasks: seq<UploadTask>)
      modifies this
      ensures started <==> old(selectedFiles) != []
      ensures selectedFiles == old(selectedFiles)
      ensures !started ==>
        && errorMessage == NothingSelected && tasks == []
        && uploading == old(uploading) && uploadProgress == old(uploadProgress)
      ensures started ==>
        && uploading && errorMessage == NoNotice
        && uploadProgress.Keys == Names(selectedFiles) - {ProtoKey}
        && (forall name :: name in uploadProgress ==> uploadProgress[name] == "0%")
        && tasks == Plan(sessionID, selectedFiles)
    {
      if |selectedFiles| == 0 {
        errorMessage := NothingSelected;
        return false, [];
      }
      uploading := true;
      errorMessage := NoNotice;
      uploadProgress := InitialProgress(selectedFiles);
      started, tasks := true, Plan(sessionID, selectedFiles);
    }

    /** The `onUploadProgress` callback of one file's PUT: that name's
        entry becomes the reported percentage. An entry for a queued name
        already exists, so the set of names does not change. */
    method OnUploadProgress(fileName: string, percent: string)
      modifies this
      ensures uploadProgress == old(uploadProgress)[fileName := percent]
      ensures fileName in old(uploadProgress) ==> uploadProgress.Keys == old(uploadProgress).Keys
      ensures selectedFiles == old(selectedFiles) && uploading == old(uploading)
      ensures errorMessage == old(errorMessage)
    {
      uploadProgress := uploadProgress[fileName := percent];
    }

    /** The `catch` of one file's upload: the error line names the file. */
    method OnUploadFailed(fileName: string, message: string)
      modifies this
      ensures errorMessage == UploadFailed(fileName, message)
      ensures selectedFiles == old(selectedFiles) && uploading == old(uploading)
      ensures uploadProgress == old(uploadProgress)
    {
      errorMessage := UploadFailed(fileName, message);
    }

    /** The `catch` of `transcribeAudio`. */
    method OnTranscribeFailed(message: string)
      modifies this
      ensures errorMessage == TranscribeFailed(message)
      ensures selectedFiles == old(selectedFiles) && uploading == old(uploading)
      ensures uploadProgress == old(uploadProgress)
    {
      errorMessage := TranscribeFailed(message);
    }

    /** The end of `handleUpload`, after every task has settled: the run
        is over and the queue is emptied, whether or not uploads failed. */
    method FinishUpload()
      modifies this
      ensures !uploading && selectedFiles == []
      ensures uploadProgress == old(uploadProgress) && errorMessage == old(errorMessage)
    {
      uploading := false;
      selectedFiles := [];
    }
  }
}
