/** The transcription route (`POST /api/transcribe`): the transcribed text
    of an uploaded object is stored as a text object whose key is derived
    from the source key. Fetching the audio and the speech-to-text call
    are one parameter, their text or the message of what failed. */
module TranscribeRoute {
  import opened Wrappers
  import opened Text
  import Cloud

  const TranscriptSuffix := "_transcription.txt"
  const CompletedMessage := "Transcription completed successfully"

  /** `${fileKey.split('.')[0]}_transcription.txt`: the key's text before
      its first `.` (a `.` in a directory part counts), then the suffix. A
      key without `.` is kept whole. */
  function TranscriptionFileName(fileKey: string): (name: string)
    ensures |name| >= |TranscriptSuffix| && name[|name| - |TranscriptSuffix|..] == TranscriptSuffix
    ensures var stem := name[..|name| - |TranscriptSuffix|];
      && StartsWith(fileKey, stem) && '.' !in stem
      && (|stem| < |fileKey| ==> fileKey[|stem|] == '.')
    ensures '.' !in fileKey ==> name == fileKey + TranscriptSuffix
  {
    FirstSegment(fileKey, '.');
    var stem := Split(fileKey, '.')[0];
    assert (stem + TranscriptSuffix)[..|stem|] == stem;
    stem + TranscriptSuffix
  }

  /** Keys that agree up to their first `.` share a transcription file:
      the file name forgets the extension. */
  lemma SameStemSameFile(stem: string, ext1: string, ext2: string)
    requires '.' !in stem
    ensures TranscriptionFileName(stem + "." + ext1) == TranscriptionFileName(stem + "." + ext2)
  {
    var k1, k2 := stem + "." + ext1, stem + "." + ext2;
    var n1, n2 := TranscriptionFileName(k1), TranscriptionFileName(k2);
    var s1, s2 := n1[..|n1| - |TranscriptSuffix|], n2[..|n2| - |TranscriptSuffix|];
    assert k1[|stem|] == '.' && k2[|stem|] == '.';
    assert k1[..|stem|] == stem && k2[..|stem|] == stem;
    assert s1 == stem && s2 == stem;
    assert n1 == s1 + TranscriptSuffix;
    assert n2 == s2 + TranscriptSuffix;
  }

  datatype Response =
    | Transcribed(message: string, transcriptionFile: string)
    | Failed(status: int, error: string)

  /** `POST` with the parsed body's `fileKey`. `transcript` is the
      speech-to-text result for the object at `fileKey`, or the message of
      whatever threw inside the `try` while getting it;
      `uploadFailure` the message of a failing upload. On success the text
      is stored under the derived name, and that name is returned; any
      failure thrown inside the `try` is answered 500 with its message and stores nothing.
      An error reply that does not throw (an error status from storage or
      from the speech-to-text service) carries no text; it is the
      transcript `Ok("")` here, stored and answered as a success. */
  method Post(services: Cloud.Services, fileKey: string, transcript: Result<string, string>,
              uploadFailure: Option<string>) returns (resp: Response)
    modifies services
    ensures transcript.Err? ==> resp == Failed(500, transcript.error)
    ensures transcript.Ok? && uploadFailure.Some? ==> resp == Failed(500, uploadFailure.value)
    ensures transcript.Err? || uploadFailure.Some? ==>
      && services.objects == old(services.objects)
      && services.journal == old(services.journal)
    ensures transcript.Ok? && uploadFailure.None? ==>
      var name := TranscriptionFileName(fileKey);
      && resp == Transcribed(CompletedMessage, name)
      && services.objects == old(services.objects)[name := transcript.value]
      && services.journal == old(services.journal) + [Cloud.Uploaded(name, transcript.value)]
    ensures services.transcriptions == old(services.transcriptions)
  {
    if transcript.Err? {
      return Failed(500, transcript.error);
    }
    var text := transcript.value;
    var transcriptionFileName := TranscriptionFileName(fileKey);
    if uploadFailure.Some? {
      return Failed(500, uploadFailure.value);
    }
    services.PutObject(transcriptionFileName, text);
    resp := Transcribed(CompletedMessage, transcriptionFileName);
  }
}
