# Social content: a model of the upload, transcription and flashcard logic

This project is a Dafny model of the sequential logic inside a Next.js
application. The application uploads audio and video files to object
storage, transcribes them with a speech-to-text service, keeps the
transcripts in a document database and generates titles for them. Most of
the application is glue around vendor SDKs. The model covers the state and
the derivations around those calls:

- `UploaderView` (the `FileUploader` component). A batch of added files is
  refused whole when its total size is over the batch limit. Otherwise only
  the files within the per-file limit join the queue, in order, and the
  error line says whether any file was dropped. The model also covers
  removal by position, the audio test, object keys, the initial progress
  map and the phases of an upload run.
- `FlashCardView` (the `FlashCardApp` component). A cursor stays on the
  deck. The model covers the reveal flag, the set of known positions, the
  language order and the progress share.
- `TranscriptionListView` and `FileListView` (the two list components). At
  most one entry is expanded, and there is a "copied" marker. The delete
  dialog's target is set and cleared, and delete filters by uuid. There
  are the fetch phases, the "transcribing" marker and the audio/video
  tests.
- `PromptsRoute` (`GET`/`PUT /api/prompts`). This is a map from prompt name
  to `{uuid, prompt}`, with lookup and upsert.
- `S3Listing` (`GET /api/aws/s3/list-s3-files`). There is one entry per
  listed object, named after the last `/` segment of its key.
- `TranscribeRoute` and `TranscribeAndSaveRoute`. The transcript file name
  is the key's text before its first `.`, followed by `_transcription.txt`.
  The title is the trimmed completion or a fallback. The document is saved
  before the text object is stored, and any failure thrown inside the
  handler's `try` is answered with 500.
- Shared modules:
  - `Text`: JavaScript's one-character `split`, `trim`, `startsWith` and
    ASCII case folding.
  - `MediaKind`: the extension tests.
  - `ModelRegistry`: per-connection model memoisation.
  - `Cloud`: the bucket, the saved documents and the order of writes, as
    plain state.
  - `Wrappers`: `Option` and `Result`.

Every external call becomes a parameter: a request's success or failure,
the transcript text, the completion text, a generated uuid, a timestamp, a
URL signer. React handlers are methods on a class that holds the
component's state. An `async` handler whose in-flight state the UI shows is
split at its `await` into a `Begin…` and an `End…` method.

A regular expression such as `/\.(mp3|wav|ogg|m4a)$/i` is modelled by
comparing under ASCII case folding. Without the `u` flag, JavaScript's
case-insensitive matching never maps a non-ASCII character onto an ASCII
one, so for these all-ASCII patterns the two agree.

A required string field of the document mapper rejects the empty string.
So a completion made only of whitespace trims to the title `""`. The save
then fails and the route answers 500, even though a default title exists
(`TranscribeAndSaveRoute.BlankTitleIsRejected`).

## Model

| member | source | states |
|---|---|---|
| `Text.Split` | app/api/aws/s3/list-s3-files/route.ts:48 | `split` on one character gives at least one segment, none containing the separator; exactly one segment, the whole string, when the separator does not occur |
| `Text.JoinSplit` | app/api/aws/s3/list-s3-files/route.ts:48 | joining the segments with the separator gives the original string back |
| `Text.SplitJoin` | app/api/aws/s3/list-s3-files/route.ts:48 | segments free of the separator come back unchanged from splitting their join |
| `Text.FirstSegment` | app/api/transcribe/route.ts:297 | `split(sep)[0]` is the prefix before the first separator: free of it, and either the whole string or followed by the separator |
| `Text.LastSegment` | app/api/aws/s3/list-s3-files/route.ts:48-49 | the last segment is the suffix after the last separator: free of it, and either the whole string or preceded by the separator |
| `Text.Trim` | app/api/transcribe-and-save/route.ts:63 | `trim` leaves a slice of its input with only trimmable characters cut from both ends, neither starting nor ending with one |
| `Text.TrimOfUnique` | app/api/transcribe-and-save/route.ts:63 | there is only one such slice, so that description fixes the trimmed string |
| `Text.TrimIsSlice` | app/api/transcribe-and-save/route.ts:63 | `trim` gives a slice of its input, with only trimmable characters cut from either end, that neither starts nor ends with one |
| `Text.TrimIdempotent` | app/api/transcribe-and-save/route.ts:63 | trimming twice equals trimming once |
| `Text.TrimShorter` | app/api/transcribe-and-save/route.ts:63 | trimming never lengthens the string |
| `Text.TrimEmptyIffBlank` | app/api/transcribe-and-save/route.ts:63 | `trim` gives "" exactly when every character is trimmable |
| `MediaKind.HasExtensionIff` | components/FileUploaderAutoTranscribe.tsx:97 | the alternation regex matches exactly when one alternative, after a dot, ends the name up to ASCII case |
| `MediaKind.HasExtensionConcat` | app/transcription/components/FileList.tsx:106-108 | passing either extension test is matching the joined list of alternatives |
| `MediaKind.HasExtensionIgnoresCase` | components/FileUploaderAutoTranscribe.tsx:97 | the `i` flag: the extension test gives the same answer on the lower-cased name |
| `MediaKind.AudioVideoExtensionsExclusive` | app/transcription/components/FileList.tsx:98-104 | no name has both an audio and a video extension |
| `UploaderView.TotalSize` | components/FileUploaderAutoTranscribe.tsx:68 | the batch total is at least each file's size, and it is 0 exactly when every file is empty |
| `UploaderView.TotalSizeConcat` | components/FileUploaderAutoTranscribe.tsx:68 | the size sum of a concatenation is the sum of the parts' sums |
| `UploaderView.WithinLimit` | components/FileUploaderAutoTranscribe.tsx:73 | the filter keeps exactly the files whose size is at most the limit, the boundary included |
| `UploaderView.WithinLimitConcat` | components/FileUploaderAutoTranscribe.tsx:73 | the filter keeps the files' order: filtering a concatenation concatenates the filtered parts |
| `UploaderView.WithinLimitKeepsAll` | components/FileUploaderAutoTranscribe.tsx:73-76 | the filtered batch is as long as the batch exactly when every file is within the limit, which is when no error is set |
| `UploaderView.WithoutIndex` | components/FileUploaderAutoTranscribe.tsx:80-82 | the position filter equals removing element `index` and keeping the rest in order; an out-of-range index leaves the queue as it was |
| `UploaderView.IsAudioFile` | components/FileUploaderAutoTranscribe.tsx:96-98 | a file counts as audio iff its MIME type starts with `audio/` or some audio extension ends its name, ignoring case |
| `UploaderView.ObjectKey` | components/FileUploaderAutoTranscribe.tsx:127 | the key is `uploads/`, then the session id, then `/`, then the file name |
| `UploaderView.ObjectKeyNamesFile` | components/FileUploaderAutoTranscribe.tsx:127 | an object key starts with `uploads/`, and the listing route recovers the file name from it when the name has no `/` |
| `UploaderView.Plan` | components/FileUploaderAutoTranscribe.tsx:125-152 | one upload task per queued file, in order, with key `uploads/<session>/<name>`; a transcription request follows exactly for audio files |
| `UploaderView.InitialProgress` | components/FileUploaderAutoTranscribe.tsx:119-122 | the initial progress map, built on a plain object, has exactly the queued names other than `__proto__` as keys, all at "0%"; files sharing a name share one entry |
| `UploaderView.FileUploader.constructor` | components/FileUploaderAutoTranscribe.tsx:22-30 | absent limits default to 250 MiB per file and 500 MiB per batch; the queue, progress and error line start empty |
| `UploaderView.FileUploader.HandleFiles` | components/FileUploaderAutoTranscribe.tsx:66-78 | a batch over the total limit is refused with that error, and queued files do not count toward the total; otherwise the files within the per-file limit are appended in order, and the error line is empty iff none was dropped |
| `UploaderView.FileUploader.HandleDeleteFile` | components/FileUploaderAutoTranscribe.tsx:80-82 | removes exactly the file at the index, and nothing else changes |
| `UploaderView.FileUploader.StartUpload` | components/FileUploaderAutoTranscribe.tsx:110-123 | an empty queue only sets the "select files" error; otherwise uploading is set, the error is cleared, progress is initialised (every queued name but `__proto__` at "0%") and the tasks are returned |
| `UploaderView.FileUploader.OnUploadProgress` | components/FileUploaderAutoTranscribe.tsx:134-140 | a progress report sets that name's entry to the reported percentage; when the name already has an entry the set of names stays the same; the queue, uploading flag and error line are unchanged |
| `UploaderView.FileUploader.OnUploadFailed` | components/FileUploaderAutoTranscribe.tsx:146-149 | a failed upload sets the error line naming the file and changes nothing else |
| `UploaderView.FileUploader.OnTranscribeFailed` | components/FileUploaderAutoTranscribe.tsx:104-107 | a failed transcription request sets the error line and changes nothing else |
| `UploaderView.FileUploader.FinishUpload` | components/FileUploaderAutoTranscribe.tsx:152-155 | after the run the queue is empty and uploading is false, whatever failed |
| `FlashCardView.BoundedPositions` | app/language/components/FlashCardApp.tsx:104 | a set of positions within the deck has at most as many elements as the deck has cards |
| `FlashCardView.FlashCardApp.constructor` | app/language/components/FlashCardApp.tsx:72-76 | the app starts on card 0, answer hidden, nothing known, Chinese first |
| `FlashCardView.FlashCardApp.KnownCount` | app/language/components/FlashCardApp.tsx:154 | the known count never exceeds the deck size |
| `FlashCardView.FlashCardApp.Progress` | app/language/components/FlashCardApp.tsx:138 | progress lies between 0 and 100, and it is 100 exactly when every card is known |
| `FlashCardView.FlashCardApp.ShuffleCards` | app/language/components/FlashCardApp.tsx:78-83 | shuffle resets to card 0, hides the answer and empties the known set; the deck keeps its order |
| `FlashCardView.FlashCardApp.HandleNextCard` | app/language/components/FlashCardApp.tsx:85-90 | moves forward and hides the answer, except on the last card, where nothing changes; the cursor stays in range |
| `FlashCardView.FlashCardApp.HandlePrevCard` | app/language/components/FlashCardApp.tsx:92-97 | moves back and hides the answer, except on card 0, where nothing changes |
| `FlashCardView.FlashCardApp.HandleReveal` | app/language/components/FlashCardApp.tsx:99-101 | shows the answer and changes nothing else, so repeating it changes nothing |
| `FlashCardView.FlashCardApp.HandleMarkKnown` | app/language/components/FlashCardApp.tsx:103-106 | adds the current position to the known set, growing the count only for a new position, then acts as next |
| `FlashCardView.FlashCardApp.ToggleMode` | app/language/components/FlashCardApp.tsx:108-111 | flips the language order and hides the answer; the cursor and known set stay |
| `TranscriptionListView.RemoveByUuid` | components/TranscriptionList.tsx:80 | the uuid filter never lengthens the list |
| `TranscriptionListView.RemoveByUuidMembers` | components/TranscriptionList.tsx:80 | exactly the entries with another uuid remain |
| `TranscriptionListView.RemoveByUuidConcat` | components/TranscriptionList.tsx:80 | the filter keeps order: filtering a concatenation concatenates the filtered parts |
| `TranscriptionListView.RemoveByUuidAbsent` | components/TranscriptionList.tsx:80 | a list without the uuid is left unchanged |
| `TranscriptionListView.RemoveByUuidIdempotent` | components/TranscriptionList.tsx:80 | deleting a uuid twice equals deleting it once |
| `TranscriptionListView.TranscriptionList.constructor` | components/TranscriptionList.tsx:28-34 | starts empty and loading, with no error, nothing expanded or copied, and the dialog closed |
| `TranscriptionListView.TranscriptionList.BeginFetch` | components/TranscriptionList.tsx:37-38 | a fetch first sets loading and changes nothing else |
| `TranscriptionListView.TranscriptionList.EndFetch` | components/TranscriptionList.tsx:39-46 | success replaces the list, failure sets the error and keeps the list; loading ends either way, and success does not clear an old error |
| `TranscriptionListView.TranscriptionList.ToggleExpand` | components/TranscriptionList.tsx:53-55 | toggling the expanded uuid collapses it; toggling another makes it the only expanded one |
| `TranscriptionListView.TranscriptionList.CopyToClipboard` | components/TranscriptionList.tsx:57-59 | marks exactly that uuid as copied |
| `TranscriptionListView.TranscriptionList.OpenDeleteModal` | components/TranscriptionList.tsx:65-68 | sets the dialog's target and opens it |
| `TranscriptionListView.TranscriptionList.CloseDeleteModal` | components/TranscriptionList.tsx:70-73 | closes the dialog and clears its target |
| `TranscriptionListView.TranscriptionList.HandleDelete` | components/TranscriptionList.tsx:75-85 | with no target, or when the request fails, nothing changes; on success entries with the target uuid are removed, the order is kept and the dialog closes |
| `FileListView.IsAudioFile` | app/transcription/components/FileList.tsx:98-100 | audio iff the content type starts with `audio/` or an audio extension ends the name, ignoring case |
| `FileListView.IsVideoFile` | app/transcription/components/FileList.tsx:102-104 | video iff the content type starts with `video/` or a video extension ends the name, ignoring case |
| `FileListView.CanTranscribe` | app/transcription/components/FileList.tsx:106-108 | a file offers transcription iff its content type starts with `audio/` or `video/`, or any audio or video extension ends its name, ignoring case |
| `FileListView.ClassifiedByExtension` | app/transcription/components/FileList.tsx:98-108 | without a content type only the extension decides; audio and video then exclude each other, and `canTranscribe` ignores ASCII case |
| `FileListView.FileList.constructor` | app/transcription/components/FileList.tsx:27-32 | starts empty and loading, with no error, no dialog and no transcription |
| `FileListView.FileList.BeginFetch` | app/transcription/components/FileList.tsx:38-39 | a fetch first sets loading |
| `FileListView.FileList.EndFetch` | app/transcription/components/FileList.tsx:40-49 | success replaces the list (an absent list becomes empty) and clears the error; failure sets it; loading ends either way |
| `FileListView.FileList.OpenDeleteModal` | app/transcription/components/FileList.tsx:61-64 | sets the target file and opens the dialog |
| `FileListView.FileList.CloseDeleteModal` | app/transcription/components/FileList.tsx:66-69 | closes the dialog and clears its target |
| `FileListView.FileList.HandleDelete` | app/transcription/components/FileList.tsx:72-83 | with no target nothing changes; a failed delete sets the error and leaves the dialog open; a successful one re-fetches, then closes the dialog |
| `FileListView.FileList.BeginTranscribe` | app/transcription/components/FileList.tsx:85-88 | while a request is in flight the marker is the file's key, and that file's button is disabled |
| `FileListView.FileList.EndTranscribe` | app/transcription/components/FileList.tsx:89-95 | the marker is cleared on success and on failure, and a failure sets the error |
| `PromptsRoute.Upsert` | app/api/prompts/route.ts:75-91 | PUT's store has the name's key and the new text; an existing record keeps its uuid, a new one gets the fresh uuid, and other names are untouched |
| `PromptsRoute.UpsertIdempotent` | app/api/prompts/route.ts:75-91 | putting the same prompt twice equals putting it once |
| `PromptsRoute.UpsertOverwrites` | app/api/prompts/route.ts:86-88 | of two puts to one name the last text wins, and the first uuid stays |
| `PromptsRoute.PromptStore.constructor` | app/api/prompts/route.ts:13-17 | the collection's records keyed by the unique prompt name |
| `PromptsRoute.PromptStore.Get` | app/api/prompts/route.ts:30-57 | a missing or empty name gets 400 without any lookup; a failure gets 500; an absent name gets 404; otherwise the stored text |
| `PromptsRoute.PromptStore.Put` | app/api/prompts/route.ts:60-98 | for a parsed body, a missing or empty field gets 400 and a failure inside the `try` 500, both leaving the store unchanged; otherwise the record is upserted and the new text returned |
| `PromptsRoute.PromptStore.PutThenGet` | app/api/prompts/route.ts:91-93 | a GET after a successful PUT returns the new text, and other names keep their records |
| `S3Listing.FileName` | app/api/aws/s3/list-s3-files/route.ts:48-49 | the name is the suffix after the key's last `/`: free of `/`, and either the whole key or preceded by `/` |
| `S3Listing.FileNameWithoutSlash` | app/api/aws/s3/list-s3-files/route.ts:48-49 | a key without `/` is its own name |
| `S3Listing.FileNameOfDirectoryKey` | app/api/aws/s3/list-s3-files/route.ts:48-49 | a key ending in `/` gives the name "" |
| `S3Listing.FileNameAfterSlash` | app/api/aws/s3/list-s3-files/route.ts:48-49 | the text after a final `/` is recovered whole, whatever comes before |
| `S3Listing.ToEntry` | app/api/aws/s3/list-s3-files/route.ts:50-56 | an entry keeps the object's key and size and the signed URL; its name is the key's last `/` segment, "" without a key; a missing time becomes "" |
| `S3Listing.Entries` | app/api/aws/s3/list-s3-files/route.ts:39-58 | one entry per listed object, in listing order, each built from that object and its signed URL |
| `S3Listing.ListFiles` | app/api/aws/s3/list-s3-files/route.ts:23-83 | any failure gives 500 with the "Error listing files: " prefix; an absent or empty listing gives filesFound=false and no files; otherwise the files are the entries of the listed objects in order, each copying the key and size, naming the file and putting "" for a missing time |
| `ModelRegistry.Register` | app/api/transcribe-and-save/route.ts:41-46 | asking for a model registers it only when absent and never replaces an existing registration |
| `ModelRegistry.RegisterIdempotent` | app/api/transcribe-and-save/route.ts:41-46 | asking twice registers once |
| `ModelRegistry.Connection.constructor` | app/api/transcribe-and-save/route.ts:41-46 | a new connection has no models |
| `ModelRegistry.Connection.GetModel` | app/api/transcribe-and-save/route.ts:41-46 | returns the existing model, or registers the schema and returns it |
| `Cloud.Services.constructor` | app/api/transcribe-and-save/route.ts:125-135 | the stores start with the given contents and no writes recorded |
| `Cloud.Services.SaveTranscription` | app/api/transcribe-and-save/route.ts:125 | saving appends the document, records the write and touches no object |
| `Cloud.Services.PutObject` | app/api/transcribe-and-save/route.ts:129-135 | storing sets the key's body, records the write and touches no document |
| `TranscribeRoute.TranscriptionFileName` | app/api/transcribe/route.ts:297 | the name ends in `_transcription.txt` after the key's text before its first `.`; a key without `.` is kept whole |
| `TranscribeRoute.SameStemSameFile` | app/api/transcribe/route.ts:297 | keys differing only after their first `.` share one transcription file |
| `TranscribeRoute.Post` | app/api/transcribe/route.ts:258-314 | on success the text is stored under the derived name, which the response returns; any failure thrown inside the `try` gives 500 with its message and stores nothing |
| `TranscribeAndSaveRoute.GenerateTitle` | app/api/transcribe-and-save/route.ts:63 | the title is the trimmed content (the unique slice of `Text.TrimOfUnique`); "Untitled Video" only when the content is absent; blank content gives "" |
| `TranscribeAndSaveRoute.BlankTitleIsRejected` | app/api/transcribe-and-save/route.ts:31-37 | a document whose title comes from blank content fails the required check on the schema's `title` field |
| `TranscribeAndSaveRoute.Post` | app/api/transcribe-and-save/route.ts:66-147 | steps run in order and the first failure inside the `try` gives 500 with its message; the model is registered once connected; the document (request key, transcript, title) is saved before the text upload; on success the response carries the saved uuid, the title and the derived name |

## Left out

- Floating point. `formatBytes` (`Math.floor`, `Math.log`, `Math.pow`,
  `toFixed`, `parseFloat`) and the upload percentages (`Math.round`) are
  not modelled. The uploader's error line is a `Notice` value that
  carries the limit in place of its formatted text. Flashcard progress is an
  exact `real`, not an IEEE double.
- Concurrency. The `Promise.all` fan-out of uploads and the parallel URL
  signing in the listing are not modelled. Each upload's callbacks are
  separate methods (`OnUploadProgress`, `OnUploadFailed`,
  `OnTranscribeFailed`) that may be called in any interleaving.
- React's batched and closure-captured state. Each handler is modelled as
  updating the current state in sequence, so stale closures over an older
  render are not captured.
- All vendor calls become parameters: presigned URLs, object PUT, list and
  delete, speech-to-text, chat completion, the document database's
  find/save, `uuidv4` and `Date`. The connection cache in
  lib/mongoDB/dbConnect_SocialContent.ts is part of the environment.
- `getPromptModel` in the prompt route is the same memoisation as
  `getTranscriptionModel`, which `ModelRegistry` models. `PromptStore.Get`
  and `PromptStore.Put` do not track that registration.
- The database's own error message for a rejected document is not
  modelled. A fixed `ValidationError` text stands in for it.
- Non-string JSON values for `promptName`, `prompt` or `fileKey` are not
  modelled. A missing `fileKey`, a speech-to-text reply without `text`, and
  a completion without choices are not modelled either. In the source each
  of these either throws (giving 500) or passes `undefined` along.
- Reading the request body. `POST /api/transcribe`,
  `POST /api/transcribe-and-save` and `PUT /api/prompts` parse the body
  before their `try` (app/api/transcribe/route.ts:259-260,
  app/api/transcribe-and-save/route.ts:67-68, app/api/prompts/route.ts:61-62).
  A body that is not JSON, or the JSON `null`, throws outside the handler's
  `catch`, and the framework answers a bare 500 with no error message; a
  `null` PUT body thus gets 500 rather than 400. The models start from the
  parsed fields and do not represent this path.
- TranscribeRoute.Post: an error reply that does not throw is not modelled
  as its own case. node-fetch does not reject on an error status, so a
  storage 403/404 body or an error reply from the speech-to-text service
  reaches the upload with `data.text` undefined. The route then answers
  200 and overwrites any transcript stored under the derived name. The
  model encodes that path as the transcript `Ok("")`.
- The flashcard deck data is not part of this model. The deck is a
  constructor parameter with at least one card.
- The effect of a file named `__proto__` on rendering. `InitialProgress`
  and `StartUpload` model that the plain-object map has no entry for it.
  The render at components/FileUploaderAutoTranscribe.tsx:231-233 then
  reads Object.prototype for that file, and that is not modelled.
- UI only: drag-and-drop listeners, `handleDownload`, the clipboard write,
  the 1.5-second reset of the copied marker, `alert`, and all rendering.
- `TranscriptionListView.TranscriptionList.CopyToClipboard` does not take
  the copied text, because the clipboard write is left out.
- The routes generate-video-info, delete-file, get-presigned-s3-url,
  get-transcriptions, delete-transcription and get-transcription-content are
  not part of this model. The remaining pages and components, and the
  commented-out earlier versions in each file, are not part of it either.
