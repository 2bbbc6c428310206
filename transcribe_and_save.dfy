/** The route that transcribes an uploaded object and records it
    (`POST /api/transcribe-and-save`): speech to text, a generated title,
    a saved transcription document, then the text stored beside the
    object. Every external call's outcome is part of the `Environment`. */
module TranscribeAndSaveRoute {
  import opened Wrappers
  import opened Text
  import Cloud
  import ModelRegistry
  import TranscribeRoute

  const ModelName := "Transcription"
  /** The schema's required fields. */
  const TranscriptionSchema := ModelRegistry.Schema(["uuid", "fileKey", "transcription", "title", "createdAt"])
  const DefaultTitle := "Untitled Video"
  const SavedMessage := "Transcription completed and saved successfully"
  /** The message a rejected required field produces; the exact wording of
      the document mapper's message is not modelled. */
  const ValidationError := "Transcription validation failed"

  /** `generateTitle` from the completion's first choice: its trimmed text
      (the one slice `TrimOfUnique` allows), or the default title only when
      the text is absent. Blank text gives the empty title. */
  function GenerateTitle(content: Option<string>): (title: string)
    ensures content.None? ==> title == DefaultTitle
    ensures content.Some? ==> IsTrimOf(content.value, title)
    ensures content.Some? ==> Trim(title) == title && |title| <= |content.value|
    ensures content.Some? ==>
      (title == "" <==> forall k :: 0 <= k < |content.value| ==> IsTrimmable(content.value[k]))
  {
    match content
    case None => DefaultTitle
    case Some(text) =>
      TrimIdempotent(text);
      TrimShorter(text);
      TrimEmptyIffBlank(text);
      Trim(text)
  }

  /** The value of a schema field in a document; `createdAt` is a date,
      never empty, so it stands for a present value. */
  function Field(doc: Cloud.TranscriptionDoc, name: string): string
    requires name in TranscriptionSchema.requiredFields
  {
    if name == "uuid" then doc.uuid
    else if name == "fileKey" then doc.fileKey
    else if name == "transcription" then doc.transcription
    else if name == "title" then doc.title
    else assert name == "createdAt"; "date"
  }

  /** Whether the document mapper accepts a document: every required
      field of the schema is non-empty, since a required string rejects "". */
  predicate Saveable(doc: Cloud.TranscriptionDoc) {
    forall i :: 0 <= i < |TranscriptionSchema.requiredFields| ==>
      Field(doc, TranscriptionSchema.requiredFields[i]) != ""
  }

  /** A blank completion yields a title the save rejects, so the route then
      fails after transcribing, although a title fallback exists. */
  lemma BlankTitleIsRejected(content: string, uuid: string, fileKey: string, text: string, createdAt: string)
    requires forall k :: 0 <= k < |content| ==> IsTrimmable(content[k])
    ensures !Saveable(Cloud.TranscriptionDoc(uuid, fileKey, text, GenerateTitle(Some(content)), createdAt))
  {
    var doc := Cloud.TranscriptionDoc(uuid, fileKey, text, GenerateTitle(Some(content)), createdAt);
    assert TranscriptionSchema.requiredFields[3] == "title";
    assert Field(doc, "title") == "";
  }

  /** The outcome of every external call the route makes, in order. */
  datatype Environment = Environment(
    transcript: Result<string, string>,          // signed URL, audio fetch and speech to text
    completion: Result<Option<string>, string>,  // the first choice's content
    connectFailure: Option<string>,              // opening the database connection
    newUuid: string,                             // `uuidv4()`
    createdAt: string,                           // `new Date()`
    saveFailure: Option<string>,                 // saving a valid document
    uploadFailure: Option<string>)               // storing the text object

  datatype Response =
    | SavedTranscription(message: string, uuid: string, title: string, transcriptionFile: string)
    | Failed(status: int, error: string)

  /** The route gets as far as the database: transcription, title and
      connection all succeeded. */
  predicate ReachesDatabase(env: Environment) {
    env.transcript.Ok? && env.completion.Ok? && env.connectFailure.None?
  }

  /** The document the route builds from the request key and the outcomes. */
  function DocFor(fileKey: string, env: Environment): Cloud.TranscriptionDoc
    requires env.transcript.Ok? && env.completion.Ok?
  {
    Cloud.TranscriptionDoc(env.newUuid, fileKey, env.transcript.value,
                           GenerateTitle(env.completion.value), env.createdAt)
  }

  /** The document is saved. */
  predicate Saves(fileKey: string, env: Environment) {
    ReachesDatabase(env) && Saveable(DocFor(fileKey, env)) && env.saveFailure.None?
  }

  /** `POST` with the parsed body's `fileKey`: each step runs only if the
      previous ones succeeded, and the first failure inside the `try` is
      answered 500 with its message. The model is
      registered once the connection is open. The document is saved
      before the text object is stored, so a failed upload still leaves
      the document saved. On success the response carries the saved
      uuid, the title and the derived file name. */
  method Post(services: Cloud.Services, conn: ModelRegistry.Connection, fileKey: string, env: Environment)
    returns (resp: Response)
    modifies services, conn
    ensures env.transcript.Err? ==> resp == Failed(500, env.transcript.error)
    ensures env.transcript.Ok? && env.completion.Err? ==> resp == Failed(500, env.completion.error)
    ensures env.transcript.Ok? && env.completion.Ok? && env.connectFailure.Some? ==>
      resp == Failed(500, env.connectFailure.value)
    ensures !ReachesDatabase(env) ==> conn.models == old(conn.models)
    ensures ReachesDatabase(env) ==>
      conn.models == ModelRegistry.Register(old(conn.models), ModelName, TranscriptionSchema)
    ensures ReachesDatabase(env) && !Saveable(DocFor(fileKey, env)) ==> resp == Failed(500, ValidationError)
    ensures ReachesDatabase(env) && Saveable(DocFor(fileKey, env)) && env.saveFailure.Some? ==>
      resp == Failed(500, env.saveFailure.value)
    ensures !Saves(fileKey, env) ==>
      && services.transcriptions == old(services.transcriptions)
      && services.objects == old(services.objects)
      && services.journal == old(services.journal)
    ensures Saves(fileKey, env) ==>
      var doc := DocFor(fileKey, env);
      var name := TranscribeRoute.TranscriptionFileName(fileKey);
      && services.transcriptions == old(services.transcriptions) + [doc]
      && (env.uploadFailure.Some? ==>
            && resp == Failed(500, env.uploadFailure.value)
            && services.objects == old(services.objects)
            && services.journal == old(services.journal) + [Cloud.Saved(doc)])
      && (env.uploadFailure.None? ==>
            && resp == SavedTranscription(SavedMessage, doc.uuid, doc.title, name)
            && services.objects == old(services.objects)[name := doc.transcription]
            && services.journal == old(services.journal) + [Cloud.Saved(doc), Cloud.Uploaded(name, doc.transcription)])
  {
    if env.transcript.Err? {
      return Failed(500, env.transcript.error);
    }
    var text := env.transcript.value;
    if env.completion.Err? {
      return Failed(500, env.completion.error);
    }
    var generatedTitle := GenerateTitle(env.completion.value);
    if env.connectFailure.Some? {
      return Failed(500, env.connectFailure.value);
    }
    var _ := conn.GetModel(ModelName, TranscriptionSchema);
    var transcriptionDoc := Cloud.TranscriptionDoc(env.newUuid, fileKey, text, generatedTitle, env.createdAt);
    if !Saveable(transcriptionDoc) {
      return Failed(500, ValidationError);
    }
    if env.saveFailure.Some? {
      return Failed(500, env.saveFailure.value);
    }
    services.SaveTranscription(transcriptionDoc);
    var transcriptionFileName := TranscribeRoute.TranscriptionFileName(fileKey);
    if env.uploadFailure.Some? {
      return Failed(500, env.uploadFailure.value);
    }
    services.PutObject(transcriptionFileName, text);
    resp := SavedTranscription(SavedMessage, transcriptionDoc.uuid, generatedTitle, transcriptionFileName);
  }
}
