/** The external stores the transcription routes write to, abstracted to
    their contents: the bucket's objects, the saved transcription
    documents, and the order in which writes happened. */
module Cloud {

  /** A transcription document as `transcribe-and-save` builds it. */
  datatype TranscriptionDoc = TranscriptionDoc(uuid: string, fileKey: string, transcription: string,
                                               title: string, createdAt: string)

  /** One write to an external store. */
  datatype Effect = Saved(doc: TranscriptionDoc) | Uploaded(key: string, body: string)

  class Services {
    var objects: map<string, string>
    var transcriptions: seq<TranscriptionDoc>
    var journal: seq<Effect>

    constructor (objects: map<string, string>, transcriptions: seq<TranscriptionDoc>)
      ensures this.objects == objects && this.transcriptions == transcriptions && journal == []
    {
      this.objects := objects;
      this.transcriptions := transcriptions;
      journal := [];
    }

    /** `transcriptionDoc.save()`. */
    method SaveTranscription(doc: TranscriptionDoc)
      modifies this
      ensures transcriptions == old(transcriptions) + [doc]
      ensures objects == old(objects) && journal == old(journal) + [Saved(doc)]
    {
      transcriptions := transcriptions + [doc];
      journal := journal + [Saved(doc)];
    }

    /** `PutObjectCommand`: stores `body` under `key`, replacing any object there. */
    method PutObject(key: string, body: string)
      modifies this
      ensures objects == old(objects)[key := body]
      ensures transcriptions == old(transcriptions) && journal == old(journal) + [Uploaded(key, body)]
    {
      objects := objects[key := body];
      journal := journal + [Uploaded(key, body)];
    }
  }
}
