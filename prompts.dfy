/** The prompt route (`GET` and `PUT /api/prompts`): a collection of
    prompts with a unique `promptName`, read by name and upserted by name. */
module PromptsRoute {
  import opened Wrappers

  /** A stored prompt document, keyed by its `promptName`. */
  datatype PromptRecord = PromptRecord(uuid: string, prompt: string)

  datatype Body = PromptBody(prompt: string) | ErrorBody(error: string)
  datatype Response = Response(status: int, body: Body)

  const NameRequired := "Prompt name is required"
  const NotFound := "Prompt not found"
  const BothRequired := "Prompt name and prompt are required"

  /** JavaScript truthiness of an optional string: present and non-empty. */
  predicate Truthy(v: Option<string>) {
    v.Some? && v.value != ""
  }

  /** The store after `PUT`: a new name gets a record with `freshUuid`; an
      existing one keeps its uuid and takes the new text; every other name
      keeps its record. */
  function Upsert(records: map<string, PromptRecord>, name: string, prompt: string, freshUuid: string)
    : (r: map<string, PromptRecord>)
    ensures r.Keys == records.Keys + {name}
    ensures r[name].prompt == prompt
    ensures r[name].uuid == if name in records then records[name].uuid else freshUuid
    ensures forall n :: n in records && n != name ==> r[n] == records[n]
  {
    if name in records then records[name := records[name].(prompt := prompt)]
    else records[name := PromptRecord(freshUuid, prompt)]
  }

  /** Putting the same prompt again changes nothing, whatever uuid would
      have been generated. */
  lemma UpsertIdempotent(records: map<string, PromptRecord>, name: string, prompt: string, uuid1: string, uuid2: string)
    ensures Upsert(Upsert(records, name, prompt, uuid1), name, prompt, uuid2) == Upsert(records, name, prompt, uuid1)
  {
  }

  /** The last of two puts to one name wins, and the uuid of the first stays. */
  lemma UpsertOverwrites(records: map<string, PromptRecord>, name: string, p1: string, p2: string, uuid1: string, uuid2: string)
    ensures Upsert(Upsert(records, name, p1, uuid1), name, p2, uuid2) == Upsert(records, name, p2, uuid1)
  {
    var once := Upsert(records, name, p1, uuid1);
    var twice := Upsert(once, name, p2, uuid2);
    var direct := Upsert(records, name, p2, uuid1);
    assert twice.Keys == direct.Keys;
    assert forall n :: n in twice ==> twice[n] == direct[n];
  }

  class PromptStore {
    var records: map<string, PromptRecord>

    constructor (records: map<string, PromptRecord>)
      ensures this.records == records
    {
      this.records := records;
    }

    /** `GET`, where `promptName` is the query parameter and `failure` the
        message of a failing database call. A missing or empty name is
        answered 400 before the store is touched; an absent record 404;
        otherwise the stored text. */
    method Get(promptName: Option<string>, failure: Option<string>) returns (resp: Response)
      ensures !Truthy(promptName) ==> resp == Response(400, ErrorBody(NameRequired))
      ensures Truthy(promptName) && failure.Some? ==> resp == Response(500, ErrorBody(failure.value))
      ensures Truthy(promptName) && failure.None? && promptName.value !in records ==>
        resp == Response(404, ErrorBody(NotFound))
      ensures Truthy(promptName) && failure.None? && promptName.value in records ==>
        resp == Response(200, PromptBody(records[promptName.value].prompt))
    {
      if !Truthy(promptName) {
        return Response(400, ErrorBody(NameRequired));
      }
      if failure.Some? {
        return Response(500, ErrorBody(failure.value));
      }
      var name := promptName.value;
      if name !in records {
        return Response(404, ErrorBody(NotFound));
      }
      resp := Response(200, PromptBody(records[name].prompt));
    }

    /** `PUT` with the parsed body's `promptName` and `prompt`, the uuid a
        new record would get, and the message of a failing database call. A
        missing or empty field is answered 400 and a failure 500, both
        leaving the store as it was; otherwise the record is upserted and
        its new text returned. */
    method Put(promptName: Option<string>, prompt: Option<string>, freshUuid: string, failure: Option<string>)
      returns (resp: Response)
      modifies this
      ensures !Truthy(promptName) || !Truthy(prompt) ==>
        resp == Response(400, ErrorBody(BothRequired)) && records == old(records)
      ensures Truthy(promptName) && Truthy(prompt) && failure.Some? ==>
        resp == Response(500, ErrorBody(failure.value)) && records == old(records)
      ensures Truthy(promptName) && Truthy(prompt) && failure.None? ==>
        && resp == Response(200, PromptBody(prompt.value))
        && records == Upsert(old(records), promptName.value, prompt.value, freshUuid)
    {
      if !Truthy(promptName) || !Truthy(prompt) {
        return Response(400, ErrorBody(BothRequired));
      }
      if failure.Some? {
        return Response(500, ErrorBody(failure.value));
      }
      var name, text := promptName.value, prompt.value;
      var updated: PromptRecord;
      if name !in records {
        updated := PromptRecord(freshUuid, text);
      } else {
        updated := records[name];
        updated := updated.(prompt := text);
      }
      records := records[name := updated];
      resp := Response(200, PromptBody(updated.prompt));
    }

    /** A successful `PUT` followed by a `GET` of the same name returns the
        text just stored, and leaves every other name's record as it was. */
    method PutThenGet(name: string, prompt: string, freshUuid: string) returns (resp: Response)
      requires name != "" && prompt != ""
      modifies this
      ensures resp == Response(200, PromptBody(prompt))
      ensures forall n :: n in old(records) && n != name ==> n in records && records[n] == old(records)[n]
    {
      var _ := Put(Some(name), Some(prompt), freshUuid, None);
      resp := Get(Some(name), None);
    }
  }
}
