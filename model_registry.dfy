/** The per-connection model registry behind `getTranscriptionModel` (and
    the identical `getPromptModel`): a model name is registered with its
    schema the first time it is asked for, and found afterwards. */
module ModelRegistry {

  /** A document schema, named by its required fields. */
  datatype Schema = Schema(requiredFields: seq<string>)

  /** The registry after asking for `name`: it is registered, and an
      existing registration is never replaced. */
  function Register(models: map<string, Schema>, name: string, schema: Schema): (r: map<string, Schema>)
    ensures name in r && r.Keys == models.Keys + {name}
    ensures name in models ==> r == models
    ensures name !in models ==> r[name] == schema
    ensures forall n :: n in models ==> r[n] == models[n]
  {
    if name in models then models else models[name := schema]
  }

  /** Asking twice registers once, whatever schema the second call brings. */
  lemma RegisterIdempotent(models: map<string, Schema>, name: string, s1: Schema, s2: Schema)
    ensures Register(Register(models, name, s1), name, s2) == Register(models, name, s1)
  {
  }

  /** A database connection's `models`. */
  class Connection {
    var models: map<string, Schema>

    constructor ()
      ensures models == map[]
    {
      models := map[];
    }

    /** `getTranscriptionModel`: the model already registered under
        `name`, or a new registration with `schema`. */
    method GetModel(name: string, schema: Schema) returns (model: Schema)
      modifies this
      ensures models == Register(old(models), name, schema)
      ensures model == models[name]
      ensures name in old(models) ==> model == old(models)[name]
    {
      if name in models {
        return models[name];
      }
      models := models[name := schema];
      model := schema;
    }
  }
}
