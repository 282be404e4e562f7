/**
 * The shared embedding model and the API-key check (app/dependencies.py).
 */
module Dependencies {
  import opened Wrappers
  import opened Errors
  import opened Store

  /** The constructed embedding model, described by the arguments it was built with. */
  datatype TextEmbedding = TextEmbedding(modelName: Option<string>, cacheDir: string, parallel: int)

  const NotInitialized := "SingletonTextEmbedding has not been initialized"

  /** Where the model's weights are cached. */
  const CacheDir := "/app/models"

  /**
   * SingletonTextEmbedding: one process-wide model, held in a class attribute.
   * It is set once by Initialize and read by GetInstance.
   */
  class SingletonTextEmbedding {
    var instance: Option<TextEmbedding>

    constructor ()
      ensures instance == None
    {
      instance := None;
    }

    /** get_instance: the stored model, or the exception raised before initialisation. */
    method GetInstance() returns (r: Result<TextEmbedding, string>)
      ensures instance.None? ==> r == Err(NotInitialized)
      ensures instance.Some? ==> r == Ok(instance.value)
    {
      if instance.None? {
        r := Err(NotInitialized);
      } else {
        r := Ok(instance.value);
      }
    }

    /**
     * initialize: builds the model for LOCAL_MODEL only when none is held; a
     * second call leaves the existing model in place. Loading the model can fail
     * (loadError), in which case nothing is stored and the failure propagates.
     */
    method Initialize(localModel: Option<string>, loadError: Option<string>) returns (r: Outcome<string>)
      modifies this
      ensures old(instance).Some? ==> instance == old(instance) && r == Pass
      ensures old(instance).None? && loadError.None? ==>
        instance == Some(TextEmbedding(localModel, CacheDir, 0)) && r == Pass
      ensures old(instance).None? && loadError.Some? ==> instance == None && r == Fail(loadError.value)
      ensures r == Pass <==> instance.Some?
    {
      if instance.None? {
        if loadError.Some? {
          r := Fail(loadError.value);
        } else {
          instance := Some(TextEmbedding(localModel, CacheDir, 0));
          r := Pass;
        }
      } else {
        r := Pass;
      }
    }
  }

  /** A successful Initialize is followed by a GetInstance that returns the stored model. */
  method InitializeThenGet(holder: SingletonTextEmbedding, localModel: Option<string>)
    returns (r: Result<TextEmbedding, string>)
    modifies holder
    ensures r.Ok?
    ensures old(holder.instance).Some? ==> r == Ok(old(holder.instance).value)
    ensures old(holder.instance).None? ==> r == Ok(TextEmbedding(localModel, CacheDir, 0))
  {
    var _ := holder.Initialize(localModel, None);
    r := holder.GetInstance();
  }

  /** The inference call model.embed, taken as given: the vector for a text, or the text of the exception it raised. */
  type Inference = (TextEmbedding, string) -> Result<Vector, string>

  /**
   * get_embeddings_model() followed by model.embed(text): fails with the
   * "not initialized" text when no model is held, else gives what inference gives.
   */
  function Embed(instance: Option<TextEmbedding>, infer: Inference, text: string): (r: Result<Vector, string>)
    ensures instance.None? ==> r == Err(NotInitialized)
    ensures instance.Some? ==> r == infer(instance.value, text)
  {
    if instance.None? then Err(NotInitialized) else infer(instance.value, text)
  }

  /** Obtaining the model and embedding one text, as every handler does. */
  method EmbedText(holder: SingletonTextEmbedding, infer: Inference, text: string) returns (r: Result<Vector, string>)
    ensures r == Embed(holder.instance, infer, text)
  {
    var model := holder.GetInstance();
    if model.Err? {
      r := Err(model.error);
    } else {
      r := infer(model.value, text);
    }
  }

  const ApiKeyDetail := "Invalid or missing API key"

  /** An API key is required when MEMORIES_API_KEY is set to a non-empty value. */
  predicate KeyRequired(configured: Option<string>)
  {
    configured.Some? && configured.value != ""
  }

  /**
   * get_api_key: with MEMORIES_API_KEY set, only the bearer credential equal to it
   * is accepted; otherwise every request is. An accepted request yields the
   * presented credential, or None when there was none.
   */
  function GetApiKey(configured: Option<string>, credentials: Option<string>): (r: Result<Option<string>, HttpError>)
    ensures r.Err? <==> KeyRequired(configured) && credentials != Some(configured.value)
    ensures r.Err? ==> r.error == HttpError(403, ApiKeyDetail)
    ensures r.Ok? ==> r.value == credentials
  {
    if KeyRequired(configured) && (credentials.None? || credentials.value != configured.value) then
      Err(HttpError(403, ApiKeyDetail))
    else
      Ok(credentials)
  }
}
