/**
 * The OpenAI-style embeddings endpoint (app/routes/embeddings.py): one vector
 * for the (flattened) input, wrapped in a list envelope with token usage, and a
 * process-wide count of embeddings in progress.
 */
module Embeddings {
  import opened Wrappers
  import opened Errors
  import opened Store
  import opened Text
  import opened Models
  import opened Dependencies

  datatype EmbeddingDatum = EmbeddingDatum(objectType: string, embedding: Vector, index: int)

  datatype Usage = Usage(promptTokens: int, totalTokens: int)

  /** The response body; `model` is LOCAL_MODEL as read from the environment (absent when unset). */
  datatype EmbeddingResponse = EmbeddingResponse(
    objectType: string, data: seq<EmbeddingDatum>, model: Option<string>, usage: Usage)

  const ErrorPrefix := "Error processing request: "

  /**
   * The envelope around one vector: a "list" with a single "embedding" datum at
   * index 0; prompt tokens are the whitespace-separated words of the input and
   * total tokens the length of the vector.
   */
  function BuildResponse(input: string, vector: Vector, localModel: Option<string>): (r: EmbeddingResponse)
    ensures r.objectType == "list" && r.model == localModel
    ensures |r.data| == 1 && r.data[0] == EmbeddingDatum("embedding", vector, 0)
    ensures r.usage.totalTokens == |vector| && r.usage.promptTokens == |Words(input)|
  {
    EmbeddingResponse("list", [EmbeddingDatum("embedding", vector, 0)], localModel,
                      Usage(|Words(input)|, |vector|))
  }

  /** The outcome of embedding_request, given the model held and the inference call. */
  function EmbeddingOutcome(input: string, localModel: Option<string>, instance: Option<TextEmbedding>, infer: Inference)
    : Result<EmbeddingResponse, HttpError>
  {
    match Embed(instance, infer, input)
    case Err(m) => Err(HttpError(500, ErrorPrefix + m))
    case Ok(v) => Ok(BuildResponse(input, v, localModel))
  }

  /**
   * A successful request answers with the vector inference gives for the input;
   * a failure, including a missing model, is a 500 with the prefixed message.
   */
  lemma EmbeddingOutcomeMeaning(input: string, localModel: Option<string>, instance: Option<TextEmbedding>, infer: Inference)
    ensures var r := EmbeddingOutcome(input, localModel, instance, infer);
      && (instance.None? ==> r == Err(HttpError(500, ErrorPrefix + NotInitialized)))
      && (instance.Some? ==>
            && (r.Ok? <==> infer(instance.value, input).Ok?)
            && (r.Ok? ==> r.value.data[0].embedding == infer(instance.value, input).value
                          && r.value.usage.totalTokens == |infer(instance.value, input).value|)
            && (r.Err? ==> r == Err(HttpError(500, ErrorPrefix + infer(instance.value, input).error))))
  {
  }

  /**
   * A request whose input was a list of single words reports one prompt token
   * per list item, although the list reaches the handler joined into one text.
   */
  lemma ListPromptTokens(items: seq<string>, vector: Vector, localModel: Option<string>)
    requires forall k :: 0 <= k < |items| ==> items[k] != [] && NoSpace(items[k])
    ensures BuildResponse(FlattenInput(List(items)), vector, localModel).usage.promptTokens == |items|
  {
    FlattenInputWords(items);
  }

  /**
   * For any input, prompt tokens count the maximal runs of non-whitespace
   * characters, which together hold every non-whitespace character of the input.
   */
  lemma PromptTokensCountWords(input: string, vector: Vector, localModel: Option<string>)
    ensures BuildResponse(input, vector, localModel).usage.promptTokens == CountStarts(input, 0)
    ensures Concat(Words(input)) == NonSpaceFrom(input, 0)
  {
    WordsMeaning(input);
  }

  /** The module's global current_embeddings, with the handler that counts itself in and out. */
  class EmbeddingsRoute {
    var currentEmbeddings: int

    constructor ()
      ensures currentEmbeddings == 0
    {
      currentEmbeddings := 0;
    }

    /**
     * embedding_request: the counter is one higher while the request is being
     * processed (inFlight is the value the handler reports) and back where it
     * was afterwards, whether the request succeeded or failed.
     */
    method EmbeddingRequest(params: EmbeddingParams, localModel: Option<string>, holder: SingletonTextEmbedding, infer: Inference)
      returns (r: Result<EmbeddingResponse, HttpError>, inFlight: int)
      modifies this
      ensures inFlight == old(currentEmbeddings) + 1
      ensures currentEmbeddings == old(currentEmbeddings)
      ensures r == EmbeddingOutcome(params.input, localModel, holder.instance, infer)
    {
      currentEmbeddings := currentEmbeddings + 1;
      inFlight := currentEmbeddings;
      var vector := EmbedText(holder, infer, params.input);
      if vector.Err? {
        r := Err(HttpError(500, ErrorPrefix + vector.error));
      } else {
        r := Ok(BuildResponse(params.input, vector.value, localModel));
      }
      // the finally block
      currentEmbeddings := currentEmbeddings - 1;
    }
  }
}
