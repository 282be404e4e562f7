/**
 * Saving and recalling memories (app/routes/memory.py): the payload a save
 * writes, the filter a recall builds from its optional parameters, and the
 * records a recall makes of the store's hits. Any failure inside either
 * handler is reported as HTTP 500.
 */
module Memory {
  import opened Wrappers
  import opened Errors
  import opened Store
  import opened Models
  import opened Dependencies

  /** A match clause of the store's filter language. */
  datatype Match = MatchValue(value: string) | MatchAny(any: seq<string>)

  /** A condition on one payload field. */
  datatype FieldCondition = FieldCondition(key: string, cond: Match)

  /** A filter whose conditions must all hold. */
  datatype Filter = Filter(must: seq<FieldCondition>)

  /** Python truthiness of an optional string: present and non-empty. */
  predicate Truthy(v: Option<string>)
  {
    v.Some? && v.value != ""
  }

  /** The condition an optional entity contributes: exact match on "entities". */
  function EntityCondition(entity: Option<string>): seq<FieldCondition>
  {
    if Truthy(entity) then [FieldCondition("entities", MatchValue(entity.value))] else []
  }

  /** The condition an optional sentiment contributes: any-of a one-element list on "sentiment". */
  function SentimentCondition(sentiment: Option<string>): seq<FieldCondition>
  {
    if Truthy(sentiment) then [FieldCondition("sentiment", MatchAny([sentiment.value]))] else []
  }

  /** The condition an optional tag contributes: any-of a one-element list on "tags". */
  function TagCondition(tag: Option<string>): seq<FieldCondition>
  {
    if Truthy(tag) then [FieldCondition("tags", MatchAny([tag.value]))] else []
  }

  /** The conditions of a recall, in the order entity, sentiment, tag. */
  function Conditions(entity: Option<string>, sentiment: Option<string>, tag: Option<string>): seq<FieldCondition>
  {
    EntityCondition(entity) + SentimentCondition(sentiment) + TagCondition(tag)
  }

  function Count(b: bool): nat { if b then 1 else 0 }

  /** The filter of recall_memory, built by appending one condition per parameter given. */
  method BuildFilter(entity: Option<string>, sentiment: Option<string>, tag: Option<string>) returns (f: Filter)
    ensures f.must == Conditions(entity, sentiment, tag)
  {
    var conditions: seq<FieldCondition> := [];
    if Truthy(entity) {
      conditions := conditions + [FieldCondition("entities", MatchValue(entity.value))];
    }
    if Truthy(sentiment) {
      conditions := conditions + [FieldCondition("sentiment", MatchAny([sentiment.value]))];
    }
    if Truthy(tag) {
      conditions := conditions + [FieldCondition("tags", MatchAny([tag.value]))];
    }
    f := Filter(conditions);
  }

  /**
   * One condition per parameter that is given and non-empty, in the order
   * entity, sentiment, tag; none given leaves the conjunction empty.
   */
  lemma ConditionsShape(entity: Option<string>, sentiment: Option<string>, tag: Option<string>)
    ensures var cs := Conditions(entity, sentiment, tag);
      && |cs| == Count(Truthy(entity)) + Count(Truthy(sentiment)) + Count(Truthy(tag))
      && (Truthy(entity) ==> cs[0] == FieldCondition("entities", MatchValue(entity.value)))
      && (Truthy(sentiment) ==>
            cs[Count(Truthy(entity))] == FieldCondition("sentiment", MatchAny([sentiment.value])))
      && (Truthy(tag) ==>
            cs[|cs| - 1] == FieldCondition("tags", MatchAny([tag.value])))
      && (!Truthy(entity) && !Truthy(sentiment) && !Truthy(tag) ==> cs == [])
  {
  }

  /** The strings a payload holds under a key: a string, the items of a list, or nothing. */
  function FieldValues(p: Payload, key: string): seq<string>
  {
    if key !in p then []
    else match p[key]
      case Text(s) => [s]
      case TextList(items) => items
      case Number(_) => []
  }

  /** The store's reading of a condition: some value under the key equals the value, or is one of the list. */
  predicate ConditionHolds(p: Payload, c: FieldCondition)
  {
    match c.cond
    case MatchValue(v) => v in FieldValues(p, c.key)
    case MatchAny(any) => exists x :: x in FieldValues(p, c.key) && x in any
  }

  /** A payload passes a filter when every one of its conditions holds. */
  predicate Matches(p: Payload, f: Filter)
  {
    forall i :: 0 <= i < |f.must| ==> ConditionHolds(p, f.must[i])
  }

  /** A filter made of two lists of conditions holds when both halves hold. */
  lemma MatchesAppend(p: Payload, a: seq<FieldCondition>, b: seq<FieldCondition>)
    ensures Matches(p, Filter(a + b)) <==> Matches(p, Filter(a)) && Matches(p, Filter(b))
  {
    if Matches(p, Filter(a + b)) {
      forall i | 0 <= i < |a| ensures ConditionHolds(p, a[i]) { assert a[i] == (a + b)[i]; }
      forall i | 0 <= i < |b| ensures ConditionHolds(p, b[i]) { assert b[i] == (a + b)[|a| + i]; }
    }
  }

  /** A filter of one condition holds when that condition does. */
  lemma MatchesSingle(p: Payload, c: FieldCondition)
    ensures Matches(p, Filter([c])) <==> ConditionHolds(p, c)
  {
    assert [c][0] == c;
  }

  /** An any-of condition on a one-element list holds exactly when the field holds that value. */
  lemma MatchAnySingle(p: Payload, key: string, v: string)
    ensures ConditionHolds(p, FieldCondition(key, MatchAny([v]))) <==> v in FieldValues(p, key)
  {
  }

  /**
   * What a recall filter means: a stored payload passes it exactly when it holds
   * the given entity among its entities, has the given sentiment and holds the
   * given tag among its tags; a parameter not given constrains nothing.
   */
  lemma FilterMeaning(p: Payload, entity: Option<string>, sentiment: Option<string>, tag: Option<string>)
    ensures Matches(p, Filter(Conditions(entity, sentiment, tag))) <==>
      && (Truthy(entity) ==> entity.value in FieldValues(p, "entities"))
      && (Truthy(sentiment) ==> sentiment.value in FieldValues(p, "sentiment"))
      && (Truthy(tag) ==> tag.value in FieldValues(p, "tags"))
  {
    var e, s, t := EntityCondition(entity), SentimentCondition(sentiment), TagCondition(tag);
    MatchesAppend(p, e + s, t);
    MatchesAppend(p, e, s);
    if Truthy(entity) {
      MatchesSingle(p, e[0]);
    }
    if Truthy(sentiment) {
      MatchesSingle(p, s[0]);
      MatchAnySingle(p, "sentiment", sentiment.value);
    }
    if Truthy(tag) {
      MatchesSingle(p, t[0]);
      MatchAnySingle(p, "tags", tag.value);
    }
  }

  /** With no entity, sentiment or tag every payload passes. */
  lemma EmptyFilterMatchesAll(p: Payload)
    ensures Matches(p, Filter(Conditions(None, None, None)))
  {
  }

  /** The keys of a saved payload, which a recall reads back. */
  const RecordKeys: set<string> := {"memory", "timestamp", "sentiment", "entities", "tags"}

  /** The payload save_memory writes: exactly the five keys, taken from the parameters and the timestamp. */
  function SavedPayload(params: SaveParams, timestamp: string): (p: Payload)
    ensures p.Keys == RecordKeys
  {
    map[
      "memory" := Text(params.memory),
      "timestamp" := Text(timestamp),
      "sentiment" := Text(params.sentiment),
      "entities" := TextList(params.entities),
      "tags" := TextList(params.tags)]
  }

  const SaveMessage := "Memory saved successfully"
  const SaveErrorPrefix := "Error processing request: "

  /**
   * save_memory: embed the memory text, then upsert one point under the fresh id
   * with the five-key payload. The reply carries only a message; every failure,
   * from the model or the store, becomes a 500 whose detail is prefixed.
   */
  method SaveMemory(params: SaveParams, holder: SingletonTextEmbedding, infer: Inference,
                    store: VectorStore, uniqueId: string, timestamp: string)
    returns (r: Result<string, HttpError>)
    modifies store
    ensures var e := Embed(holder.instance, infer, params.memory);
      && (e.Err? ==> r == Err(HttpError(500, SaveErrorPrefix + e.error)) && store.collections == old(store.collections))
      && (e.Ok? ==>
            var bank := params.memoryBank;
            var ok := bank in old(store.collections) && |e.value| == old(store.collections)[bank].size;
            && (ok <==> r.Ok?)
            && (r.Ok? ==> r.value == SaveMessage)
            && (bank !in old(store.collections) ==>
                  r == Err(HttpError(500, SaveErrorPrefix + Message(NotFound(bank)))))
            && (bank in old(store.collections) && !ok ==>
                  r == Err(HttpError(500, SaveErrorPrefix +
                    Message(WrongDimension(old(store.collections)[bank].size, |e.value|)))))
            && (ok ==>
                  var c := old(store.collections)[bank];
                  var pt := Point(e.value, SavedPayload(params, timestamp));
                  store.collections == old(store.collections)[bank := c.(points := c.points[uniqueId := pt])])
            && (!ok ==> store.collections == old(store.collections)))
  {
    var vector := EmbedText(holder, infer, params.memory);
    if vector.Err? {
      return Err(HttpError(500, SaveErrorPrefix + vector.error));
    }
    var point := Point(vector.value, SavedPayload(params, timestamp));
    var upserted := store.Upsert(params.memoryBank, uniqueId, point);
    if upserted.Fail? {
      return Err(HttpError(500, SaveErrorPrefix + Message(upserted.error)));
    }
    r := Ok(SaveMessage);
  }

  /** A scored point as the search returns it. */
  datatype Hit = Hit(id: string, score: real, payload: Payload)

  /** One entry of recall_memory's results. */
  datatype MemoryRecord = MemoryRecord(
    id: string, memory: Value, timestamp: Value, sentiment: Value,
    entities: Value, tags: Value, score: real)

  /** The text of the KeyError raised when a payload lacks a key: the key in quotes. */
  function KeyErrorText(key: string): string
  {
    "'" + key + "'"
  }

  /** The result entry for one hit; a payload missing one of the five keys raises KeyError. */
  function FormatHit(h: Hit): (r: Result<MemoryRecord, string>)
    ensures r.Ok? <==> RecordKeys <= h.payload.Keys
    ensures r.Ok? ==>
      && r.value.id == h.id && r.value.score == h.score
      && r.value.memory == h.payload["memory"]
      && r.value.timestamp == h.payload["timestamp"]
      && r.value.sentiment == h.payload["sentiment"]
      && r.value.entities == h.payload["entities"]
      && r.value.tags == h.payload["tags"]
    ensures r.Err? ==> exists k :: k in RecordKeys && k !in h.payload && r.error == KeyErrorText(k)
  {
    var p := h.payload;
    if "memory" !in p then Err(KeyErrorText("memory"))
    else if "timestamp" !in p then Err(KeyErrorText("timestamp"))
    else if "sentiment" !in p then Err(KeyErrorText("sentiment"))
    else if "entities" !in p then Err(KeyErrorText("entities"))
    else if "tags" !in p then Err(KeyErrorText("tags"))
    else Ok(MemoryRecord(h.id, p["memory"], p["timestamp"], p["sentiment"], p["entities"], p["tags"], h.score))
  }

  /**
   * The comprehension over the hits: one entry per hit, in the hits' order, or
   * the KeyError of the first hit whose payload lacks a key.
   */
  function FormatHits(hits: seq<Hit>): (r: Result<seq<MemoryRecord>, string>)
    ensures r.Ok? <==> forall i :: 0 <= i < |hits| ==> FormatHit(hits[i]).Ok?
    ensures r.Ok? ==> |r.value| == |hits| && forall i :: 0 <= i < |hits| ==> Ok(r.value[i]) == FormatHit(hits[i])
    ensures r.Err? ==> exists i :: 0 <= i < |hits| && FormatHit(hits[i]) == Err(r.error)
  {
    if hits == [] then Ok([])
    else
      match FormatHit(hits[0])
      case Err(k) => Err(k)
      case Ok(first) =>
        match FormatHits(hits[1..])
        case Err(k) => Err(k)
        case Ok(rest) => Ok([first] + rest)
  }

  /** A point saved by save_memory comes back from a recall with the values it was saved with. */
  lemma SavedPointRecalled(params: SaveParams, timestamp: string, id: string, score: real)
    ensures FormatHit(Hit(id, score, SavedPayload(params, timestamp))) ==
      Ok(MemoryRecord(id, Text(params.memory), Text(timestamp), Text(params.sentiment),
                      TextList(params.entities), TextList(params.tags), score))
  {
  }

  /** A saved memory passes the recall filter built from any of its own entities, its sentiment and any of its tags. */
  lemma SavedPointMatchesOwnFilter(params: SaveParams, timestamp: string, i: nat, j: nat)
    requires i < |params.entities| && j < |params.tags|
    ensures Matches(SavedPayload(params, timestamp),
                    Filter(Conditions(Some(params.entities[i]), Some(params.sentiment), Some(params.tags[j]))))
  {
    FilterMeaning(SavedPayload(params, timestamp), Some(params.entities[i]), Some(params.sentiment), Some(params.tags[j]));
  }

  /** What recall_memory asks of the store. */
  datatype SearchRequest = SearchRequest(collection: string, vector: Vector, filter: Filter, limit: int)

  /** The store's similarity search, taken as given: hits for a request, or a failure. */
  type Search = SearchRequest -> Result<seq<Hit>, StoreError>

  /** The search request of a recall: the bank, the query vector, the filter and top_k as the limit. */
  function RecallRequest(params: SearchParams, vector: Vector): (q: SearchRequest)
    ensures q.collection == params.memoryBank && q.vector == vector && q.limit == params.topK
    ensures q.filter.must == Conditions(params.entity, params.sentiment, params.tag)
  {
    SearchRequest(params.memoryBank, vector, Filter(Conditions(params.entity, params.sentiment, params.tag)), params.topK)
  }

  /** The outcome of recall_memory, given the model held and the store's search. */
  function RecallOutcome(params: SearchParams, instance: Option<TextEmbedding>, infer: Inference, search: Search)
    : Result<seq<MemoryRecord>, HttpError>
  {
    match Embed(instance, infer, params.query)
    case Err(m) => Err(HttpError(500, m))
    case Ok(v) =>
      match search(RecallRequest(params, v))
      case Err(e) => Err(HttpError(500, Message(e)))
      case Ok(hits) =>
        match FormatHits(hits)
        case Err(k) => Err(HttpError(500, k))
        case Ok(records) => Ok(records)
  }

  /**
   * recall_memory: embed the query, build the filter, search the bank with
   * top_k as the limit, and format the hits; any failure is a 500 carrying str(e).
   */
  method RecallMemory(params: SearchParams, holder: SingletonTextEmbedding, infer: Inference, search: Search)
    returns (r: Result<seq<MemoryRecord>, HttpError>)
    ensures r == RecallOutcome(params, holder.instance, infer, search)
  {
    var vector := EmbedText(holder, infer, params.query);
    if vector.Err? {
      return Err(HttpError(500, vector.error));
    }
    var filter := BuildFilter(params.entity, params.sentiment, params.tag);
    var hits := search(SearchRequest(params.memoryBank, vector.value, filter, params.topK));
    if hits.Err? {
      return Err(HttpError(500, Message(hits.error)));
    }
    var records := FormatHits(hits.value);
    if records.Err? {
      return Err(HttpError(500, records.error));
    }
    r := Ok(records.value);
  }

  /** Every failure of a recall is reported as HTTP 500. */
  lemma RecallFailuresAre500(params: SearchParams, instance: Option<TextEmbedding>, infer: Inference, search: Search)
    ensures RecallOutcome(params, instance, infer, search).Err? ==>
      RecallOutcome(params, instance, infer, search).error.status == 500
  {
  }

  /**
   * A successful recall returns one record per hit of the search it issued, in
   * the same order, each copying the hit's id, score and payload values.
   */
  lemma RecallKeepsHits(params: SearchParams, instance: Option<TextEmbedding>, infer: Inference, search: Search)
    requires RecallOutcome(params, instance, infer, search).Ok?
    ensures var v := Embed(instance, infer, params.query);
      && v.Ok? && search(RecallRequest(params, v.value)).Ok?
      && var hits := search(RecallRequest(params, v.value)).value;
      var records := RecallOutcome(params, instance, infer, search).value;
      && |records| == |hits|
      && forall i :: 0 <= i < |hits| ==>
           records[i].id == hits[i].id && records[i].score == hits[i].score &&
           records[i].memory == hits[i].payload["memory"] &&
           records[i].entities == hits[i].payload["entities"] &&
           records[i].tags == hits[i].payload["tags"]
  {
  }

  /** The store's search returns only points that pass the request's filter, at most limit of them. */
  ghost predicate SearchHonoursRequest(search: Search)
  {
    forall q: SearchRequest :: search(q).Ok? ==>
      |search(q).value| <= q.limit &&
      forall i :: 0 <= i < |search(q).value| ==> Matches(search(q).value[i].payload, q.filter)
  }

  /**
   * When the store honours the filter and the limit, a recall returns at most
   * top_k records, and each one holds the requested entity and tag and has the
   * requested sentiment.
   */
  lemma RecallRespectsFilter(params: SearchParams, instance: Option<TextEmbedding>, infer: Inference, search: Search)
    requires SearchHonoursRequest(search)
    requires RecallOutcome(params, instance, infer, search).Ok?
    ensures var records := RecallOutcome(params, instance, infer, search).value;
      && |records| <= params.topK
      && forall i :: 0 <= i < |records| ==>
           && (Truthy(params.entity) ==> records[i].entities.TextList? ==> params.entity.value in records[i].entities.items)
           && (Truthy(params.tag) ==> records[i].tags.TextList? ==> params.tag.value in records[i].tags.items)
           && (Truthy(params.sentiment) ==> records[i].sentiment.Text? ==> records[i].sentiment.s == params.sentiment.value)
  {
    var v := Embed(instance, infer, params.query).value;
    var q := RecallRequest(params, v);
    var hits := search(q).value;
    var records := RecallOutcome(params, instance, infer, search).value;
    forall i | 0 <= i < |records|
      ensures && (Truthy(params.entity) ==> records[i].entities.TextList? ==> params.entity.value in records[i].entities.items)
              && (Truthy(params.tag) ==> records[i].tags.TextList? ==> params.tag.value in records[i].tags.items)
              && (Truthy(params.sentiment) ==> records[i].sentiment.Text? ==> records[i].sentiment.s == params.sentiment.value)
    {
      assert Ok(records[i]) == FormatHit(hits[i]);
      assert Matches(hits[i].payload, q.filter);
      FilterMeaning(hits[i].payload, params.entity, params.sentiment, params.tag);
    }
  }
}
