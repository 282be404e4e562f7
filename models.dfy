/**
 * The request models and their validators (app/models.py). Each validator is a
 * function from the supplied value to either the accepted value or the text of
 * the ValueError it raises.
 */
module Models {
  import opened Wrappers
  import opened Text

  /** A field value as it arrives, before a pre-validator has run: a string or a list of strings. */
  datatype StrOrList = Str(s: string) | List(items: seq<string>)

  /** No string of ps holds the character c. */
  predicate NoneContains(ps: seq<string>, c: char)
  {
    forall i :: 0 <= i < |ps| ==> c !in ps[i]
  }

  /** Every string of ps is non-empty, has no surrounding whitespace and holds no comma. */
  predicate CleanItems(ps: seq<string>)
  {
    forall i :: 0 <= i < |ps| ==> ps[i] != [] && IsStripped(ps[i]) && ',' !in ps[i]
  }

  /** The list comprehension [p.strip() for p in pieces if p.strip()]. */
  function StrippedNonBlank(pieces: seq<string>): (r: seq<string>)
    ensures |r| <= |pieces|
    ensures forall i :: 0 <= i < |r| ==> r[i] != [] && IsStripped(r[i])
    ensures forall c :: NoneContains(pieces, c) ==> NoneContains(r, c)
  {
    if pieces == [] then []
    else
      var t := Strip(pieces[0]);
      var rest := StrippedNonBlank(pieces[1..]);
      StripKeepsOut(pieces[0]);
      assert forall c :: NoneContains(pieces, c) ==> NoneContains(pieces[1..], c) && c !in pieces[0];
      if t != [] then [t] + rest else rest
  }

  /** Strip only removes characters. */
  lemma StripKeepsOut(p: string)
    ensures forall c :: c !in p ==> c !in Strip(p)
  {
  }

  /** The splitting rule shared by tags and entities: comma-separated pieces, stripped, blanks dropped. */
  function SplitCommaList(v: StrOrList): (r: seq<string>)
    ensures v.List? ==> r == v.items
    ensures v.Str? ==> CleanItems(r)
  {
    match v
    case Str(s) =>
      var pieces := SplitOn(s, ',');
      assert NoneContains(pieces, ',');
      StrippedNonBlank(pieces)
    case List(items) => items
  }

  /** SaveParams.split_tags: a string of comma-separated tags becomes the list of its non-blank, stripped pieces. */
  function SplitTags(v: StrOrList): (r: seq<string>)
    ensures v.List? ==> r == v.items
    ensures v.Str? ==> CleanItems(r)
  {
    SplitCommaList(v)
  }

  /** SaveParams.split_entities: the same rule as tags; an entity may hold inner spaces. */
  function SplitEntities(v: StrOrList): (r: seq<string>)
    ensures v.List? ==> r == v.items
    ensures v.Str? ==> CleanItems(r)
  {
    SplitCommaList(v)
  }

  /** Strip leaves a non-empty string without surrounding whitespace as it is. */
  lemma StripStripped(p: string)
    requires p != [] && IsStripped(p)
    ensures Strip(p) == p
  {
  }

  /** The comprehension keeps a list that is already clean as it is. */
  lemma {:induction false} StrippedNonBlankClean(ps: seq<string>)
    requires forall i :: 0 <= i < |ps| ==> ps[i] != [] && IsStripped(ps[i])
    ensures StrippedNonBlank(ps) == ps
    decreases |ps|
  {
    if ps != [] {
      StripStripped(ps[0]);
      StrippedNonBlankClean(ps[1..]);
      assert [ps[0]] + ps[1..] == ps;
    }
  }

  /**
   * x is in the result exactly when it is the non-empty strip of one of the pieces:
   * nothing non-blank is lost and nothing is invented.
   */
  lemma {:induction false} StrippedNonBlankMembers(pieces: seq<string>, x: string)
    ensures x in StrippedNonBlank(pieces) <==>
      x != [] && exists j :: 0 <= j < |pieces| && Strip(pieces[j]) == x
    decreases |pieces|
  {
    if pieces != [] {
      StrippedNonBlankMembers(pieces[1..], x);
      if x != [] && Strip(pieces[0]) != x && (exists j :: 0 <= j < |pieces| && Strip(pieces[j]) == x) {
        var j :| 0 <= j < |pieces| && Strip(pieces[j]) == x;
        assert pieces[1..][j - 1] == pieces[j];
      }
      if x in StrippedNonBlank(pieces[1..]) {
        var j :| 0 <= j < |pieces[1..]| && Strip(pieces[1..][j]) == x;
        assert Strip(pieces[j + 1]) == x;
      }
    }
  }

  /**
   * Joining a clean list with commas and splitting it again gives the list back.
   * In particular splitting is idempotent, and an entity such as "New York" keeps its inner space.
   */
  lemma SplitCommaListJoin(items: seq<string>)
    requires CleanItems(items)
    ensures SplitTags(Str(Join(items, ','))) == items
    ensures SplitEntities(Str(Join(items, ','))) == items
  {
    if items == [] {
      assert SplitOn("", ',') == [""];
      assert Strip("") == "";
    } else {
      SplitOnJoin(items, ',');
      StrippedNonBlankClean(items);
    }
  }

  /** Splitting the comma-joined result of a split gives the same list again. */
  lemma SplitTagsIdempotent(s: string)
    ensures SplitTags(Str(Join(SplitTags(Str(s)), ','))) == SplitTags(Str(s))
  {
    SplitCommaListJoin(SplitTags(Str(s)));
  }

  const SentimentError := "Sentiment must be one of: positive, neutral, negative"

  /** validate_sentiment (SaveParams and SearchParams): the closed set of sentiments. */
  function ValidateSentiment(v: string): (r: Result<string, string>)
    ensures r.Ok? <==> v == "positive" || v == "neutral" || v == "negative"
    ensures r.Ok? ==> r.value == v
    ensures r.Err? ==> r.error == SentimentError
  {
    if v in ["positive", "neutral", "negative"] then Ok(v) else Err(SentimentError)
  }

  /** The number of results a search returns when the caller gives none. */
  const DefaultTopK := 5

  const TopKError := "top_k must be a positive integer"

  /** SearchParams.validate_top_k: top_k must be at least 1. */
  function ValidateTopK(v: int): (r: Result<int, string>)
    ensures r.Ok? <==> v >= 1
    ensures r.Ok? ==> r.value == v
    ensures r.Err? ==> r.error == TopKError
  {
    if v < 1 then Err(TopKError) else Ok(v)
  }

  const TagError := "Tag must be a single word"

  /** SearchParams.validate_tag: a tag holding an ASCII space is refused; None and "" pass. */
  function ValidateTag(v: Option<string>): (r: Result<Option<string>, string>)
    ensures r.Err? <==> v.Some? && v.value != "" && ' ' in v.value
    ensures r.Ok? ==> r.value == v
    ensures r.Err? ==> r.error == TagError
  {
    if v.Some? && v.value != "" && ' ' in v.value then Err(TagError) else Ok(v)
  }

  const ActionError := "Action must be one of: create, delete, forget"

  /** ManageMemoryParams.validate_action: the closed set of management actions. */
  function ValidateAction(v: string): (r: Result<string, string>)
    ensures r.Ok? <==> v == "create" || v == "delete" || v == "forget"
    ensures r.Ok? ==> r.value == v
    ensures r.Err? ==> r.error == ActionError
  {
    if v in ["create", "delete", "forget"] then Ok(v) else Err(ActionError)
  }

  const PointError := "point must be either \"ping\" or \"app.moderation.input\""

  /** ModerationRequest.validate_point: the two moderation points the phone tap understands. */
  function ValidatePoint(v: string): (r: Result<string, string>)
    ensures r.Ok? <==> v == "ping" || v == "app.moderation.input"
    ensures r.Ok? ==> r.value == v
    ensures r.Err? ==> r.error == PointError
  {
    if v in {"ping", "app.moderation.input"} then Ok(v) else Err(PointError)
  }

  /** EmbeddingParams.flatten_input: a list of texts becomes one text, joined with single spaces. */
  function FlattenInput(v: StrOrList): (r: string)
    ensures v.Str? ==> r == v.s
    ensures v.List? && |v.items| == 1 ==> r == v.items[0]
  {
    match v
    case Str(s) => s
    case List(items) => Join(items, ' ')
  }

  /**
   * Flattening loses nothing: when no item holds a space, splitting the
   * flattened text on single spaces gives the items back.
   */
  lemma FlattenInputSplit(items: seq<string>)
    requires |items| >= 1 && NoneContains(items, ' ')
    ensures SplitOn(FlattenInput(List(items)), ' ') == items
  {
    SplitOnJoin(items, ' ');
  }

  /** Every whitespace-free word of a flattened list is one word of the text: split() counts them back. */
  lemma FlattenInputWords(items: seq<string>)
    requires forall k :: 0 <= k < |items| ==> items[k] != [] && NoSpace(items[k])
    ensures Words(FlattenInput(List(items))) == items
  {
    WordsOfJoin(items);
  }

  const ModelError := "Model does not match the environment variable LOCAL_MODEL"

  /** EmbeddingParams.validate_model: the requested model must be the configured LOCAL_MODEL. */
  function ValidateModel(value: string, localModel: Option<string>): (r: Result<string, string>)
    ensures r.Ok? <==> localModel == Some(value)
    ensures r.Ok? ==> r.value == value
    ensures r.Err? ==> r.error == ModelError
  {
    if localModel != Some(value) then Err(ModelError) else Ok(value)
  }

  /** SaveParams after validation. */
  datatype SaveParams = SaveParams(
    memoryBank: string, memory: string, sentiment: string, entities: seq<string>, tags: seq<string>)

  /** SearchParams after validation. */
  datatype SearchParams = SearchParams(
    memoryBank: string, query: string, topK: int,
    entity: Option<string>, tag: Option<string>, sentiment: Option<string>)

  /** EmbeddingParams after validation: the flattened input and the model name (user and encoding_format are never read). */
  datatype EmbeddingParams = EmbeddingParams(input: string, model: Option<string>)

  /** ManageMemoryParams after validation. */
  datatype ManageMemoryParams = ManageMemoryParams(memoryBank: string, action: string, uuid: Option<string>)

  /**
   * Building SaveParams: the pre-validators split tags and entities, and the
   * sentiment must be one of the three choices; that is the only way it fails.
   */
  function NewSaveParams(memoryBank: string, memory: string, sentiment: string,
                         entities: StrOrList, tags: StrOrList): (r: Result<SaveParams, seq<string>>)
    ensures r.Ok? <==> ValidateSentiment(sentiment).Ok?
    ensures r.Err? ==> r.error == [SentimentError]
    ensures r.Ok? ==> r.value.sentiment in {"positive", "neutral", "negative"}
    ensures r.Ok? ==> r.value.entities == SplitEntities(entities) && r.value.tags == SplitTags(tags)
    ensures r.Ok? ==> r.value.memoryBank == memoryBank && r.value.memory == memory
  {
    match ValidateSentiment(sentiment)
    case Err(e) => Err([e])
    case Ok(s) => Ok(SaveParams(memoryBank, memory, s, SplitEntities(entities), SplitTags(tags)))
  }

  /**
   * Building SearchParams: top_k defaults to 5; the validators run on the
   * values supplied (a field left out is not validated), and every failing
   * field contributes its message, in field order.
   */
  function NewSearchParams(memoryBank: string, query: string, topK: Option<int>,
                           entity: Option<string>, tag: Option<string>,
                           sentiment: Option<string>): (r: Result<SearchParams, seq<string>>)
    ensures r.Ok? <==>
      && (topK.Some? ==> topK.value >= 1)
      && (tag.Some? ==> tag.value == "" || ' ' !in tag.value)
      && (sentiment.Some? ==> sentiment.value in {"positive", "neutral", "negative"})
    ensures r.Ok? ==> r.value.topK >= 1
    ensures r.Ok? ==> r.value.topK == (if topK.Some? then topK.value else DefaultTopK)
    ensures r.Ok? ==> r.value == SearchParams(memoryBank, query, r.value.topK, entity, tag, sentiment)
    ensures r.Err? ==> (r.error ==
      (if topK.Some? && topK.value < 1 then [TopKError] else []) +
      (if tag.Some? && tag.value != "" && ' ' in tag.value then [TagError] else []) +
      (if sentiment.Some? && sentiment.value !in {"positive", "neutral", "negative"} then [SentimentError] else []))
  {
    var k := if topK.Some? then topK.value else DefaultTopK;
    var kErr := if topK.Some? && ValidateTopK(k).Err? then [TopKError] else [];
    var tErr := if ValidateTag(tag).Err? then [TagError] else [];
    var sErr := if sentiment.Some? && ValidateSentiment(sentiment.value).Err? then [SentimentError] else [];
    var errs := kErr + tErr + sErr;
    if errs == [] then Ok(SearchParams(memoryBank, query, k, entity, tag, sentiment)) else Err(errs)
  }

  /** Building ManageMemoryParams: only the action is validated. */
  function NewManageMemoryParams(memoryBank: string, action: string, uuid: Option<string>): (r: Result<ManageMemoryParams, seq<string>>)
    ensures r.Ok? <==> action in {"create", "delete", "forget"}
    ensures r.Ok? ==> r.value == ManageMemoryParams(memoryBank, action, uuid)
    ensures r.Err? ==> r.error == [ActionError]
  {
    match ValidateAction(action)
    case Err(e) => Err([e])
    case Ok(a) => Ok(ManageMemoryParams(memoryBank, a, uuid))
  }

  /**
   * Building EmbeddingParams: a list input is flattened; a model given by the
   * caller must equal LOCAL_MODEL, while the default (LOCAL_MODEL itself) is
   * taken without validation.
   */
  function NewEmbeddingParams(input: StrOrList, model: Option<string>, localModel: Option<string>)
    : (r: Result<EmbeddingParams, seq<string>>)
    ensures r.Ok? <==> model.None? || localModel == model
    ensures r.Ok? ==> r.value.input == FlattenInput(input)
    ensures r.Ok? ==> r.value.model == localModel
    ensures r.Err? ==> r.error == [ModelError]
  {
    if model.None? then Ok(EmbeddingParams(FlattenInput(input), localModel))
    else
      match ValidateModel(model.value, localModel)
      case Err(e) => Err([e])
      case Ok(m) => Ok(EmbeddingParams(FlattenInput(input), Some(m)))
  }
}
