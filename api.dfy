/**
 * The HTTP surface: the single-review handler turns whatever the sentiment
 * client returned or raised into a `SingleResponse`, the batch handler wraps the
 * orchestrator's list in a `BatchResponse`, and eight recommendation routes each
 * call one recommender intent. The application exists only if the Groq client
 * and the recommender could both be built at start-up.
 */
module Api {
  import opened Wrappers
  import opened PyRuntime
  import opened SentimentModel
  import opened RecommendationModel
  import opened GroqSentiment
  import opened Sentiment
  import opened Recommender

  // ---------------------------------------------------------------------------
  // Building the response records
  // ---------------------------------------------------------------------------

  /** An `Optional[str]` field: a string or `None`. */
  predicate OptionalStrOk(v: Json) {
    v.JStr? || v.JNull?
  }

  /** An `Optional[float]` field: a number or `None`. */
  predicate OptionalFloatOk(v: Json) {
    v.JNull? || AsFloat(v).Some?
  }

  function AsOptionalStr(v: Json): Option<string> {
    if v.JStr? then Some(v.s) else None
  }

  function AsOptionalFloat(v: Json): Option<real> {
    AsFloat(v)
  }

  /**
   * `SingleResponse(...)` or `BatchResponseItem(...)` from the four values: the
   * review must be a string, the label a string or `None`, the score a number or
   * `None`; otherwise pydantic raises, naming each failing field.
   */
  function MakeResult(model: string, review: Json, labelValue: Json, score: Json, error: Option<string>): (r: Result<SentimentResult, PyError>)
    ensures r.Success? <==> review.JStr? && OptionalStrOk(labelValue) && OptionalFloatOk(score)
    ensures r.Success? ==> JStr(r.value.review) == review && r.value.error == error
    ensures r.Success? ==> (r.value.sentimentLabel.Some? <==> labelValue.JStr?)
    ensures r.Success? && labelValue.JStr? ==> r.value.sentimentLabel == Some(labelValue.s)
    ensures r.Success? ==> r.value.score == AsFloat(score)
    ensures r.Failure? ==> r.error.ValidationError? && r.error.model == model
  {
    var reviewOk, labelOk, scoreOk := review.JStr?, OptionalStrOk(labelValue), OptionalFloatOk(score);
    if reviewOk && labelOk && scoreOk then
      Success(SentimentResult(review.s, AsOptionalStr(labelValue), AsOptionalFloat(score), error))
    else
      Failure(ValidationError(model, FailingFields([("review", reviewOk), ("label", labelOk), ("score", scoreOk)])))
  }

  /** The response for an exception caught by the single handler. */
  function ErrorResult(review: string, e: PyError): SentimentResult {
    SentimentResult(review, None, None, Some(Describe(e)))
  }

  // ---------------------------------------------------------------------------
  // The sentiment routes
  // ---------------------------------------------------------------------------

  /**
   * `POST /sentiment/single`: on success the request's review is echoed with the
   * result's `label` and `score`; any exception, from the client, from
   * `out.get` on a result that is not a dict or from building the response,
   * becomes a response with no label, no score and the exception's text.
   */
  function SentimentSingle(req: SingleRequest, chat: ChatBackend, loads: JsonLoads): (resp: SingleResponse)
    ensures resp.review == req.review
    ensures resp.error.Some? ==> resp.sentimentLabel.None? && resp.score.None?
    ensures resp.error.None? <==>
      var out := SentimentSingleCall(req.review, chat, loads);
      out.Success? && out.value.JObject?
      && OptionalStrOk(DictGet(out.value.members, "label")) && OptionalFloatOk(DictGet(out.value.members, "score"))
    ensures resp.error.None? ==>
      var out := SentimentSingleCall(req.review, chat, loads);
      && (resp.sentimentLabel.Some? <==> DictGet(out.value.members, "label").JStr?)
      && (resp.sentimentLabel.Some? ==> DictGet(out.value.members, "label") == JStr(resp.sentimentLabel.value))
      && resp.score == AsFloat(DictGet(out.value.members, "score"))
  {
    SingleAnswerFor(req.review, AnalyzeSingle(req.review, chat, loads))
  }

  /** The handler's answer once the client has returned `out` or raised. */
  function SingleAnswerFor(review: string, out: Result<Json, PyError>): (resp: SingleResponse)
    ensures resp.review == review
    ensures resp.error.Some? ==> resp.sentimentLabel.None? && resp.score.None?
    ensures resp.error.None? <==>
      out.Success? && out.value.JObject?
      && OptionalStrOk(DictGet(out.value.members, "label")) && OptionalFloatOk(DictGet(out.value.members, "score"))
    ensures resp.error.None? ==>
      && (resp.sentimentLabel.Some? <==> DictGet(out.value.members, "label").JStr?)
      && (resp.sentimentLabel.Some? ==> DictGet(out.value.members, "label") == JStr(resp.sentimentLabel.value))
      && resp.score == AsFloat(DictGet(out.value.members, "score"))
  {
    match out
    case Failure(e) => ErrorResult(review, e)
    case Success(v) =>
      if !v.JObject? then ErrorResult(review, AttributeError(TypeName(v), "get"))
      else
        match MakeResult("SingleResponse", JStr(review), DictGet(v.members, "label"), DictGet(v.members, "score"), None)
        case Success(resp) => resp
        case Failure(e) => ErrorResult(review, e)
  }

  /** A client or parse failure is reported in `error`, with the exception's text. */
  lemma SingleFailureReported(review: string, e: PyError)
    ensures SingleAnswerFor(review, Failure(e)) == SentimentResult(review, None, None, Some(Describe(e)))
  {
  }

  /**
   * A well-formed judgment comes back as label and score with no error, while the
   * review in the response is the request's, not the one the model wrote; the
   * label and score are not checked against `ReviewSentiment`.
   */
  lemma SingleJudgment(review: string, echoed: string, labelText: string, score: real)
    ensures SingleAnswerFor(review, Success(JudgmentJson(echoed, labelText, score)))
      == SentimentResult(review, Some(labelText), Some(score), None)
  {
    var ms := JudgmentJson(echoed, labelText, score).members;
    assert DictGet(ms, "label") == JStr(labelText) by { DictGetAt(ms, "label", 1); }
    assert DictGet(ms, "score") == JFloat(score) by { DictGetAt(ms, "score", 2); }
  }

  /** A reply that is a JSON list fails at `out.get`, and the handler reports the `AttributeError`. */
  lemma SingleListReply(review: string, items: seq<Json>)
    ensures SingleAnswerFor(review, Success(JArray(items)))
      == SentimentResult(review, None, None, Some("'list' object has no attribute 'get'"))
  {
    var t := TypeName(JArray(items));
    assert "'" + t + "' object has no attribute '" + "get" + "'" == "'" + t + "' object has no attribute 'get'";
    ListHasNoGet();
  }

  lemma ListHasNoGet()
    ensures "'" + TypeName(JArray([])) + "' object has no attribute 'get'" == "'list' object has no attribute 'get'"
  {
    assert TypeName(JArray([])) == "list";
  }

  /**
   * An empty JSON object is not an error: the response has neither a judgment
   * nor an error, so "exactly one of the two" does not hold.
   */
  lemma SingleEmptyObject(review: string)
    ensures SingleAnswerFor(review, Success(JObject([]))) == SentimentResult(review, None, None, None)
    ensures !ExactlyOneOutcome(SingleAnswerFor(review, Success(JObject([]))))
  {
  }

  /** An entry the orchestrator produced that `BatchResponseItem` accepts. */
  predicate EntryValid(e: Entry) {
    e.review.JStr? && OptionalStrOk(e.labelValue) && OptionalFloatOk(e.score)
  }

  function ToItem(e: Entry): (item: BatchResponseItem)
    requires EntryValid(e)
    ensures JStr(item.review) == e.review && item.error == e.error
    ensures item.sentimentLabel.Some? <==> e.labelValue.JStr?
    ensures item.sentimentLabel.Some? ==> e.labelValue == JStr(item.sentimentLabel.value)
    ensures item.score == AsFloat(e.score)
  {
    SentimentResult(e.review.s, AsOptionalStr(e.labelValue), AsOptionalFloat(e.score), e.error)
  }

  /** The locations `results.<i>.<field>` of every failing field, for entries numbered from `first` on. */
  function EntryFailures(entries: seq<Entry>, first: nat): (locations: seq<string>)
    ensures locations == [] <==> forall i :: 0 <= i < |entries| ==> EntryValid(entries[i])
  {
    if entries == [] then []
    else
      var e := entries[0];
      var prefix := "results." + NatToString(first) + ".";
      var fields := FailingFields([("review", e.review.JStr?), ("label", OptionalStrOk(e.labelValue)), ("score", OptionalFloatOk(e.score))]);
      var rest := EntryFailures(entries[1..], first + 1);
      assert fields == [] <==> EntryValid(e) by {
        var checks := [("review", e.review.JStr?), ("label", OptionalStrOk(e.labelValue)), ("score", OptionalFloatOk(e.score))];
        assert checks[0].1 && checks[1].1 && checks[2].1 <==> EntryValid(e);
      }
      assert (forall i :: 0 <= i < |entries| ==> EntryValid(entries[i]))
        <==> EntryValid(e) && forall i :: 0 <= i < |entries[1..]| ==> EntryValid(entries[1..][i]) by {
        if EntryValid(e) && forall i :: 0 <= i < |entries[1..]| ==> EntryValid(entries[1..][i]) {
          forall i | 0 <= i < |entries| ensures EntryValid(entries[i]) {
            if i > 0 { assert entries[i] == entries[1..][i - 1]; }
          }
        }
      }
      seq(|fields|, k requires 0 <= k < |fields| => prefix + fields[k]) + rest
  }

  /**
   * `POST /sentiment/batch`: the orchestrator's list inside `results`, each dict
   * converted to a `BatchResponseItem`. Nothing catches the `ValidationError` of
   * a dict the conversion rejects (a reply item without a `review`, say): the
   * whole request fails.
   */
  function SentimentBatch(req: BatchRequest, chat: ChatBackend, loads: JsonLoads): (r: Result<BatchResponse, PyError>)
    ensures var out := BatchResults(req.reviews, GroqBatch(chat, loads));
      && (r.Success? <==> forall i :: 0 <= i < |out| ==> EntryValid(out[i]))
      && (r.Success? ==> |r.value.results| == |out| && forall i :: 0 <= i < |out| ==> r.value.results[i] == ToItem(out[i]))
      && (r.Failure? ==> r.error.ValidationError? && r.error.model == "BatchResponse")
  {
    BatchAnswerFor(BatchResults(req.reviews, GroqBatch(chat, loads)))
  }

  /** `BatchResponse(results=out)` for the orchestrator's list `out`. */
  function BatchAnswerFor(out: seq<Entry>): (r: Result<BatchResponse, PyError>)
    ensures r.Success? <==> forall i :: 0 <= i < |out| ==> EntryValid(out[i])
    ensures r.Success? ==> |r.value.results| == |out| && forall i :: 0 <= i < |out| ==> r.value.results[i] == ToItem(out[i])
    ensures r.Failure? ==> r.error.ValidationError? && r.error.model == "BatchResponse"
  {
    var failures := EntryFailures(out, 0);
    if failures == [] then Success(BatchResponse(seq(|out|, i requires 0 <= i < |out| && EntryValid(out[i]) => ToItem(out[i]))))
    else Failure(ValidationError("BatchResponse", failures))
  }

  /**
   * When every chunk is aligned and every entry converts, the response has one
   * item per review, and an item with an error is the placeholder of the review
   * at its position.
   */
  lemma BatchResponseAligned(req: BatchRequest, chat: ChatBackend, loads: JsonLoads)
    requires AllAligned(Chunks(req.reviews), GroqBatch(chat, loads))
    requires SentimentBatch(req, chat, loads).Success?
    ensures var items := SentimentBatch(req, chat, loads).value.results;
      && |items| == |req.reviews|
      && forall j :: 0 <= j < |items| && items[j].error.Some? ==>
           items[j].review == req.reviews[j] && items[j].sentimentLabel.None? && items[j].score.None?
  {
    BatchAligned(req.reviews, GroqBatch(chat, loads));
  }

  /** A client that raises on every call still answers the batch: one error item per review, in order. */
  lemma ClientDownResponse(req: BatchRequest, chat: ChatBackend, loads: JsonLoads)
    requires forall p :: chat(p).Failure?
    ensures var r := SentimentBatch(req, chat, loads);
      && r.Success? && |r.value.results| == |req.reviews|
      && forall j :: 0 <= j < |req.reviews| ==>
           && r.value.results[j].review == req.reviews[j]
           && r.value.results[j].sentimentLabel.None? && r.value.results[j].score.None?
           && r.value.results[j].error.Some?
  {
    var client := GroqBatch(chat, loads);
    forall c ensures client(c).Failure? {
      BatchCallOutcomes(c, chat, loads);
    }
    ClientDownBatch(req.reviews, client);
  }

  /** An empty request makes no call and answers with an empty list. */
  lemma EmptyBatch(chat: ChatBackend, loads: JsonLoads)
    ensures SentimentBatch(BatchRequest([]), chat, loads) == Success(BatchResponse([]))
  {
    assert Chunks([]) == [];
  }

  /** A reply item without a `review` key fails the whole batch request. */
  lemma MissingReviewFailsBatch(review: string, chat: ChatBackend, loads: JsonLoads, labelValue: Json, score: Json)
    requires chat(BatchPrompt([review])).Success?
    requires loads(Strip(chat(BatchPrompt([review])).value))
      == Success(JObject([("reviews", JArray([JObject([("label", labelValue), ("score", score)])]))]))
    ensures SentimentBatch(BatchRequest([review]), chat, loads).Failure?
  {
    var item := JObject([("label", labelValue), ("score", score)]);
    BatchCallParsed([review], chat, loads, JObject([("reviews", JArray([item]))]));
    ReviewsMember(JArray([item]));
    MissingReviewFailsItems(review, GroqBatch(chat, loads), labelValue, score);
  }

  lemma ReviewsMember(v: Json)
    ensures Subscript(JObject([("reviews", v)]), "reviews") == Success(v)
  {
    DictGetAt([("reviews", v)], "reviews", 0);
  }

  /** The same at the level of the batch client: one item without a `review` key and the conversion fails. */
  lemma MissingReviewFailsItems(review: string, client: BatchClient, labelValue: Json, score: Json)
    requires client([review]) == Success(JArray([JObject([("label", labelValue), ("score", score)])]))
    ensures BatchAnswerFor(BatchResults([review], client)).Failure?
  {
    var item := JObject([("label", labelValue), ("score", score)]);
    var out := BatchResults([review], client);
    assert out == ItemEntries([item]) by {
      OneChunkReply([review], client, JArray([item]));
      SuccessfulChunkEntries([review], [item]);
    }
    assert !EntryValid(out[0]) by {
      NoReviewKey(labelValue, score);
    }
  }

  lemma NoReviewKey(labelValue: Json, score: Json)
    ensures !HasKey([("label", labelValue), ("score", score)], "review")
  {
    var ms := [("label", labelValue), ("score", score)];
    forall i | 0 <= i < |ms| ensures ms[i].0 != "review" {
      assert |ms[i].0| == 5;
    }
  }

  // ---------------------------------------------------------------------------
  // The recommendation routes
  // ---------------------------------------------------------------------------

  datatype Route = SingleRoute | BatchRoute | RecommendRoute(intent: Intent)

  /** The last path segment of each recommendation route. */
  function Slug(intent: Intent): string {
    match intent
    case SimilarBooks => "similar"
    case ByAuthor => "author"
    case ByGenre => "genre"
    case RelatedTo => "related"
    case UserPreferred => "user_preferred"
    case ContentBased => "content_based"
    case Collaborative => "collaborative"
    case Hybrid => "hybrid"
  }

  function IntentOfSlug(slug: string): (r: Option<Intent>)
    ensures r.Some? ==> Slug(r.value) == slug
  {
    if slug == "similar" then Some(SimilarBooks)
    else if slug == "author" then Some(ByAuthor)
    else if slug == "genre" then Some(ByGenre)
    else if slug == "related" then Some(RelatedTo)
    else if slug == "user_preferred" then Some(UserPreferred)
    else if slug == "content_based" then Some(ContentBased)
    else if slug == "collaborative" then Some(Collaborative)
    else if slug == "hybrid" then Some(Hybrid)
    else None
  }

  const RecommendPrefix := "/recommend/"

  function Path(route: Route): string {
    match route
    case SingleRoute => "/sentiment/single"
    case BatchRoute => "/sentiment/batch"
    case RecommendRoute(intent) => RecommendPrefix + Slug(intent)
  }

  /** The route a POST path selects, if any. */
  function RouteOf(path: string): (r: Option<Route>)
    ensures r.Some? ==> Path(r.value) == path
  {
    if path == "/sentiment/single" then Some(SingleRoute)
    else if path == "/sentiment/batch" then Some(BatchRoute)
    else if |RecommendPrefix| <= |path| && path[..|RecommendPrefix|] == RecommendPrefix then
      match IntentOfSlug(path[|RecommendPrefix|..])
      case Some(intent) =>
        assert path == RecommendPrefix + path[|RecommendPrefix|..];
        Some(RecommendRoute(intent))
      case None => None
    else None
  }

  /** Every route is reached by its own path, so the ten paths are distinct. */
  lemma RouteTable(route: Route)
    ensures RouteOf(Path(route)) == Some(route)
  {
    if route.RecommendRoute? {
      var p := Path(route);
      assert p[..|RecommendPrefix|] == RecommendPrefix;
      assert p[|RecommendPrefix|..] == Slug(route.intent);
    }
  }

  /** What a route's body holds. */
  datatype Payload =
    | SingleBody(single: SingleRequest)
    | BatchBody(batch: BatchRequest)
    | QueryText(query: string)
    | TitlesList(titles: seq<string>)

  /** The body shape each handler declares: five recommendation routes take `{query}`, three take `{titles}`. */
  predicate PayloadFits(route: Route, payload: Payload) {
    match route
    case SingleRoute => payload.SingleBody?
    case BatchRoute => payload.BatchBody?
    case RecommendRoute(intent) => if TakesTitles(intent) then payload.TitlesList? else payload.QueryText?
  }

  function ArgumentOf(payload: Payload): Argument
    requires payload.QueryText? || payload.TitlesList?
  {
    if payload.QueryText? then Query(payload.query) else Titles(payload.titles)
  }

  // ---------------------------------------------------------------------------
  // The application
  // ---------------------------------------------------------------------------

  /**
   * The application object. Importing `main` first imports the sentiment
   * client, whose module builds the Groq client, and then builds the
   * recommender: both happen before any route exists.
   */
  datatype App = App(groq: GroqClient, recommender: BookRecommender)

  function Startup(env: map<string, string>): (r: Result<App, PyError>)
    ensures r.Success? <==> NewGroqClient(env).Success? && NewBookRecommender(env).Success?
    ensures NewGroqClient(env).Failure? ==> r == Failure(ApiError(GroqKeyMissing))
    ensures NewGroqClient(env).Success? && NewBookRecommender(env).Failure? ==> r == Failure(RuntimeError(LoadFailure))
    ensures r.Success? ==> r.value.groq.apiKey == env[GroqKeyVariable] && r.value.recommender.client.apiKey == env[KeyVariable]
  {
    match NewGroqClient(env)
    case Failure(e) => Failure(e)
    case Success(groq) =>
      match NewBookRecommender(env)
      case Failure(e) => Failure(e)
      case Success(rec) => Success(App(groq, rec))
  }

  datatype Response =
    | SingleAnswer(single: SingleResponse)
    | BatchAnswer(batch: BatchResponse)
    | Books(books: Option<seq<Book>>)

  /**
   * One request to the running application: the sentiment routes call their
   * handlers, each recommendation route calls exactly its intent and lets any
   * failure through.
   */
  function Handle(app: App, route: Route, payload: Payload, chat: ChatBackend, loads: JsonLoads, gen: GeminiBackend): (r: Result<Response, PyError>)
    requires PayloadFits(route, payload)
    ensures route.SingleRoute? ==> r == Success(SingleAnswer(SentimentSingle(payload.single, chat, loads)))
    ensures route.BatchRoute? ==>
      match SentimentBatch(payload.batch, chat, loads)
      case Success(resp) => r == Success(BatchAnswer(resp))
      case Failure(e) => r == Failure(e)
    ensures route.RecommendRoute? ==>
      match Recommend(app.recommender, route.intent, ArgumentOf(payload), gen)
      case Success(books) => r == Success(Books(books))
      case Failure(e) => r == Failure(e)
  {
    match route
    case SingleRoute => Success(SingleAnswer(SentimentSingle(payload.single, chat, loads)))
    case BatchRoute =>
      (match SentimentBatch(payload.batch, chat, loads)
       case Success(resp) => Success(BatchAnswer(resp))
       case Failure(e) => Failure(e))
    case RecommendRoute(intent) =>
      match Recommend(app.recommender, intent, ArgumentOf(payload), gen)
      case Success(books) => Success(Books(books))
      case Failure(e) => Failure(e)
  }

  /** A request from start-up on: without either key there is no application, so no route answers. */
  function Serve(env: map<string, string>, route: Route, payload: Payload, chat: ChatBackend, loads: JsonLoads, gen: GeminiBackend): Result<Response, PyError>
    requires PayloadFits(route, payload)
  {
    match Startup(env)
    case Failure(e) => Failure(e)
    case Success(app) => Handle(app, route, payload, chat, loads, gen)
  }

  /** With the Groq key set, a missing or empty Gemini key stops every route, the sentiment ones included. */
  lemma MissingKeyStopsEverything(env: map<string, string>, route: Route, payload: Payload, chat: ChatBackend, loads: JsonLoads, gen: GeminiBackend)
    requires PayloadFits(route, payload)
    requires GroqKeyVariable in env
    requires KeyVariable !in env || env[KeyVariable] == ""
    ensures Serve(env, route, payload, chat, loads, gen) == Failure(RuntimeError(LoadFailure))
  {
  }

  /** A missing Groq key stops every route, the recommendation ones included, before the Gemini key is looked at. */
  lemma MissingGroqKeyStopsEverything(env: map<string, string>, route: Route, payload: Payload, chat: ChatBackend, loads: JsonLoads, gen: GeminiBackend)
    requires PayloadFits(route, payload)
    requires GroqKeyVariable !in env
    ensures Serve(env, route, payload, chat, loads, gen) == Failure(ApiError(GroqKeyMissing))
  {
  }

  /** With the key present, the sentiment routes answer without consulting the recommendation model. */
  lemma SentimentIndependentOfGemini(env: map<string, string>, route: Route, payload: Payload, chat: ChatBackend, loads: JsonLoads, gen1: GeminiBackend, gen2: GeminiBackend)
    requires PayloadFits(route, payload) && !route.RecommendRoute?
    ensures Serve(env, route, payload, chat, loads, gen1) == Serve(env, route, payload, chat, loads, gen2)
  {
  }
}
