/**
 * The sentiment client: the single-review and batch prompts, and the calls that
 * send a prompt to the chat-completion backend, strip the reply, parse it as
 * JSON and, for a batch, take the value stored under `"reviews"`. The backend
 * call and `json.loads` are parameters; nothing the backend returns is checked
 * against `ReviewSentiment`.
 */
module GroqSentiment {
  import opened Wrappers
  import opened PyRuntime

  /** The chat-completion call (model llama3-70b-8192, temperature 0, JSON-object output): the message content, or the text of the exception the client raised. */
  type ChatBackend = string -> Result<string, string>

  /** `json.loads`: the parsed value, or the text of its `JSONDecodeError`. */
  type JsonLoads = string -> Result<Json, string>

  const Model: string := "llama3-70b-8192"

  const GroqKeyVariable := "GROQ_API_KEY"

  /** The text of the error the Groq client library raises when it finds no key. */
  const GroqKeyMissing := "The api_key client option must be set either by passing api_key to the client or by setting the GROQ_API_KEY environment variable"

  /** The module-level client, holding the key it was built with. */
  datatype GroqClient = GroqClient(apiKey: string)

  /**
   * `Groq(api_key=os.getenv("GROQ_API_KEY"))`, run when the module is imported:
   * an unset key raises; the library tests the key only against `None`, so an
   * empty one is let through.
   */
  function NewGroqClient(env: map<string, string>): (r: Result<GroqClient, PyError>)
    ensures r.Success? <==> GroqKeyVariable in env
    ensures r.Success? ==> r.value.apiKey == env[GroqKeyVariable]
    ensures r.Failure? ==> r.error == ApiError(GroqKeyMissing)
  {
    if GroqKeyVariable in env then Success(GroqClient(env[GroqKeyVariable])) else Failure(ApiError(GroqKeyMissing))
  }

  /** The single-review prompt up to the opening quote around the review. */
  const SingleHeader: string :=
    "\nYou are a sentiment analysis API. ONLY return a valid JSON in the following format:\n\n{\n"
    + "  \"review\": \"<original review text>\",\n"
    + "  \"label\": \"Very Negative | Negative | Neutral | Positive | Very Positive\",\n"
    + "  \"score\": float between -1.0 and 1.0\n}\n\nReview: \""

  /** The batch prompt before the review lines. */
  const BatchHeader: string :=
    "\nYou are a sentiment analysis API. ONLY return a valid JSON in the following format:\n\n{\n"
    + "  \"reviews\": [\n    {\n"
    + "      \"review\": \"<text>\",\n"
    + "      \"label\": \"Very Negative | Negative | Neutral | Positive | Very Positive\",\n"
    + "      \"score\": float between -1.0 and 1.0\n"
    + "    }\n  ]\n}\n\nReviews:\n"

  /** The single prompt holds the review verbatim, unescaped, between the header's quote and a closing quote and newline. */
  function SinglePrompt(review: string): (p: string)
    ensures |p| == |SingleHeader| + |review| + 2
    ensures p[..|SingleHeader|] == SingleHeader
    ensures p[|SingleHeader|..|p| - 2] == review
    ensures p[|p| - 2..] == "\"\n"
  {
    SingleHeader + review + "\"\n"
  }

  /** One line per review, `"- "` followed by the review, in input order. */
  function BatchLines(reviews: seq<string>): (lines: seq<string>)
    ensures |lines| == |reviews|
    ensures forall i :: 0 <= i < |reviews| ==> lines[i] == "- " + reviews[i]
  {
    seq(|reviews|, i requires 0 <= i < |reviews| => "- " + reviews[i])
  }

  /** The batch prompt: the fixed header, then the review lines joined by newlines. */
  function BatchPrompt(reviews: seq<string>): (p: string)
  {
    BatchHeader + Join("\n", BatchLines(reviews))
  }

  /** With no reviews the prompt is exactly the header, which ends in "Reviews:" and a newline; with one it is the header and that review's line. */
  lemma BatchPromptSmall(r: string)
    ensures BatchPrompt([]) == BatchHeader
    ensures BatchHeader[|BatchHeader| - 9..] == "Reviews:\n"
    ensures BatchPrompt([r]) == BatchHeader + "- " + r
  {
    assert BatchLines([r]) == ["- " + r];
  }

  /** Another review adds a newline and its line at the end, so lines follow input order. */
  lemma BatchPromptAppend(reviews: seq<string>, r: string)
    requires reviews != []
    ensures BatchPrompt(reviews + [r]) == BatchPrompt(reviews) + "\n- " + r
  {
    assert BatchLines(reviews + [r]) == BatchLines(reviews) + ["- " + r];
    JoinAppend("\n", BatchLines(reviews), "- " + r);
  }

  /** Reads the reviews back from a batch prompt: the header, then lines that each start with "- ". */
  function ReviewsFromBatchPrompt(p: string): Option<seq<string>> {
    if |p| < |BatchHeader| || p[..|BatchHeader|] != BatchHeader then None
    else
      var body := p[|BatchHeader|..];
      if body == "" then Some([])
      else
        var lines := SplitLines(body);
        if forall i :: 0 <= i < |lines| ==> |lines[i]| >= 2 && lines[i][..2] == "- "
        then Some(seq(|lines|, i requires 0 <= i < |lines| && |lines[i]| >= 2 => lines[i][2..]))
        else None
  }

  /** When no review contains a newline, the batch prompt determines the reviews and their order. */
  lemma {:induction false} BatchPromptRoundTrip(reviews: seq<string>)
    requires forall i :: 0 <= i < |reviews| ==> '\n' !in reviews[i]
    ensures ReviewsFromBatchPrompt(BatchPrompt(reviews)) == Some(reviews)
  {
    var p := BatchPrompt(reviews);
    var body := p[|BatchHeader|..];
    var lines := BatchLines(reviews);
    assert body == Join("\n", lines);
    if reviews != [] {
      forall i | 0 <= i < |lines| ensures '\n' !in lines[i] {
        assert lines[i] == ['-', ' '] + reviews[i];
      }
      SplitJoinLines(lines);
      var back := seq(|lines|, i requires 0 <= i < |lines| && |lines[i]| >= 2 => lines[i][2..]);
      assert back == reviews;
    }
  }

  /** A review containing a newline and a dash can pose as two reviews: the prompt alone does not tell them apart. */
  lemma BatchPromptAmbiguous(x: string, y: string)
    ensures BatchPrompt([x + "\n- " + y]) == BatchPrompt([x, y])
  {
    BatchPromptSmall(x + "\n- " + y);
    BatchPromptSmall(x);
    BatchPromptAppend([x], y);
    assert [x] + [y] == [x, y];
  }

  /** `groq_sentiment_single`: the parsed JSON value of the stripped reply, as it is. */
  function SentimentSingleCall(review: string, chat: ChatBackend, loads: JsonLoads): Result<Json, PyError> {
    match chat(SinglePrompt(review))
    case Failure(m) => Failure(ApiError(m))
    case Success(content) =>
      match loads(Strip(content))
      case Failure(m) => Failure(DecodeError(m))
      case Success(v) => Success(v)
  }

  /** `groq_sentiment_batch`: the value stored under `"reviews"` in the parsed, stripped reply, whatever its shape. */
  function SentimentBatchCall(reviews: seq<string>, chat: ChatBackend, loads: JsonLoads): Result<Json, PyError> {
    BatchReplyValue(chat(BatchPrompt(reviews)), loads)
  }

  /** What the batch call makes of the client's reply: strip it, parse it, take `"reviews"`. */
  function BatchReplyValue(reply: Result<string, string>, loads: JsonLoads): Result<Json, PyError> {
    match reply
    case Failure(m) => Failure(ApiError(m))
    case Success(content) =>
      match loads(Strip(content))
      case Failure(m) => Failure(DecodeError(m))
      case Success(raw) => Subscript(raw, "reviews")
  }

  /**
   * The single call sends the single prompt, hands the reply to the parser only
   * after stripping it, and returns what the parser produced; a client failure
   * or an unparsable reply is raised, nothing else is.
   */
  lemma SingleCallOutcomes(review: string, chat: ChatBackend, loads: JsonLoads)
    ensures var r, reply := SentimentSingleCall(review, chat, loads), chat(SinglePrompt(review));
      && (r.Success? <==> reply.Success? && loads(Strip(reply.value)).Success?)
      && (r.Success? ==> r.value == loads(Strip(reply.value)).value)
      && (r.Failure? ==> r.error.ApiError? || r.error.DecodeError?)
      && (reply.Failure? ==> r == Failure(ApiError(reply.error)))
  {
  }

  /**
   * The batch call sends the batch prompt for exactly these reviews and returns
   * the value under `"reviews"` of the parsed, stripped reply, whatever its
   * shape; a client failure, an unparsable reply, a reply without that key or a
   * reply that is not an object is raised.
   */
  lemma BatchCallOutcomes(reviews: seq<string>, chat: ChatBackend, loads: JsonLoads)
    ensures var r, reply := SentimentBatchCall(reviews, chat, loads), chat(BatchPrompt(reviews));
      && (reply.Failure? ==> r == Failure(ApiError(reply.error)))
      && (r.Failure? ==> r.error.ApiError? || r.error.DecodeError? || r.error.KeyError? || r.error.TypeError?)
      && (r.Success? <==>
           && reply.Success?
           && loads(Strip(reply.value)).Success?
           && loads(Strip(reply.value)).value.JObject?
           && HasKey(loads(Strip(reply.value)).value.members, "reviews"))
      && (r.Success? ==> r.value == DictGet(loads(Strip(reply.value)).value.members, "reviews"))
  {
    match chat(BatchPrompt(reviews))
    case Failure(m) =>
    case Success(content) =>
      match loads(Strip(content))
      case Failure(m) =>
      case Success(raw) =>
        BatchCallParsed(reviews, chat, loads, raw);
        SubscriptFailures(raw, "reviews");
  }

  /** Subscripting with a string key raises only a `KeyError` or a `TypeError`. */
  lemma SubscriptFailures(v: Json, key: string)
    ensures Subscript(v, key).Failure? ==> Subscript(v, key).error.KeyError? || Subscript(v, key).error.TypeError?
  {
  }

  /** Once the reply parses to `raw`, the batch call is `raw["reviews"]`. */
  lemma BatchCallParsed(reviews: seq<string>, chat: ChatBackend, loads: JsonLoads, raw: Json)
    requires chat(BatchPrompt(reviews)).Success?
    requires loads(Strip(chat(BatchPrompt(reviews)).value)) == Success(raw)
    ensures SentimentBatchCall(reviews, chat, loads) == Subscript(raw, "reviews")
  {
  }

  /** Once the stripped reply parses to `raw`, the batch call's value is `raw["reviews"]`. */
  lemma BatchReplyParsed(content: string, loads: JsonLoads, raw: Json)
    requires loads(Strip(content)) == Success(raw)
    ensures BatchReplyValue(Success(content), loads) == Subscript(raw, "reviews")
  {
  }

  /** Any reply object without a `"reviews"` key fails with `KeyError('reviews')`, reported as `'reviews'`. */
  lemma MissingReviewsKey(content: string, loads: JsonLoads, raw: Json)
    requires loads(Strip(content)) == Success(raw)
    requires raw.JObject? && !HasKey(raw.members, "reviews")
    ensures BatchReplyValue(Success(content), loads) == Failure(KeyError("reviews"))
    ensures Describe(BatchReplyValue(Success(content), loads).error) == "'reviews'"
  {
    BatchReplyParsed(content, loads, raw);
    KeyErrorText();
  }

  lemma KeyErrorText()
    ensures Describe(KeyError("reviews")) == "'reviews'"
  {
  }
}
