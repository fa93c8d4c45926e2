/**
 * The sentiment records of the API: the request and response shapes, the
 * five-value label enumeration and the judgment record whose score must lie in
 * [-1.0, 1.0]. Validation follows pydantic: a record is built from a parsed JSON
 * value or rejected with a `ValidationError`.
 */
module SentimentModel {
  import opened Wrappers
  import opened PyRuntime

  datatype SingleRequest = SingleRequest(review: string)

  datatype BatchRequest = BatchRequest(reviews: seq<string>)

  /** The outward-facing result for one review; `SingleResponse` and `BatchResponseItem` share this shape. */
  datatype SentimentResult = SentimentResult(
    review: string,
    sentimentLabel: Option<string>,
    score: Option<real>,
    error: Option<string>)

  type SingleResponse = SentimentResult

  type BatchResponseItem = SentimentResult

  datatype BatchResponse = BatchResponse(results: seq<BatchResponseItem>)

  /** Either a judgment (label and score, no error) or an error (neither label nor score). */
  predicate ExactlyOneOutcome(r: SentimentResult) {
    || (r.sentimentLabel.Some? && r.score.Some? && r.error.None?)
    || (r.sentimentLabel.None? && r.score.None? && r.error.Some?)
  }

  datatype SentimentLabel = VeryPositive | Positive | Neutral | Negative | VeryNegative

  /** The string value of each enumeration member. */
  function LabelValue(l: SentimentLabel): string {
    match l
    case VeryPositive => "Very Positive"
    case Positive => "Positive"
    case Neutral => "Neutral"
    case Negative => "Negative"
    case VeryNegative => "Very Negative"
  }

  /** Look a string up among the enumeration's values (exact, case-sensitive match). */
  function ParseLabel(s: string): (r: Option<SentimentLabel>)
    ensures r.Some? ==> LabelValue(r.value) == s
    ensures r.None? ==> forall l: SentimentLabel :: LabelValue(l) != s
  {
    if s == "Very Positive" then Some(VeryPositive)
    else if s == "Positive" then Some(Positive)
    else if s == "Neutral" then Some(Neutral)
    else if s == "Negative" then Some(Negative)
    else if s == "Very Negative" then Some(VeryNegative)
    else None
  }

  /** The five values are distinct, so each member is found again from its value. */
  lemma LabelRoundTrip(l: SentimentLabel)
    ensures ParseLabel(LabelValue(l)) == Some(l)
  {
  }

  predicate InScoreRange(score: real) {
    -1.0 <= score <= 1.0
  }

  /** A judgment as `ReviewSentiment` declares it. */
  datatype ReviewSentiment = ReviewSentiment(review: string, sentimentLabel: SentimentLabel, score: real) {
    predicate Valid() {
      InScoreRange(score)
    }
  }

  /** A JSON number as a pydantic `float` field accepts it. */
  function AsFloat(v: Json): Option<real> {
    match v
    case JInt(i) => Some(i as real)
    case JFloat(f) => Some(f)
    case _ => None
  }

  /**
   * `ReviewSentiment.model_validate(v)`: all three fields are required, the label
   * must be one of the enumeration's values and the score must lie in
   * [-1.0, 1.0], both bounds included.
   */
  function ValidateReviewSentiment(v: Json): (r: Result<ReviewSentiment, PyError>)
    ensures r.Success? ==> v.JObject? && r.value.Valid()
    ensures r.Success? ==> DictGet(v.members, "review") == JStr(r.value.review)
    ensures r.Success? ==> DictGet(v.members, "label") == JStr(LabelValue(r.value.sentimentLabel))
    ensures r.Success? ==> AsFloat(DictGet(v.members, "score")) == Some(r.value.score)
    ensures r.Failure? ==> r.error.ValidationError? && r.error.model == "ReviewSentiment"
  {
    if !v.JObject? then Failure(ValidationError("ReviewSentiment", [""]))
    else
      var review, labelText, score := DictGet(v.members, "review"), DictGet(v.members, "label"), DictGet(v.members, "score");
      var reviewOk := review.JStr?;
      var labelOk := labelText.JStr? && ParseLabel(labelText.s).Some?;
      var scoreOk := AsFloat(score).Some? && InScoreRange(AsFloat(score).value);
      if reviewOk && labelOk && scoreOk then Success(ReviewSentiment(review.s, ParseLabel(labelText.s).value, AsFloat(score).value))
      else Failure(ValidationError("ReviewSentiment", FailingFields([("review", reviewOk), ("label", labelOk), ("score", scoreOk)])))
  }

  /** The JSON object a well-formed judgment is written as. */
  function JudgmentJson(review: string, labelText: string, score: real): Json {
    JObject([("review", JStr(review)), ("label", JStr(labelText)), ("score", JFloat(score))])
  }

  /** A judgment object is accepted exactly when its label is one of the five values and its score is in range. */
  lemma ValidateJudgmentIff(review: string, labelText: string, score: real)
    ensures ValidateReviewSentiment(JudgmentJson(review, labelText, score)).Success?
      <==> ParseLabel(labelText).Some? && -1.0 <= score <= 1.0
    ensures ValidateReviewSentiment(JudgmentJson(review, labelText, score)).Success? ==>
      ValidateReviewSentiment(JudgmentJson(review, labelText, score)).value
        == ReviewSentiment(review, ParseLabel(labelText).value, score)
  {
    var ms := JudgmentJson(review, labelText, score).members;
    DictGetAt(ms, "review", 0);
    DictGetAt(ms, "label", 1);
    DictGetAt(ms, "score", 2);
  }

  /** A score of 1.5 and a label "Mixed" are each rejected, not clamped or defaulted; both bounds of the range are accepted. */
  lemma ValidateRejectsExamples(review: string)
    ensures ValidateReviewSentiment(JudgmentJson(review, LabelValue(Positive), 1.5)).Failure?
    ensures ValidateReviewSentiment(JudgmentJson(review, "Mixed", 0.2)).Failure?
    ensures ValidateReviewSentiment(JudgmentJson(review, LabelValue(Positive), 1.0)).Success?
    ensures ValidateReviewSentiment(JudgmentJson(review, LabelValue(VeryNegative), -1.0)).Success?
  {
    LabelRoundTrip(Positive);
    LabelRoundTrip(VeryNegative);
    ValidateJudgmentIff(review, LabelValue(Positive), 1.5);
    ValidateJudgmentIff(review, LabelValue(Positive), 1.0);
    ValidateJudgmentIff(review, LabelValue(VeryNegative), -1.0);
    assert ParseLabel("Mixed").None? by {
      forall l: SentimentLabel ensures LabelValue(l) != "Mixed" {
        assert |LabelValue(l)| != 5;
      }
    }
    ValidateJudgmentIff(review, "Mixed", 0.2);
  }

  /** Each of the three fields is required: an object missing one is rejected. */
  lemma ValidateNeedsAllFields(review: string, labelText: string, score: real)
    ensures ValidateReviewSentiment(JObject([("label", JStr(labelText)), ("score", JFloat(score))])).Failure?
    ensures ValidateReviewSentiment(JObject([("review", JStr(review)), ("score", JFloat(score))])).Failure?
    ensures ValidateReviewSentiment(JObject([("review", JStr(review)), ("label", JStr(labelText))])).Failure?
  {
    var a := [("label", JStr(labelText)), ("score", JFloat(score))];
    assert !HasKey(a, "review");
    var b := [("review", JStr(review)), ("score", JFloat(score))];
    assert !HasKey(b, "label");
    var c := [("review", JStr(review)), ("label", JStr(labelText))];
    assert !HasKey(c, "score");
  }
}
