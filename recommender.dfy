/**
 * The book recommender: a client for the Gemini model, built only when the
 * `GEMINI_API_KEY` environment variable holds a non-empty key, and eight
 * recommendation intents, each of which fills its own prompt template and asks
 * the model for a `list[Book]`. The model call is a parameter of type
 * `GeminiBackend`: given the client and the request it either raises (the
 * message) or returns the SDK's `response.parsed`, which may be `None`.
 */
module Recommender {
  import opened Wrappers
  import opened PyRuntime
  import opened RecommendationModel

  const KeyVariable := "GEMINI_API_KEY"

  /** The constructor's error message, spelled as the program spells it. */
  const LoadFailure := "Falied in Loading the model"

  const GeminiModel := "gemini-2.5-flash"

  const JsonMimeType := "application/json"

  datatype Client = Client(apiKey: string)

  /** The recommender holds the client it built; nothing updates it afterwards. */
  datatype BookRecommender = BookRecommender(client: Client)

  /** `BookRecommender()`: the key must be set and non-empty, otherwise `RuntimeError`. */
  function NewBookRecommender(env: map<string, string>): (r: Result<BookRecommender, PyError>)
    ensures r.Success? <==> KeyVariable in env && env[KeyVariable] != ""
    ensures r.Success? ==> r.value.client.apiKey == env[KeyVariable]
    ensures r.Failure? ==> r.error == RuntimeError(LoadFailure)
  {
    if KeyVariable !in env || env[KeyVariable] == "" then Failure(RuntimeError(LoadFailure))
    else Success(BookRecommender(Client(env[KeyVariable])))
  }

  // ---------------------------------------------------------------------------
  // The model call
  // ---------------------------------------------------------------------------

  /** The response schema every intent asks for: `list[Book]`. */
  datatype Schema = BookList

  datatype GenerateRequest = GenerateRequest(model: string, contents: string, responseMimeType: string, responseSchema: Schema)

  /** `client.models.generate_content(...)`: the exception's text, or `response.parsed`. */
  type GeminiBackend = (Client, GenerateRequest) -> Result<Option<seq<Book>>, string>

  /** The request `_generate` sends for a prompt and a schema. */
  function GenerateRequestFor(prompt: string, schema: Schema): (q: GenerateRequest)
    ensures q.model == GeminiModel && q.responseMimeType == JsonMimeType
    ensures q.contents == prompt && q.responseSchema == schema
  {
    GenerateRequest(GeminiModel, prompt, JsonMimeType, schema)
  }

  /**
   * `_generate`: whatever the SDK parsed is returned with no check of its own,
   * `None` included; an exception of the call is raised to the caller.
   */
  function Generate(rec: BookRecommender, prompt: string, schema: Schema, gen: GeminiBackend): (r: Result<Option<seq<Book>>, PyError>)
    ensures var reply := gen(rec.client, GenerateRequestFor(prompt, schema));
      && (reply.Success? ==> r == Success(reply.value))
      && (reply.Failure? ==> r == Failure(ApiError(reply.error)))
  {
    match gen(rec.client, GenerateRequestFor(prompt, schema))
    case Failure(m) => Failure(ApiError(m))
    case Success(parsed) => Success(parsed)
  }

  // ---------------------------------------------------------------------------
  // The eight intents and their prompts
  // ---------------------------------------------------------------------------

  datatype Intent =
    | SimilarBooks | ByAuthor | ByGenre | RelatedTo | ContentBased  // one query string
    | UserPreferred | Collaborative | Hybrid                         // a list of titles

  predicate TakesTitles(intent: Intent) {
    intent.UserPreferred? || intent.Collaborative? || intent.Hybrid?
  }

  /** The text before the inserted argument (the longer ones written in two pieces). */
  function Prefix(intent: Intent): string {
    match intent
    case SimilarBooks => "List books similar to '"
    case ByAuthor => "List books written by author '"
    case ByGenre => "Top books in the genre '"
    case RelatedTo => "Most related books to '"
    case ContentBased => "Content-based recommendations for: "
    case UserPreferred => "Recommend books based on " + "user's purchased list: "
    case Collaborative => "Collaborative filtering " + "recommendations based on: "
    case Hybrid => "Hybrid recommendations " + "(content + collaborative) based on: "
  }

  /** The text after the inserted argument. */
  function Suffix(intent: Intent): string {
    match intent
    case SimilarBooks => "' with title, author, genre, description"
    case ByAuthor => "'"
    case ByGenre => "'"
    case RelatedTo => "'"
    case _ => ""
  }

  /** What a request carries: one query string, or a list of titles. */
  datatype Argument = Query(text: string) | Titles(titles: seq<string>)

  /** The argument a method of the intent takes: `str` for the query intents, `List[str]` for the title intents. */
  predicate Fits(intent: Intent, arg: Argument) {
    TakesTitles(intent) <==> arg.Titles?
  }

  /** The text put into the template: the query as it is, or the titles joined with ", ". */
  function Inserted(arg: Argument): string {
    match arg
    case Query(text) => text
    case Titles(titles) => Join(", ", titles)
  }

  /** The prompt an intent sends for an argument. */
  function Prompt(intent: Intent, arg: Argument): string
    requires Fits(intent, arg)
  {
    Prefix(intent) + Inserted(arg) + Suffix(intent)
  }

  /**
   * `similar_books`, `by_author`, `by_genre`, `related_to`, `content_based`,
   * `user_preferred`, `collaborative` and `hybrid`: fill the intent's template
   * and ask for `list[Book]`.
   */
  function Recommend(rec: BookRecommender, intent: Intent, arg: Argument, gen: GeminiBackend): (r: Result<Option<seq<Book>>, PyError>)
    requires Fits(intent, arg)
    ensures var reply := gen(rec.client, GenerateRequest(GeminiModel, Prompt(intent, arg), JsonMimeType, BookList));
      && (reply.Success? ==> r == Success(reply.value))
      && (reply.Failure? ==> r == Failure(ApiError(reply.error)))
  {
    Generate(rec, Prompt(intent, arg), BookList, gen)
  }

  // ---------------------------------------------------------------------------
  // What the prompts promise
  // ---------------------------------------------------------------------------

  /** The first twelve characters of each template, all different. */
  function Key(intent: Intent): (k: string)
    ensures |k| == 12
  {
    match intent
    case SimilarBooks => "List books s"
    case ByAuthor => "List books w"
    case ByGenre => "Top books in"
    case RelatedTo => "Most related"
    case ContentBased => "Content-base"
    case UserPreferred => "Recommend bo"
    case Collaborative => "Collaborativ"
    case Hybrid => "Hybrid recom"
  }

  function IntentOfKey(k: string): (r: Option<Intent>)
    ensures r.Some? ==> Key(r.value) == k
  {
    if k == Key(SimilarBooks) then Some(SimilarBooks)
    else if k == Key(ByAuthor) then Some(ByAuthor)
    else if k == Key(ByGenre) then Some(ByGenre)
    else if k == Key(RelatedTo) then Some(RelatedTo)
    else if k == Key(ContentBased) then Some(ContentBased)
    else if k == Key(UserPreferred) then Some(UserPreferred)
    else if k == Key(Collaborative) then Some(Collaborative)
    else if k == Key(Hybrid) then Some(Hybrid)
    else None
  }

  /** The intent whose template a prompt follows, and the text inserted into it. */
  function ParsePrompt(p: string): Option<(Intent, string)> {
    if |p| < 12 then None
    else match IntentOfKey(p[..12])
      case None => None
      case Some(intent) =>
        var pre, suf := Prefix(intent), Suffix(intent);
        if |pre| + |suf| <= |p| && p[..|pre|] == pre && p[|p| - |suf|..] == suf
        then Some((intent, p[|pre|..|p| - |suf|]))
        else None
  }

  /** Each key is where its template starts. */
  lemma KeyStartsPrefix(intent: Intent)
    ensures 12 <= |Prefix(intent)| && Key(intent) == Prefix(intent)[..12]
  {
  }

  /** The first and the last character of a key already tell the intents apart. */
  lemma KeySignature(a: Intent, b: Intent)
    requires Key(a)[0] == Key(b)[0] && Key(a)[11] == Key(b)[11]
    ensures a == b
  {
  }

  lemma KeysDistinct(intent: Intent)
    ensures IntentOfKey(Key(intent)) == Some(intent)
  {
    forall other: Intent | Key(other) == Key(intent) ensures other == intent {
      KeySignature(other, intent);
    }
  }

  /** A prompt names its intent and its inserted text: parsing it gives both back. */
  lemma PromptRoundTrip(intent: Intent, arg: Argument)
    requires Fits(intent, arg)
    ensures ParsePrompt(Prompt(intent, arg)) == Some((intent, Inserted(arg)))
  {
    var pre, text, suf := Prefix(intent), Inserted(arg), Suffix(intent);
    var p := pre + text + suf;
    assert p == Prompt(intent, arg);
    KeyStartsPrefix(intent);
    assert IntentOfKey(p[..12]) == Some(intent) by {
      assert p[..12] == pre[..12];
      KeysDistinct(intent);
    }
    assert p[..|pre|] == pre;
    assert p[|p| - |suf|..] == suf;
    assert p[|pre|..|p| - |suf|] == text;
  }

  /** Different intents never produce the same prompt, and one intent produces one prompt per inserted text. */
  lemma PromptInjective(i1: Intent, a1: Argument, i2: Intent, a2: Argument)
    requires Fits(i1, a1) && Fits(i2, a2)
    requires Prompt(i1, a1) == Prompt(i2, a2)
    ensures i1 == i2 && Inserted(a1) == Inserted(a2)
  {
    PromptRoundTrip(i1, a1);
    PromptRoundTrip(i2, a2);
  }

  /** A query intent embeds the query verbatim, unescaped, between its template's two parts. */
  lemma QueryVerbatim(intent: Intent, query: string)
    requires !TakesTitles(intent)
    ensures var p := Prompt(intent, Query(query));
      && p[..|Prefix(intent)|] == Prefix(intent)
      && p[|Prefix(intent)|..|Prefix(intent)| + |query|] == query
      && p[|Prefix(intent)| + |query|..] == Suffix(intent)
  {
  }

  /** An empty title list is no error: the prompt is the template's prefix with nothing after it. */
  lemma EmptyTitlesPrompt(intent: Intent)
    requires TakesTitles(intent)
    ensures Prompt(intent, Titles([])) == Prefix(intent)
  {
  }

  /** Titles keep their order: one more title appends ", " and that title to the prompt. */
  lemma TitlesInOrder(intent: Intent, titles: seq<string>, title: string)
    requires TakesTitles(intent) && titles != []
    ensures Prompt(intent, Titles(titles + [title])) == Prompt(intent, Titles(titles)) + ", " + title
  {
    JoinAppend(", ", titles, title);
  }

  /** A title that itself contains ", " reads as two titles: the prompt does not tell the lists apart. */
  lemma TitlesAmbiguous(intent: Intent, x: string, y: string)
    requires TakesTitles(intent)
    ensures Prompt(intent, Titles([x + ", " + y])) == Prompt(intent, Titles([x, y]))
  {
    JoinAppend(", ", [x], y);
    assert [x] + [y] == [x, y];
  }
}
