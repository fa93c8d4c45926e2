# Book recommendation and sentiment analysis — a Dafny model

This project models the core of a small book service. It has three parts:

- **A FastAPI backend with two sentiment endpoints.**
  - `POST /sentiment/single` sends one review to a Groq-hosted chat model (`llama3-70b-8192`) and maps the result or the exception to a `SingleResponse`.
  - `POST /sentiment/batch` runs the batch orchestrator `analyze_batch`. It cuts the reviews into consecutive chunks of 25 and asks the model once per chunk. Each chunk contributes the model's items; or one error placeholder per review; or, when a returned item is not a dict, the entries for the items before it followed by one placeholder per review.
- **Eight book-recommendation routes.** Each builds a fixed prompt for a Gemini model (`gemini-2.5-flash`) and asks for a `list[Book]`.
- **The pydantic records of the API**, plus the text normalisation and label encoding of the training pipeline (`clean_text` and the positive/negative map).

The network clients are parameters of the model:

- `ChatBackend` is the Groq chat call: prompt → reply text or failure.
- `JsonLoads` is `json.loads`.
- `GeminiBackend` is the Gemini call: client and request → parsed book list, `None`, or failure.
- `Sentiment.BatchClient` is what `analyze_batch` calls per chunk. `Api` binds it to the real batch call through `Sentiment.GroqBatch`.

Python values that cross these boundaries are modelled as a `Json` datatype, and Python exceptions as a `PyError` datatype (`PyRuntime`).

Modules, in dependency order:

| file | module | models |
|---|---|---|
| wrappers.dfy | Wrappers | `Option`, `Result` |
| pyruntime.dfy | PyRuntime | `str.strip`, `"\n".join`, dict lookup and `x["k"]`, iteration, exception texts |
| groq_sentiment.dfy | GroqSentiment | `backend/core/util/utill.py` |
| sentiment_model.dfy | SentimentModel | `backend/models/sentiment_model.py` |
| recommendation_model.dfy | RecommendationModel | `backend/models/recommendation_model.py` |
| sentiment.dfy | Sentiment | `backend/core/sentiment.py` |
| recommender.dfy | Recommender | `backend/core/util/recommender.py` |
| api.dfy | Api | `backend/main.py` |
| preprocess.dfy | Preprocess | `clean_text` and the label map of `pipeline/preprocess.py` |

`analyze_batch` is imperative in the source: it appends to a list inside nested loops. Here it is a `method` with `while` loops, `Sentiment.AnalyzeBatch`, proved equal to the specification function `Sentiment.BatchResults`. Everything the source promises about the batch output is proved about that function.

Where the code and its documentation disagree, the model follows the code:

- **The output length is conditional.** The batch output has exactly one entry per input review only when every successful model call returns as many items as its chunk had. Without that condition a reply can shorten or lengthen the output (`Sentiment.ShortReplyShortensOutput`, `Sentiment.PartialReplyLengthensOutput`).
- **Items are not validated.** Batch items are never checked against `ReviewSentiment`, so an out-of-range score or an unknown label passes through (`Sentiment.BatchSkipsValidation`).
- **A single response need not carry exactly one outcome.** It can have neither a label nor an error (`Api.SingleEmptyObject`).
- **`Book.rating` is unconstrained** despite its "out of 5" description (`RecommendationModel.RatingUnbounded`).
- **A missing key stops the whole application.** Importing `main` first builds the Groq client (`backend/core/util/utill.py:12`), then the recommender (`backend/main.py:12`). So a missing `GROQ_API_KEY` stops every route, the recommendation routes included (`Api.MissingGroqKeyStopsEverything`). A missing or empty `GEMINI_API_KEY` stops every route, the sentiment routes included (`Api.MissingKeyStopsEverything`).

## Model

| member | source | states |
|---|---|---|
| PyRuntime.StripLeft | backend/core/util/utill.py:37 | the result is a suffix of the input that does not start with whitespace, and everything removed is whitespace |
| PyRuntime.StripRight | backend/core/util/utill.py:37 | the result is a prefix of the input that does not end with whitespace, and everything removed is whitespace |
| PyRuntime.StripSlice | backend/core/util/utill.py:37 | `strip()` returns a contiguous slice of its input |
| PyRuntime.StripEnds | backend/core/util/utill.py:37 | the stripped text neither starts nor ends with whitespace |
| PyRuntime.StripTrailing | backend/core/util/utill.py:37 | everything `strip()` removes, on either side, is whitespace |
| PyRuntime.StripKeepsCore | backend/core/util/utill.py:37 | all three facts above together: a slice with whitespace-free ends, only whitespace removed |
| PyRuntime.JoinAppend | backend/core/util/utill.py:54 | joining one more element adds the separator and that element at the end |
| PyRuntime.SplitLines | backend/core/util/utill.py:54 | splitting at newlines gives at least one line, and no line contains a newline |
| PyRuntime.JoinSplitLines | backend/core/util/utill.py:54 | joining the split lines with `"\n"` gives back the text |
| PyRuntime.SplitJoinLines | backend/core/util/utill.py:54 | splitting a newline-join of newline-free lines gives back the lines (the inverse direction) |
| PyRuntime.DictGet | backend/core/sentiment.py:18-20 | `dict.get` yields `None` for a missing key, and otherwise a value stored under that key |
| PyRuntime.DictGetAt | backend/core/sentiment.py:18-20 | `dict.get` returns the value of the last occurrence of the key |
| PyRuntime.DictKeys | backend/core/sentiment.py:16 | iterating a dict visits exactly the keys present, each once |
| PyRuntime.FailingFields | backend/models/sentiment_model.py:36-43 | the list of failing fields is empty iff every field check passes, and it names exactly the fields whose check failed |
| PyRuntime.NatToString | backend/models/sentiment_model.py:25-26 | a list index prints as the decimal digits that denote it, with no leading zero, and 0 prints as "0", as `str(int)` writes it |
| PyRuntime.Iterate | backend/core/sentiment.py:16 | iterating succeeds only on a list, a string or a dict; a list yields its items, a string its characters one by one, and a dict its keys |
| PyRuntime.Subscript | backend/core/util/utill.py:65 | `raw["reviews"]` succeeds iff `raw` is a dict holding the key, returns that entry, and raises `KeyError` for a dict without it |
| GroqSentiment.SinglePrompt | backend/core/util/utill.py:18-28 | the single prompt is the fixed header, then the review verbatim and unescaped, then the closing quote and a newline |
| GroqSentiment.BatchLines | backend/core/util/utill.py:54 | one line `"- " + r` per review, in input order |
| GroqSentiment.BatchPromptSmall | backend/core/util/utill.py:40-54 | with no reviews the prompt is exactly the header, which ends in `"Reviews:\n"`; one review gives header + `"- "` + review |
| GroqSentiment.BatchPromptAppend | backend/core/util/utill.py:40-54 | one more review appends `"\n- "` and that review, so the reviews appear in order |
| GroqSentiment.BatchPromptRoundTrip | backend/core/util/utill.py:40-54 | the reviews can be read back from the batch prompt when none contains a newline |
| GroqSentiment.BatchPromptAmbiguous | backend/core/util/utill.py:54 | a review containing `"\n- "` yields the same prompt as two reviews, because nothing is escaped |
| GroqSentiment.SingleCallOutcomes | backend/core/util/utill.py:30-37 | the single call sends the single prompt; it succeeds iff the reply arrives and parses after stripping, and it then returns the parsed value, whatever its shape; it raises only client and parse errors, and a client error carries the client's text |
| GroqSentiment.BatchCallOutcomes | backend/core/util/utill.py:56-65 | the batch call sends the batch prompt; it succeeds iff the reply arrives, parses after stripping, and is a dict with `"reviews"`, and it then returns exactly that entry; its only failures are client, parse, `KeyError` and `TypeError` |
| GroqSentiment.SubscriptFailures | backend/core/util/utill.py:65 | subscripting raises only `KeyError` or `TypeError` |
| GroqSentiment.BatchCallParsed | backend/core/util/utill.py:63-65 | once the reply parses, the result is `raw["reviews"]` |
| GroqSentiment.BatchReplyParsed | backend/core/util/utill.py:63-65 | the same, stated for the reply value |
| GroqSentiment.MissingReviewsKey | backend/core/util/utill.py:65 | a reply parsing to a dict without `"reviews"` raises `KeyError('reviews')`, whose text is `'reviews'` |
| SentimentModel.ParseLabel | backend/models/sentiment_model.py:29-34 | a recognised string is a label's value, and an unrecognised one is no label's value |
| SentimentModel.LabelRoundTrip | backend/models/sentiment_model.py:29-34 | each of the five labels parses back from its string |
| SentimentModel.ValidateReviewSentiment | backend/models/sentiment_model.py:36-43 | an accepted judgment is a dict whose `review`, `label` and `score` fields hold the record's values, and its score lies in range; a rejection is a `ValidationError` for `ReviewSentiment` |
| SentimentModel.ValidateJudgmentIff | backend/models/sentiment_model.py:38-43 | a judgment is accepted iff its label is one of the five values and -1.0 <= score <= 1.0, and it is then accepted with exactly those values |
| SentimentModel.ValidateRejectsExamples | backend/models/sentiment_model.py:38-43 | score 1.5 and label "Mixed" are rejected, and both inclusive bounds are accepted |
| SentimentModel.ValidateNeedsAllFields | backend/models/sentiment_model.py:37-39 | leaving out any one of `review`, `label`, `score` is rejected |
| RecommendationModel.ValidateBook | backend/models/recommendation_model.py:5-11 | an accepted book holds all six of the dict's values: the three required strings; `description`, `publication_year` and `rating` are `None` iff null or missing, and otherwise the dict's string, integer and number; a rejection is a `ValidationError` for `Book` |
| RecommendationModel.ValidateBookIff | backend/models/recommendation_model.py:5-11 | a dict is accepted iff `title`, `author` and `genre` are strings, `description` is null or a string, `publication_year` is null or an integer, and `rating` is null or a number |
| RecommendationModel.RequiredFieldsSuffice | backend/models/recommendation_model.py:6-11 | the three required fields alone make a book, and the optional ones default to `None` |
| RecommendationModel.TitleRequired | backend/models/recommendation_model.py:6 | a book without a title is rejected |
| RecommendationModel.RatingUnbounded | backend/models/recommendation_model.py:11 | every rating, whatever its value, is accepted unchanged: the rating has no range constraint |
| Sentiment.ChunksCons | backend/core/sentiment.py:11-12 | the first chunk is the first `min(25, n)` reviews, and the rest chunk the remainder |
| Sentiment.ChunksFlatten | backend/core/sentiment.py:11-12 | the chunks, concatenated, are the input |
| Sentiment.ChunksCount | backend/core/sentiment.py:11 | there are ceil(n / 25) chunks |
| Sentiment.ChunksSizes | backend/core/sentiment.py:11-12 | every chunk has 1 to 25 reviews, and all but the last have exactly 25 |
| Sentiment.ChunksSlices | backend/core/sentiment.py:11-12 | chunk i is `reviews[25*i : 25*i+25]` |
| Sentiment.ChunksPartition | backend/core/sentiment.py:11-12 | all of the chunking facts above together |
| Sentiment.ChunkBoundaries | backend/core/sentiment.py:11-12 | 0 reviews give no chunk, 25 give one, 26 give (25, 1), and 60 give (25, 25, 10) |
| Sentiment.Placeholders | backend/core/sentiment.py:25-31 | a failed chunk yields one placeholder per review, in chunk order |
| Sentiment.ItemEntries | backend/core/sentiment.py:16-22 | one entry per returned item, in the backend's order |
| Sentiment.DictPrefix | backend/core/sentiment.py:16-22 | the items processed before `item.get` raises are all dicts, and the next one is not |
| Sentiment.AnalyzeSingle | backend/core/sentiment.py:5-7 | `analyze_single` returns the single call's result unchanged: no wrapping, and no errors caught |
| Sentiment.NextChunk | backend/core/sentiment.py:11-31 | the results from position `start` onward are this chunk's contribution followed by those of the remaining chunks |
| Sentiment.AnalyzeBatch | backend/core/sentiment.py:9-32 | the loop's output equals the chunk-by-chunk specification `BatchResults` |
| Sentiment.AppendChunk | backend/core/sentiment.py:13-31 | one chunk appends exactly its contribution to the results so far |
| Sentiment.AppendItems | backend/core/sentiment.py:16-22 | the inner loop appends one entry per item until an item that is not a dict raises, and reports that failure |
| Sentiment.AppendPlaceholders | backend/core/sentiment.py:24-31 | the except branch appends one placeholder per review of the chunk |
| Sentiment.FailedChunkPlaceholders | backend/core/sentiment.py:24-31 | a failed chunk contributes exactly one entry per review, in order; each echoes its input review, with label and score `None` and the exception text as error |
| Sentiment.SuccessfulChunkEntries | backend/core/sentiment.py:14-22 | a successful chunk contributes one entry per item, in the backend's order, with review, label and score copied from the item and error `None` |
| Sentiment.PartialChunkEntries | backend/core/sentiment.py:14-31 | an item that is not a dict raises after earlier items were appended; the chunk then contributes those entries followed by placeholders for the whole chunk |
| Sentiment.ChunkLengthIff | backend/core/sentiment.py:16-31 | a chunk contributes as many entries as it has reviews iff it failed or returned exactly that many dict items |
| Sentiment.AlignedChunkPositions | backend/core/sentiment.py:14-31 | in an aligned chunk, an errored entry at position t is the placeholder for review t |
| Sentiment.ChunkResultsSingle | backend/core/sentiment.py:11-31 | a single chunk contributes its own entries |
| Sentiment.ChunkResultsAppend | backend/core/sentiment.py:11-31 | chunk outputs are appended in chunk order |
| Sentiment.ChunkResultsAgree | backend/core/sentiment.py:11-31 | the output depends only on the backend's answers for the chunks actually sent |
| Sentiment.FailureIsolation | backend/core/sentiment.py:11-31 | changing only chunk k's answer, to a failure or anything else, leaves the output before and after chunk k's contribution unchanged |
| Sentiment.ChunkResultsSplit | backend/core/sentiment.py:11-31 | the output is everything before chunk k, then chunk k's contribution, then everything after it |
| Sentiment.Contributions | backend/core/sentiment.py:11-31 | one contribution per chunk, each that chunk's entries |
| Sentiment.ChunkResultsFlatten | backend/core/sentiment.py:16-32 | the output is the concatenation of the per-chunk contributions, so its length is their sum |
| Sentiment.AlignedLength | backend/core/sentiment.py:16-32 | if every chunk is aligned, the output has one entry per input |
| Sentiment.AlignedPosition | backend/core/sentiment.py:16-32 | if every chunk is aligned, entry 25*i+t is chunk i's entry t |
| Sentiment.ChunkOffset | backend/core/sentiment.py:11-12 | review t of chunk i is input review 25*i+t |
| Sentiment.ReviewChunk | backend/core/sentiment.py:11-12 | input review j sits in chunk j/25 at position j%25: that chunk element is review j |
| Sentiment.BatchAligned | backend/core/sentiment.py:9-32 | when every successful call returns one dict per review, the output has one entry per input, and each errored entry j is the placeholder for input review j |
| Sentiment.BatchPosition | backend/core/sentiment.py:9-32 | under the same condition, entry 25*i+t is chunk i's entry t |
| Sentiment.BatchLength | backend/core/sentiment.py:9-32 | under the same condition, `len(out) == len(in)` |
| Sentiment.BatchEntryAt | backend/core/sentiment.py:24-31 | under the same condition, an errored entry j echoes input review j with no label and no score |
| Sentiment.ClientDownEntries | backend/core/sentiment.py:24-31 | when every call fails, every entry is a placeholder |
| Sentiment.ClientDownBatch | backend/core/sentiment.py:24-32 | when every call fails, the output has one placeholder per input review, in order, echoing it |
| Sentiment.OneChunkReply | backend/core/sentiment.py:11-22 | at most 25 reviews are sent in one call, and the output is that call's contribution |
| Sentiment.EmptyReplyDropsChunk | backend/core/sentiment.py:16 | an empty list, empty string or empty dict reply contributes nothing |
| Sentiment.ShortReplyShortensOutput | backend/core/sentiment.py:16-22 | a reply with no items for one review yields an empty output: the length is not preserved |
| Sentiment.JudgmentEntry | backend/core/sentiment.py:17-22 | a judgment item becomes an entry with its own review, label and score, and no error |
| Sentiment.PartialReplyLengthensOutput | backend/core/sentiment.py:16-31 | a reply `[judgment, null]` for two reviews yields three entries: the output can be longer than the input |
| Sentiment.NullItemChunk | backend/core/sentiment.py:16-31 | the chunk-level form of the same: one entry, then two placeholders |
| Sentiment.OneJudgmentReply | backend/core/sentiment.py:14-22 | a one-judgment reply is copied into the output unchanged |
| Sentiment.BatchSkipsValidation | backend/core/util/utill.py:65 | a judgment with label "Mixed" and score 1.5 passes through the batch unchanged, although `ReviewSentiment` rejects it |
| GroqSentiment.NewGroqClient | backend/core/util/utill.py:12 | the module-level client is built iff `GROQ_API_KEY` is set, and then holds it; otherwise the client library's error is raised |
| Recommender.NewBookRecommender | backend/core/util/recommender.py:17-21 | construction succeeds iff `GEMINI_API_KEY` is set and non-empty, and the client then holds that key; otherwise it raises `RuntimeError` with the program's message |
| Recommender.GenerateRequestFor | backend/core/util/recommender.py:24-31 | every request names `gemini-2.5-flash`, JSON output, the given prompt and the given schema |
| Recommender.Generate | backend/core/util/recommender.py:23-33 | `_generate` returns the backend's parsed value, `None` included, without further checks, and raises what the backend raises |
| Recommender.Recommend | backend/core/util/recommender.py:35-68 | every intent asks with its own prompt for the schema `list[Book]` |
| Recommender.PromptRoundTrip | backend/core/util/recommender.py:35-68 | the intent and the inserted text can be read back from any prompt |
| Recommender.PromptInjective | backend/core/util/recommender.py:35-68 | equal prompts come from the same intent with the same inserted text |
| Recommender.QueryVerbatim | backend/core/util/recommender.py:35-58 | a query intent inserts its argument verbatim into its fixed template |
| Recommender.EmptyTitlesPrompt | backend/core/util/recommender.py:51-68 | an empty titles list gives just the fixed prefix, with no error |
| Recommender.TitlesInOrder | backend/core/util/recommender.py:51-68 | one more title appends `", "` and that title, so titles appear in input order |
| Recommender.TitlesAmbiguous | backend/core/util/recommender.py:51-68 | a title containing `", "` gives the same prompt as two titles |
| Api.MakeResult | backend/models/sentiment_model.py:10-23 | a response record is built iff `review` is a string and `label`/`score` are `None` or of the right type; it then carries exactly those values; otherwise it is a `ValidationError` for that model |
| Api.SentimentSingle | backend/main.py:14-20 | the response always echoes the request's review; an error means no label and no score; there is no error iff the call returned a dict whose `label` and `score` have acceptable types, and the response then carries that dict's `label` and `score` |
| Api.SingleAnswerFor | backend/main.py:16-20 | the same mapping, stated for any outcome of `analyze_single`, with `label` and `score` copied from the result on success |
| Api.SingleFailureReported | backend/main.py:19-20 | an exception becomes `(review, None, None, str(e))` |
| Api.SingleJudgment | backend/main.py:16-18 | a judgment becomes `(request review, label, score, None)`, whatever review the model echoed |
| Api.SingleListReply | backend/main.py:18-20 | a list reply is reported as `'list' object has no attribute 'get'` |
| Api.ListHasNoGet | backend/main.py:18-20 | the text of that error |
| Api.SingleEmptyObject | backend/main.py:16-18 | an empty dict reply gives neither a label nor an error: the response need not carry exactly one outcome |
| Api.ToItem | backend/models/sentiment_model.py:19-23 | a valid entry becomes an item with the same review, label, score and error |
| Api.EntryFailures | backend/models/sentiment_model.py:25-26 | no entry location is reported iff every entry is a valid `BatchResponseItem` |
| Api.SentimentBatch | backend/main.py:22-25 | the response wraps `analyze_batch`'s list unchanged, or raises a `ValidationError` for `BatchResponse` |
| Api.BatchAnswerFor | backend/main.py:25 | the wrap succeeds iff every entry is a valid item; it then keeps the list's length and order; otherwise it is a `ValidationError` for `BatchResponse` |
| Api.BatchResponseAligned | backend/main.py:22-25 | when every chunk is aligned, the response has one item per review, and an errored item j echoes review j |
| Api.ClientDownResponse | backend/main.py:22-25 | when the model is unreachable, the response has one error item per review, in order |
| Api.EmptyBatch | backend/main.py:22-25 | an empty request makes an empty response |
| Api.MissingReviewFailsBatch | backend/main.py:22-25 | a model item without `review` makes the whole batch endpoint fail |
| Api.MissingReviewFailsItems | backend/main.py:25 | the same failure, at the level of the wrapped list |
| Api.IntentOfSlug | backend/main.py:34-64 | a recognised route suffix belongs to that intent |
| Api.RouteOf | backend/main.py:14-64 | a recognised path is that route's path |
| Api.RouteTable | backend/main.py:14-64 | every route is recognised from its own path: the ten routes are distinct |
| Api.Startup | backend/main.py:4-12 | the application starts iff the Groq client and then the recommender can be built; a missing Groq key raises the client library's error first; otherwise a missing Gemini key raises the `RuntimeError` |
| Api.Handle | backend/main.py:14-64 | the single route always answers, the batch route answers with `sentiment_batch`'s response or fails with its error, and a recommendation route returns the recommender's outcome, failures included, because nothing is caught |
| Api.MissingKeyStopsEverything | backend/main.py:12 | with the Groq key set, a missing or empty `GEMINI_API_KEY` makes every request fail with the constructor's `RuntimeError`, sentiment requests included |
| Api.MissingGroqKeyStopsEverything | backend/main.py:4 | without `GROQ_API_KEY` every request fails with the Groq client's error, recommendation requests included |
| Api.SentimentIndependentOfGemini | backend/main.py:14-25 | the sentiment endpoints do not depend on the Gemini backend |
| Preprocess.LowerChar | pipeline/preprocess.py:14 | an ASCII capital lowers to its small letter 32 code points up, U+0130 to "i\u0307", U+212A to "k", and every other character stays as it is; no ASCII capital is left |
| Preprocess.LowerHasNoCapitals | pipeline/preprocess.py:14 | `str.lower()` leaves no ASCII capital |
| Preprocess.FilterKeeps | pipeline/preprocess.py:14 | after lowering, the character filter keeps only a–z and whitespace |
| Preprocess.CollapseShape | pipeline/preprocess.py:15 | collapsing whitespace runs leaves only a–z and single spaces |
| Preprocess.StripClean | pipeline/preprocess.py:15 | stripping such text leaves no leading or trailing space |
| Preprocess.CleanTextIsClean | pipeline/preprocess.py:13-16 | the output of `clean_text` contains only a–z and single spaces, with none at either end |
| Preprocess.LowerFixed | pipeline/preprocess.py:14 | lowering leaves clean text unchanged |
| Preprocess.FilterFixed | pipeline/preprocess.py:14 | filtering leaves clean text unchanged |
| Preprocess.CollapseFixed | pipeline/preprocess.py:15 | collapsing leaves text with no double space unchanged |
| Preprocess.SpacingFixed | pipeline/preprocess.py:15 | collapsing and stripping leave clean text unchanged |
| Preprocess.CleanFixed | pipeline/preprocess.py:13-16 | `clean_text` leaves clean text unchanged |
| Preprocess.CleanIdempotent | pipeline/preprocess.py:13-16 | `clean_text(clean_text(t)) == clean_text(t)` |
| Preprocess.LowerAppend | pipeline/preprocess.py:14 | lowering works character by character |
| Preprocess.FilterAppend | pipeline/preprocess.py:14 | filtering works character by character |
| Preprocess.LowerAround | pipeline/preprocess.py:14 | lowering keeps a character that is not a capital in place |
| Preprocess.FilterAround | pipeline/preprocess.py:14 | a character outside letters and whitespace is deleted |
| Preprocess.DeletedWithoutSpace | pipeline/preprocess.py:14-15 | deleting a punctuation character inserts no space |
| Preprocess.ContractionKept | pipeline/preprocess.py:14 | lowering and filtering a lower-case contraction with `!` leaves the two words joined |
| Preprocess.ContractionJoins | pipeline/preprocess.py:13-16 | `clean_text` joins the contraction's two parts and drops the `!` (as in "don't!" → "dont") |
| Preprocess.CapitalWordCleans | pipeline/preprocess.py:13-16 | a capitalised word comes out lower-cased |
| Preprocess.CleansTo | pipeline/preprocess.py:13-16 | when lowering and filtering already give clean text, that text is the result |
| Preprocess.DottedCapitalI | pipeline/preprocess.py:14 | U+0130 cleans to "i", because its lower-case form is "i" followed by a combining dot, which the filter deletes |
| Preprocess.KelvinSign | pipeline/preprocess.py:14 | the Kelvin sign U+212A cleans to "k" |
| Preprocess.EncodeLabel | pipeline/preprocess.py:29-32 | the code is 1 iff the label is "positive", 0 iff it is "negative", and there is no other code |
| Preprocess.Encoded | pipeline/preprocess.py:29-35 | dropping rows never adds rows |
| Preprocess.EncodedShape | pipeline/preprocess.py:26-35 | every example's label is 0 or 1 and its text is clean |
| Preprocess.EncodedCounts | pipeline/preprocess.py:29-35 | the kept rows are exactly the positive and the negative rows, counted separately by label |
| Preprocess.EncodedCount | pipeline/preprocess.py:29-35 | one label's count equals the number of rows with that sentiment |
| Preprocess.EncodedLength | pipeline/preprocess.py:29-35 | the number of kept rows is the number of positive rows plus the number of negative rows |
| Preprocess.EncodedCons | pipeline/preprocess.py:26-35 | a kept first row heads the output, with that row's `clean_text` and that row's code; a dropped one adds nothing |
| Preprocess.EncodedRowwise | pipeline/preprocess.py:26-35 | the output is, in frame order, exactly what each row yields on its own: that row's cleaned text paired with that row's code, or nothing when the label is dropped |
| Preprocess.OtherLabelsDropped | pipeline/preprocess.py:34-35 | a row whose sentiment is neither "positive" nor "negative", or missing, is dropped |
| Preprocess.PrepareExamples | pipeline/preprocess.py:22-35 | a frame without `review/text` raises `ValueError` with the program's message; a frame without `Sentiment` raises `KeyError`; otherwise the result is the encoded rows: each kept row's own cleaned text and code, in row order, one per positive or negative review |

## Left out

- The Groq and Gemini network calls are parameters (`ChatBackend`, `GeminiBackend`), not modelled code. Of the Groq client's construction, only the key check is modelled (`GroqSentiment.NewGroqClient`). Its error text is the client library's own, and that library is not part of this model.
- `Sentiment.FailureIsolation` and `Sentiment.BatchClient`: the per-chunk call is a function of the chunk's reviews, and the chat backend is a function of the prompt. Two chunks with the same reviews therefore always get the same answer. A run where one fails transiently and an identical one succeeds is not represented, and `Sentiment.FailureIsolation` cannot vary the answer of a chunk whose reviews equal another chunk's.
- Temperature and `response_format` are not modelled, and neither are the retries, time-outs and content filtering of those services.
- Async/await, FastAPI and uvicorn wiring, the 422 errors FastAPI raises for malformed request bodies, and dotenv loading are not modelled. A request reaches a handler already shaped as its payload type (`Api.PayloadFits`).
- `Api.Handle`: a recommendation route's `response_model=List[Book]` re-validation is not modelled. The route returns the recommender's value as it is, and `None` stays `None`.
- Pydantic's lax coercions other than an integer accepted as a float (a numeric string accepted as a number, a float with no fractional part accepted as an integer, and so on) are left out. A string field accepts only a string, an integer field only an integer, and a float field an integer or a float.
- The text of pydantic's validation messages is modelled only as the model name plus the failing field locations.
- `Recommender.Generate`: `response.parsed` is modelled only as a list of valid books, `None`, or a raised error. Any other shape the SDK might hand back is not modelled.
- `BookRecommender` is a datatype, not a class. Its only field, `client`, is set once in `__init__` and never updated.
- The reply's `message.content` being `None`, and the `AttributeError` that `.strip()` would then raise, are not modelled. The chat backend returns text or fails.
- `ReviewSentimentList` is imported but never used, so it is not modelled.
- `analyze_batch` calls `groq_sentiment_batch` directly. In the model, the orchestrator receives that call as the `Sentiment.BatchClient` parameter, and `Api` supplies `GroqBatch(chat, loads)`.
- `Sentiment.FailureIsolation` and `Sentiment.ChunkResultsAgree` are stated over the per-chunk client results, not over the chat replies behind them.
- The TF-IDF vectoriser, CSV reading and writing, and the joblib dump of `pipeline/preprocess.py` are left out. So are `print` statements, the training script, the dashboards and the launcher.
- `Preprocess.LowerChar`: `str.lower()` is exact for ASCII, U+0130 and U+212A. For other non-ASCII characters the model keeps the character unchanged. That agrees with Python wherever the result matters. The filter deletes every non-ASCII character except whitespace. No other non-ASCII character lowers to an ASCII letter or to whitespace, and whitespace lowers to itself.
- Non-string cells of the review column other than a missing value, which `str()` turns into "nan", are not modelled.
- Floating-point scores are `real`. Only comparisons with the bounds -1.0 and 1.0 are involved.
