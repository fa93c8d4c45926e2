/**
 * The batch orchestrator: `analyze_batch` walks the reviews in consecutive
 * chunks of at most 25, sends each chunk to the sentiment client and appends one
 * dict per item the client returned, or, when anything in that step raises, one
 * placeholder per review of the chunk that carries the exception's text. The
 * method is proved against `BatchResults`, and the lemmas below state what that
 * specification promises: partition, order, coverage of failed chunks,
 * isolation of failures, and when the output is as long as the input.
 */
module Sentiment {
  import opened Wrappers
  import opened PyRuntime
  import opened GroqSentiment
  import opened SentimentModel

  const ChunkSize: nat := 25

  /**
   * One dict of the list `analyze_batch` returns: `review`, `label` and `score`
   * hold whatever the backend item held (`None` when absent), `error` the text of
   * the exception that failed the chunk.
   */
  datatype Entry = Entry(review: Json, labelValue: Json, score: Json, error: Option<string>)

  /** What `groq_sentiment_batch(chunk)` returns or raises, as the orchestrator sees it. */
  type BatchClient = seq<string> -> Result<Json, PyError>

  /** The batch client `analyze_batch` imports: the batch call over a chat backend and a JSON parser. */
  function GroqBatch(chat: ChatBackend, loads: JsonLoads): BatchClient {
    chunk => SentimentBatchCall(chunk, chat, loads)
  }

  function Min(a: int, b: int): int {
    if a < b then a else b
  }

  // ---------------------------------------------------------------------------
  // Chunks
  // ---------------------------------------------------------------------------

  /** `reviews[start : start + 25]` for `start` in `range(0, len(reviews), 25)`. */
  function Chunks(reviews: seq<string>): seq<seq<string>>
    decreases |reviews|
  {
    if reviews == [] then []
    else if |reviews| <= ChunkSize then [reviews]
    else [reviews[..ChunkSize]] + Chunks(reviews[ChunkSize..])
  }

  /** The concatenation of a list of lists, in order. */
  function Flatten<T>(xss: seq<seq<T>>): seq<T> {
    if xss == [] then [] else xss[0] + Flatten(xss[1..])
  }

  /** Lists of equal lengths, element by element, flatten to equal lengths. */
  lemma {:induction false} FlattenLength<S, T>(xss: seq<seq<S>>, yss: seq<seq<T>>)
    requires |xss| == |yss|
    requires forall k :: 0 <= k < |xss| ==> |xss[k]| == |yss[k]|
    ensures |Flatten(xss)| == |Flatten(yss)|
  {
    if xss != [] {
      FlattenLength(xss[1..], yss[1..]);
    }
  }

  /** When all lists but the last hold 25 elements, element 25 * i + t of the concatenation is element t of list i. */
  lemma {:induction false} FlattenAt<T>(xss: seq<seq<T>>, i: nat, t: nat)
    requires forall k :: 0 <= k < |xss| - 1 ==> |xss[k]| == ChunkSize
    requires i < |xss| && t < |xss[i]|
    ensures ChunkSize * i + t < |Flatten(xss)|
    ensures Flatten(xss)[ChunkSize * i + t] == xss[i][t]
  {
    if i > 0 {
      var rest := xss[1..];
      assert |xss[0]| == ChunkSize;
      assert rest[i - 1] == xss[i];
      FlattenAt(rest, i - 1, t);
      assert ChunkSize * i + t == ChunkSize + (ChunkSize * (i - 1) + t);
    }
  }

  /** A non-empty list starts with one chunk of up to 25 reviews, followed by the chunks of the rest. */
  lemma ChunksCons(s: seq<string>)
    requires s != []
    ensures Chunks(s) == [s[..Min(ChunkSize, |s|)]] + Chunks(s[Min(ChunkSize, |s|)..])
  {
    if |s| <= ChunkSize {
      assert s[..|s|] == s;
      assert s[|s|..] == [];
    }
  }

  /**
   * The chunks are the slices `reviews[25 * i : 25 * i + 25]`: they concatenate
   * to the input, each holds between 1 and 25 reviews, and only the last may
   * hold fewer than 25.
   */
  lemma ChunksPartition(reviews: seq<string>)
    ensures Flatten(Chunks(reviews)) == reviews
    ensures |Chunks(reviews)| == (|reviews| + ChunkSize - 1) / ChunkSize
    ensures forall i :: 0 <= i < |Chunks(reviews)| ==> 1 <= |Chunks(reviews)[i]| <= ChunkSize
    ensures forall i :: 0 <= i < |Chunks(reviews)| - 1 ==> |Chunks(reviews)[i]| == ChunkSize
    ensures forall i :: 0 <= i < |Chunks(reviews)| ==>
      ChunkSize * i < |reviews|
      && Chunks(reviews)[i] == reviews[ChunkSize * i .. Min(ChunkSize * i + ChunkSize, |reviews|)]
  {
    ChunksFlatten(reviews);
    ChunksCount(reviews);
    ChunksSizes(reviews);
    ChunksSlices(reviews);
  }

  lemma {:induction false} ChunksFlatten(reviews: seq<string>)
    ensures Flatten(Chunks(reviews)) == reviews
    decreases |reviews|
  {
    if |reviews| > ChunkSize {
      var rest := reviews[ChunkSize..];
      ChunksFlatten(rest);
      var cs := Chunks(reviews);
      assert cs[0] == reviews[..ChunkSize] && cs[1..] == Chunks(rest);
      assert Flatten(cs) == cs[0] + Flatten(Chunks(rest));
      assert reviews[..ChunkSize] + rest == reviews;
    } else if reviews != [] {
      assert Flatten([reviews]) == reviews + Flatten([]);
    }
  }

  lemma {:induction false} ChunksCount(reviews: seq<string>)
    ensures |Chunks(reviews)| == (|reviews| + ChunkSize - 1) / ChunkSize
    decreases |reviews|
  {
    if |reviews| > ChunkSize {
      ChunksCount(reviews[ChunkSize..]);
    }
  }

  lemma {:induction false} ChunksSizes(reviews: seq<string>)
    ensures forall i :: 0 <= i < |Chunks(reviews)| ==> 1 <= |Chunks(reviews)[i]| <= ChunkSize
    ensures forall i :: 0 <= i < |Chunks(reviews)| - 1 ==> |Chunks(reviews)[i]| == ChunkSize
    decreases |reviews|
  {
    if |reviews| > ChunkSize {
      var rest := reviews[ChunkSize..];
      ChunksSizes(rest);
      var cs := Chunks(reviews);
      forall i | 1 <= i < |cs| ensures cs[i] == Chunks(rest)[i - 1] {
      }
    }
  }

  lemma {:induction false} ChunksSlices(reviews: seq<string>)
    ensures forall i :: 0 <= i < |Chunks(reviews)| ==>
      ChunkSize * i < |reviews|
      && Chunks(reviews)[i] == reviews[ChunkSize * i .. Min(ChunkSize * i + ChunkSize, |reviews|)]
    decreases |reviews|
  {
    if |reviews| > ChunkSize {
      var rest := reviews[ChunkSize..];
      ChunksSlices(rest);
      var cs := Chunks(reviews);
      forall i | 0 <= i < |cs|
        ensures ChunkSize * i < |reviews|
        ensures cs[i] == reviews[ChunkSize * i .. Min(ChunkSize * i + ChunkSize, |reviews|)]
      {
        if i > 0 {
          var j := i - 1;
          var lo, hi := ChunkSize * j, Min(ChunkSize * j + ChunkSize, |rest|);
          assert cs[i] == Chunks(rest)[j];
          assert Chunks(rest)[j] == rest[lo..hi];
          assert ChunkSize + lo == ChunkSize * i;
          assert ChunkSize + hi == Min(ChunkSize * i + ChunkSize, |reviews|);
          SliceOfSuffix(reviews, ChunkSize, lo, hi);
        }
      }
    } else if reviews != [] {
      assert reviews[0..|reviews|] == reviews;
    }
  }

  /** 25 reviews make one chunk, 26 make chunks of 25 and 1, 60 make 25, 25 and 10; no reviews make no chunk. */
  lemma ChunkBoundaries(reviews: seq<string>)
    ensures |reviews| == 0 ==> Chunks(reviews) == []
    ensures |reviews| == 25 ==> Chunks(reviews) == [reviews]
    ensures |reviews| == 26 ==> Chunks(reviews) == [reviews[..25], reviews[25..]]
    ensures |reviews| == 60 ==> Chunks(reviews) == [reviews[..25], reviews[25..50], reviews[50..]]
  {
    if |reviews| == 26 {
      assert Chunks(reviews[25..]) == [reviews[25..]];
    }
    if |reviews| == 60 {
      var rest := reviews[25..];
      assert Chunks(rest[25..]) == [rest[25..]];
      assert rest[..25] == reviews[25..50];
      assert rest[25..] == reviews[50..];
    }
  }

  // ---------------------------------------------------------------------------
  // What one chunk contributes
  // ---------------------------------------------------------------------------

  /** The dict appended for each review of a failed chunk. */
  function Placeholder(review: string, message: string): Entry {
    Entry(JStr(review), JNull, JNull, Some(message))
  }

  function Placeholders(chunk: seq<string>, message: string): (es: seq<Entry>)
    ensures |es| == |chunk|
    ensures forall i :: 0 <= i < |chunk| ==> es[i] == Placeholder(chunk[i], message)
  {
    seq(|chunk|, i requires 0 <= i < |chunk| => Placeholder(chunk[i], message))
  }

  /** The dict appended for one backend item: its `review`, `label` and `score`, and no error. */
  function ItemEntry(item: Json): Entry
    requires item.JObject?
  {
    Entry(DictGet(item.members, "review"), DictGet(item.members, "label"), DictGet(item.members, "score"), None)
  }

  predicate AllDicts(items: seq<Json>) {
    forall i :: 0 <= i < |items| ==> items[i].JObject?
  }

  function ItemEntries(items: seq<Json>): (es: seq<Entry>)
    requires AllDicts(items)
    ensures |es| == |items|
    ensures forall i :: 0 <= i < |items| ==> es[i] == ItemEntry(items[i])
  {
    seq(|items|, i requires 0 <= i < |items| => ItemEntry(items[i]))
  }

  /** How many leading items are dicts: `item.get` raises on the first item that is not one. */
  function DictPrefix(items: seq<Json>): (k: nat)
    ensures k <= |items| && AllDicts(items[..k])
    ensures k < |items| ==> !items[k].JObject?
  {
    if items == [] || !items[0].JObject? then 0
    else
      var k := DictPrefix(items[1..]);
      assert items[..k + 1] == [items[0]] + items[1..][..k];
      k + 1
  }

  /** The exception `item.get(...)` raises on an item that is not a dict. */
  function NoGet(item: Json): PyError {
    AttributeError(TypeName(item), "get")
  }

  /**
   * What one chunk appends, given what the client call returned or raised: the
   * entries of the leading dict items, and, if the call, the iteration or an
   * `item.get` raised, one placeholder per review of the chunk.
   */
  function ChunkEntries(chunk: seq<string>, call: Result<Json, PyError>): seq<Entry> {
    match call
    case Failure(e) => Placeholders(chunk, Describe(e))
    case Success(batchOut) =>
      match Iterate(batchOut)
      case Failure(e) => Placeholders(chunk, Describe(e))
      case Success(items) =>
        var k := DictPrefix(items);
        ItemEntries(items[..k]) + (if k < |items| then Placeholders(chunk, Describe(NoGet(items[k]))) else [])
  }

  /**
   * A chunk whose step either raised before appending anything or returned
   * exactly one dict per review: the only ways it contributes as many entries as
   * it has reviews.
   */
  predicate ChunkAligned(chunk: seq<string>, call: Result<Json, PyError>) {
    match call
    case Failure(_) => true
    case Success(batchOut) =>
      match Iterate(batchOut)
      case Failure(_) => true
      case Success(items) => (AllDicts(items) && |items| == |chunk|) || (items != [] && !items[0].JObject?)
  }

  /** The entries of the chunks, in chunk order, each chunk sent to the client on its own. */
  function ChunkResults(chunks: seq<seq<string>>, client: BatchClient): seq<Entry> {
    if chunks == [] then []
    else ChunkEntries(chunks[0], client(chunks[0])) + ChunkResults(chunks[1..], client)
  }

  /** What `analyze_batch(reviews)` returns. */
  function BatchResults(reviews: seq<string>, client: BatchClient): seq<Entry> {
    ChunkResults(Chunks(reviews), client)
  }

  // ---------------------------------------------------------------------------
  // The orchestrator
  // ---------------------------------------------------------------------------

  /** `analyze_single`: the client's result, unchanged. */
  function AnalyzeSingle(review: string, chat: ChatBackend, loads: JsonLoads): (r: Result<Json, PyError>)
    ensures r == SentimentSingleCall(review, chat, loads)
  {
    SentimentSingleCall(review, chat, loads)
  }

  lemma AppendAssociates<T>(whole: seq<T>, front: seq<T>, middle: seq<T>, back: seq<T>)
    requires whole == front + middle
    ensures whole + back == front + (middle + back)
  {
  }

  lemma SplitAt<T>(xs: seq<T>, k: nat)
    requires k < |xs|
    ensures xs == xs[..k] + [xs[k]] + xs[k + 1..]
  {
  }

  /** The chunks from `start` on are the chunk at `start` followed by the chunks from `start + 25` on. */
  lemma NextChunk(reviews: seq<string>, start: nat, chunk: seq<string>, next: seq<string>, client: BatchClient)
    requires start < |reviews|
    requires chunk == reviews[start..Min(start + ChunkSize, |reviews|)]
    requires next == reviews[Min(start + ChunkSize, |reviews|)..]
    ensures ChunkResults(Chunks(reviews[start..]), client)
      == ChunkEntries(chunk, client(chunk)) + ChunkResults(Chunks(next), client)
  {
    var s := reviews[start..];
    ChunksCons(s);
    assert s[..Min(ChunkSize, |s|)] == chunk;
    assert s[Min(ChunkSize, |s|)..] == next;
    var cs := [chunk] + Chunks(next);
    assert cs[0] == chunk && cs[1..] == Chunks(next);
  }

  /** `analyze_batch`: the loop over chunk starts 0, 25, 50, ... */
  method AnalyzeBatch(reviews: seq<string>, client: BatchClient) returns (results: seq<Entry>)
    ensures results == BatchResults(reviews, client)
  {
    results := [];
    var start := 0;
    assert reviews[0..] == reviews;
    while start < |reviews|
      invariant results + ChunkResults(Chunks(reviews[Min(start, |reviews|)..]), client)
        == BatchResults(reviews, client)
      decreases |reviews| - start
    {
      var chunk := reviews[start..Min(start + ChunkSize, |reviews|)];
      var call := client(chunk);
      ghost var before := results;
      results := AppendChunk(results, chunk, call);
      ghost var next := reviews[Min(start + ChunkSize, |reviews|)..];
      NextChunk(reviews, start, chunk, next, client);
      ghost var entries, later := ChunkEntries(chunk, call), ChunkResults(Chunks(next), client);
      AppendAssociates(results, before, entries, later);
      start := start + ChunkSize;
    }
    assert reviews[|reviews|..] == [];
  }

  /**
   * The rest of the chunk loop's body, given what the client call returned or
   * raised: the `try` that appends the items and the `except` that appends
   * placeholders.
   */
  method AppendChunk(before: seq<Entry>, chunk: seq<string>, call: Result<Json, PyError>) returns (results: seq<Entry>)
    ensures results == before + ChunkEntries(chunk, call)
  {
    results := before;
    var failure: Option<PyError> := None;
    if call.Failure? {
      failure := Some(call.error);
    } else {
      var iteration := Iterate(call.value);
      if iteration.Failure? {
        failure := Some(iteration.error);
      } else {
        results, failure := AppendItems(results, iteration.value);
      }
    }
    if failure.Some? {
      results := AppendPlaceholders(results, chunk, Describe(failure.value));
    }
  }

  /** `for item in batch_out: results.append(...)`, stopped by the first item that is not a dict. */
  method AppendItems(before: seq<Entry>, items: seq<Json>) returns (results: seq<Entry>, failure: Option<PyError>)
    ensures results == before + ItemEntries(items[..DictPrefix(items)])
    ensures failure.None? <==> DictPrefix(items) == |items|
    ensures failure.Some? ==> failure.value == NoGet(items[DictPrefix(items)])
  {
    results, failure := before, None;
    var j := 0;
    while j < |items| && failure.None?
      invariant j <= DictPrefix(items)
      invariant results == before + ItemEntries(items[..j])
      invariant failure.Some? ==> j == DictPrefix(items) < |items| && failure.value == NoGet(items[j])
      decreases |items| - j, if failure.None? then 1 else 0
    {
      var item := items[j];
      if item.JObject? {
        assert items[..j + 1] == items[..j] + [item];
        results := results + [ItemEntry(item)];
        j := j + 1;
      } else {
        failure := Some(NoGet(item));
      }
    }
  }

  /** `for rev in chunk: results.append(...)` with the failed chunk's placeholders. */
  method AppendPlaceholders(before: seq<Entry>, chunk: seq<string>, message: string) returns (results: seq<Entry>)
    ensures results == before + Placeholders(chunk, message)
  {
    results := before;
    for t := 0 to |chunk|
      invariant results == before + Placeholders(chunk[..t], message)
    {
      assert chunk[..t + 1] == chunk[..t] + [chunk[t]];
      results := results + [Placeholder(chunk[t], message)];
    }
    assert chunk[..|chunk|] == chunk;
  }

  // ---------------------------------------------------------------------------
  // What the specification promises
  // ---------------------------------------------------------------------------

  /**
   * A chunk whose client call raised contributes one placeholder per review, in
   * chunk order: the review itself, no label, no score, and the exception text.
   */
  lemma FailedChunkPlaceholders(chunk: seq<string>, e: PyError)
    ensures var es := ChunkEntries(chunk, Failure(e));
      && |es| == |chunk|
      && forall i :: 0 <= i < |chunk| ==>
           && es[i].review == JStr(chunk[i])
           && es[i].labelValue == JNull && es[i].score == JNull
           && es[i].error == Some(Describe(e))
  {
  }

  /**
   * A chunk whose call returned a list of dicts contributes one entry per item,
   * in the backend's order, with the item's `review`, `label` and `score` (not
   * the input review) and no error, however many items there are.
   */
  lemma SuccessfulChunkEntries(chunk: seq<string>, items: seq<Json>)
    requires AllDicts(items)
    ensures ChunkEntries(chunk, Success(JArray(items))) == ItemEntries(items)
    ensures var es := ChunkEntries(chunk, Success(JArray(items)));
      && |es| == |items|
      && forall i :: 0 <= i < |items| ==>
           && es[i].review == DictGet(items[i].members, "review")
           && es[i].labelValue == DictGet(items[i].members, "label")
           && es[i].score == DictGet(items[i].members, "score")
           && es[i].error.None?
  {
    assert items[..|items|] == items;
  }

  /**
   * When the k-th item is the first that is not a dict, `item.get` raises after k
   * entries were appended, and the handler then appends a placeholder for every
   * review of the chunk as well: the chunk contributes k + |chunk| entries.
   */
  lemma PartialChunkEntries(chunk: seq<string>, items: seq<Json>, k: nat)
    requires k < |items| && AllDicts(items[..k]) && !items[k].JObject?
    ensures var es := ChunkEntries(chunk, Success(JArray(items)));
      && |es| == k + |chunk|
      && es[..k] == ItemEntries(items[..k])
      && es[k..] == Placeholders(chunk, "'" + TypeName(items[k]) + "' object has no attribute 'get'")
  {
    DictPrefixAt(items, k);
    var t := TypeName(items[k]);
    assert "'" + t + "' object has no attribute '" + "get" + "'" == "'" + t + "' object has no attribute 'get'";
    var front, back := ItemEntries(items[..k]), Placeholders(chunk, Describe(NoGet(items[k])));
    assert ChunkEntries(chunk, Success(JArray(items))) == front + back;
    assert (front + back)[..k] == front;
    assert (front + back)[k..] == back;
  }

  /** The first item that is not a dict is where `item.get` raises. */
  lemma DictPrefixAt(items: seq<Json>, k: nat)
    requires k < |items| && AllDicts(items[..k]) && !items[k].JObject?
    ensures DictPrefix(items) == k
  {
  }

  /** A chunk contributes exactly as many entries as it has reviews if and only if it is aligned. */
  lemma ChunkLengthIff(chunk: seq<string>, call: Result<Json, PyError>)
    ensures |ChunkEntries(chunk, call)| == |chunk| <==> ChunkAligned(chunk, call)
  {
  }

  /** In an aligned chunk, an entry with an error is the placeholder of the review at its position. */
  lemma AlignedChunkPositions(chunk: seq<string>, call: Result<Json, PyError>)
    requires ChunkAligned(chunk, call)
    ensures var es := ChunkEntries(chunk, call);
      forall i :: 0 <= i < |chunk| ==>
        (es[i].error.Some? ==> es[i].review == JStr(chunk[i]) && es[i].labelValue == JNull && es[i].score == JNull)
  {
    if call.Success? && Iterate(call.value).Success? {
      var items := Iterate(call.value).value;
      if AllDicts(items) && |items| == |chunk| {
        assert items[..|items|] == items;
        assert DictPrefix(items) == |items|;
        assert ChunkEntries(chunk, call) == ItemEntries(items);
      } else {
        assert DictPrefix(items) == 0;
        var ph := Placeholders(chunk, Describe(NoGet(items[0])));
        assert ChunkEntries(chunk, call) == [] + ph;
        assert [] + ph == ph;
      }
    }
  }

  lemma ChunkResultsSingle(c: seq<string>, client: BatchClient)
    ensures ChunkResults([c], client) == ChunkEntries(c, client(c))
  {
    assert [c][1..] == [];
    var e := ChunkEntries(c, client(c));
    assert e + [] == e;
  }

  /** The results of consecutive runs of chunks are the concatenation of their results. */
  lemma {:induction false} ChunkResultsAppend(a: seq<seq<string>>, b: seq<seq<string>>, client: BatchClient)
    ensures ChunkResults(a + b, client) == ChunkResults(a, client) + ChunkResults(b, client)
  {
    if a == [] {
      assert a + b == b;
      var rb := ChunkResults(b, client);
      assert [] + rb == rb;
    } else {
      assert (a + b)[0] == a[0];
      assert (a + b)[1..] == a[1..] + b;
      ChunkResultsAppend(a[1..], b, client);
      var e := ChunkEntries(a[0], client(a[0]));
      AppendAssociates(ChunkResults(a, client), e, ChunkResults(a[1..], client), ChunkResults(b, client));
    }
  }

  /** The results of a run of chunks depend on the client only through its results for those chunks. */
  lemma {:induction false} ChunkResultsAgree(cs: seq<seq<string>>, client1: BatchClient, client2: BatchClient)
    requires forall i :: 0 <= i < |cs| ==> client1(cs[i]) == client2(cs[i])
    ensures ChunkResults(cs, client1) == ChunkResults(cs, client2)
  {
    if cs != [] {
      assert client1(cs[0]) == client2(cs[0]);
      ChunkResultsAgree(cs[1..], client1, client2);
    }
  }

  /**
   * Failure isolation: the output is the entries of the chunks before chunk k,
   * then chunk k's own entries, then those of the chunks after it; changing the
   * backend's reply to chunk k alone (a failure instead of a success, say)
   * changes only the middle part.
   */
  lemma FailureIsolation(reviews: seq<string>, k: nat, client1: BatchClient, client2: BatchClient)
    requires k < |Chunks(reviews)|
    requires forall i :: 0 <= i < |Chunks(reviews)| && i != k ==>
      client1(Chunks(reviews)[i]) == client2(Chunks(reviews)[i])
    ensures var cs := Chunks(reviews);
      && BatchResults(reviews, client1)
           == ChunkResults(cs[..k], client1) + ChunkEntries(cs[k], client1(cs[k])) + ChunkResults(cs[k + 1..], client1)
      && BatchResults(reviews, client2)
           == ChunkResults(cs[..k], client1) + ChunkEntries(cs[k], client2(cs[k])) + ChunkResults(cs[k + 1..], client1)
  {
    var cs := Chunks(reviews);
    ChunkResultsSplit(cs, k, client1);
    ChunkResultsSplit(cs, k, client2);
    var earlier, later := cs[..k], cs[k + 1..];
    forall i | 0 <= i < |earlier| ensures client1(earlier[i]) == client2(earlier[i]) {
      assert earlier[i] == cs[i];
    }
    ChunkResultsAgree(earlier, client1, client2);
    forall i | 0 <= i < |later| ensures client1(later[i]) == client2(later[i]) {
      assert later[i] == cs[k + 1 + i];
    }
    ChunkResultsAgree(later, client1, client2);
  }

  /** The results are those of the chunks before chunk k, then chunk k's, then those of the chunks after it. */
  lemma ChunkResultsSplit(cs: seq<seq<string>>, k: nat, client: BatchClient)
    requires k < |cs|
    ensures ChunkResults(cs, client)
      == ChunkResults(cs[..k], client) + ChunkEntries(cs[k], client(cs[k])) + ChunkResults(cs[k + 1..], client)
  {
    var front, back := cs[..k] + [cs[k]], cs[k + 1..];
    SplitAt(cs, k);
    ChunkResultsAppend(front, back, client);
    ChunkResultsAppend(cs[..k], [cs[k]], client);
    ChunkResultsSingle(cs[k], client);
  }

  predicate AllAligned(cs: seq<seq<string>>, client: BatchClient) {
    forall k :: 0 <= k < |cs| ==> ChunkAligned(cs[k], client(cs[k]))
  }

  /** What each chunk contributes, chunk by chunk. */
  function Contributions(cs: seq<seq<string>>, client: BatchClient): (xss: seq<seq<Entry>>)
    ensures |xss| == |cs|
    ensures forall k :: 0 <= k < |cs| ==> xss[k] == ChunkEntries(cs[k], client(cs[k]))
  {
    seq(|cs|, k requires 0 <= k < |cs| => ChunkEntries(cs[k], client(cs[k])))
  }

  /** The results of a run of chunks are the concatenation of the chunks' contributions. */
  lemma {:induction false} ChunkResultsFlatten(cs: seq<seq<string>>, client: BatchClient)
    ensures ChunkResults(cs, client) == Flatten(Contributions(cs, client))
  {
    if cs != [] {
      var xss := Contributions(cs, client);
      assert xss[1..] == Contributions(cs[1..], client);
      ChunkResultsFlatten(cs[1..], client);
    }
  }

  /** Aligned chunks contribute as many entries as they hold reviews. */
  lemma AlignedLength(cs: seq<seq<string>>, client: BatchClient)
    requires AllAligned(cs, client)
    ensures |ChunkResults(cs, client)| == |Flatten(cs)|
  {
    var xss := Contributions(cs, client);
    forall k | 0 <= k < |xss| ensures |xss[k]| == |cs[k]| {
      ChunkLengthIff(cs[k], client(cs[k]));
    }
    FlattenLength(xss, cs);
    ChunkResultsFlatten(cs, client);
  }

  /** With aligned full chunks, the entry at 25 * i + t is the one chunk i contributed at offset t. */
  lemma AlignedPosition(cs: seq<seq<string>>, client: BatchClient, i: nat, t: nat)
    requires AllAligned(cs, client)
    requires forall k :: 0 <= k < |cs| - 1 ==> |cs[k]| == ChunkSize
    requires i < |cs| && t < |cs[i]|
    ensures ChunkSize * i + t < |ChunkResults(cs, client)|
    ensures t < |ChunkEntries(cs[i], client(cs[i]))|
    ensures ChunkResults(cs, client)[ChunkSize * i + t]
      == ChunkEntries(cs[i], client(cs[i]))[t]
  {
    var xss := Contributions(cs, client);
    forall k | 0 <= k < |xss| ensures |xss[k]| == |cs[k]| {
      ChunkLengthIff(cs[k], client(cs[k]));
    }
    FlattenAt(xss, i, t);
    ChunkResultsFlatten(cs, client);
  }

  /** Offset t of chunk i is review 25 * i + t. */
  lemma ChunkOffset(reviews: seq<string>, i: nat, t: nat)
    requires i < |Chunks(reviews)| && t < |Chunks(reviews)[i]|
    ensures ChunkSize * i + t < |reviews|
    ensures Chunks(reviews)[i][t] == reviews[ChunkSize * i + t]
  {
    ChunksPartition(reviews);
  }

  lemma ChunksFull(reviews: seq<string>)
    ensures forall k :: 0 <= k < |Chunks(reviews)| - 1 ==> |Chunks(reviews)[k]| == ChunkSize
  {
    ChunksPartition(reviews);
  }

  /** Review j sits in chunk j / 25 at offset j % 25. */
  lemma ReviewChunk(reviews: seq<string>, j: nat)
    requires j < |reviews|
    ensures j / ChunkSize < |Chunks(reviews)|
    ensures j % ChunkSize < |Chunks(reviews)[j / ChunkSize]|
    ensures Chunks(reviews)[j / ChunkSize][j % ChunkSize] == reviews[j]
  {
    ChunksPartition(reviews);
    var i := j / ChunkSize;
    assert ChunkSize * i <= j < ChunkSize * i + ChunkSize;
    ChunkOffset(reviews, i, j % ChunkSize);
  }

  /**
   * When every chunk is aligned, the output has one entry per input review, and
   * an entry that carries an error is the placeholder of the input review at the
   * same position.
   */
  lemma BatchAligned(reviews: seq<string>, client: BatchClient)
    requires AllAligned(Chunks(reviews), client)
    ensures |BatchResults(reviews, client)| == |reviews|
    ensures forall j :: 0 <= j < |reviews| && BatchResults(reviews, client)[j].error.Some? ==>
      && BatchResults(reviews, client)[j].review == JStr(reviews[j])
      && BatchResults(reviews, client)[j].labelValue == JNull
      && BatchResults(reviews, client)[j].score == JNull
  {
    BatchLength(reviews, client);
    forall j | 0 <= j < |reviews| && BatchResults(reviews, client)[j].error.Some?
      ensures BatchResults(reviews, client)[j].review == JStr(reviews[j])
      ensures BatchResults(reviews, client)[j].labelValue == JNull
      ensures BatchResults(reviews, client)[j].score == JNull
    {
      BatchEntryAt(reviews, client, j);
    }
  }

  /** When every chunk is aligned, the entry at position 25 * i + t is the one chunk i contributed at offset t. */
  lemma BatchPosition(reviews: seq<string>, client: BatchClient, i: nat, t: nat)
    requires AllAligned(Chunks(reviews), client)
    requires i < |Chunks(reviews)| && t < |Chunks(reviews)[i]|
    ensures ChunkSize * i + t < |reviews|
    ensures t < |ChunkEntries(Chunks(reviews)[i], client(Chunks(reviews)[i]))|
    ensures ChunkSize * i + t < |BatchResults(reviews, client)|
    ensures BatchResults(reviews, client)[ChunkSize * i + t]
      == ChunkEntries(Chunks(reviews)[i], client(Chunks(reviews)[i]))[t]
  {
    ChunkOffset(reviews, i, t);
    ChunksFull(reviews);
    AlignedPosition(Chunks(reviews), client, i, t);
  }

  lemma BatchLength(reviews: seq<string>, client: BatchClient)
    requires AllAligned(Chunks(reviews), client)
    ensures |BatchResults(reviews, client)| == |reviews|
  {
    ChunksPartition(reviews);
    AlignedLength(Chunks(reviews), client);
  }

  lemma BatchEntryAt(reviews: seq<string>, client: BatchClient, j: nat)
    requires AllAligned(Chunks(reviews), client)
    requires j < |reviews|
    ensures j < |BatchResults(reviews, client)|
    ensures BatchResults(reviews, client)[j].error.Some? ==>
      && BatchResults(reviews, client)[j].review == JStr(reviews[j])
      && BatchResults(reviews, client)[j].labelValue == JNull
      && BatchResults(reviews, client)[j].score == JNull
  {
    var cs := Chunks(reviews);
    var i, t := j / ChunkSize, j % ChunkSize;
    ReviewChunk(reviews, j);
    ChunkOffset(reviews, i, t);
    assert ChunkSize * i + t == j;
    ChunksFull(reviews);
    AlignedPosition(cs, client, i, t);
    AlignedChunkPositions(cs[i], client(cs[i]));
  }

  /** The shape of every dict appended for a failed chunk. */
  predicate IsPlaceholder(e: Entry) {
    e.review.JStr? && e.labelValue == JNull && e.score == JNull && e.error.Some?
  }

  /** A client that raises on every call makes every chunk contribute only placeholders. */
  lemma {:induction false} ClientDownEntries(cs: seq<seq<string>>, client: BatchClient)
    requires forall c :: client(c).Failure?
    ensures AllAligned(cs, client)
    ensures forall j :: 0 <= j < |ChunkResults(cs, client)| ==> IsPlaceholder(ChunkResults(cs, client)[j])
  {
    if cs != [] {
      var call := client(cs[0]);
      var front, rest := ChunkEntries(cs[0], call), ChunkResults(cs[1..], client);
      FailedChunkPlaceholders(cs[0], call.error);
      ClientDownEntries(cs[1..], client);
      forall k | 0 <= k < |cs| ensures ChunkAligned(cs[k], client(cs[k])) {
        if k > 0 { assert cs[k] == cs[1..][k - 1]; }
      }
      forall j | 0 <= j < |front + rest| ensures IsPlaceholder((front + rest)[j]) {
        if j >= |front| { assert (front + rest)[j] == rest[j - |front|]; }
      }
    }
  }

  /**
   * A client that raises on every call yields one placeholder per review, in
   * input order: nothing is dropped and nothing is judged.
   */
  lemma ClientDownBatch(reviews: seq<string>, client: BatchClient)
    requires forall c :: client(c).Failure?
    ensures |BatchResults(reviews, client)| == |reviews|
    ensures forall j :: 0 <= j < |reviews| ==>
      IsPlaceholder(BatchResults(reviews, client)[j]) && BatchResults(reviews, client)[j].review == JStr(reviews[j])
  {
    ClientDownEntries(Chunks(reviews), client);
    BatchAligned(reviews, client);
  }

  // ---------------------------------------------------------------------------
  // Where the output is not one entry per review
  // ---------------------------------------------------------------------------

  /** Up to 25 reviews go out in a single call, and the output is what that call's result contributes. */
  lemma OneChunkReply(reviews: seq<string>, client: BatchClient, v: Json)
    requires 0 < |reviews| <= ChunkSize
    requires client(reviews) == Success(v)
    ensures BatchResults(reviews, client) == ChunkEntries(reviews, Success(v))
  {
    assert Chunks(reviews) == [reviews];
    ChunkResultsSingle(reviews, client);
  }

  /**
   * An empty list, an empty string or an empty object under `"reviews"` makes a
   * chunk vanish: its reviews get no entry at all, and no error says so.
   */
  lemma EmptyReplyDropsChunk(chunk: seq<string>, v: Json)
    requires v == JArray([]) || v == JStr("") || v == JObject([])
    ensures ChunkEntries(chunk, Success(v)) == []
  {
    assert Iterate(v) == Success([]);
  }

  /** A client result that omits an item makes the output shorter than the input. */
  lemma ShortReplyShortensOutput(review: string, client: BatchClient)
    requires client([review]) == Success(JArray([]))
    ensures BatchResults([review], client) == []
  {
    OneChunkReply([review], client, JArray([]));
    EmptyReplyDropsChunk([review], JArray([]));
  }

  /** The entry for a well-formed judgment item copies its three fields. */
  lemma JudgmentEntry(review: string, labelText: string, score: real)
    ensures ItemEntry(JudgmentJson(review, labelText, score)) == Entry(JStr(review), JStr(labelText), JFloat(score), None)
  {
    var members := JudgmentJson(review, labelText, score).members;
    DictGetAt(members, "review", 0);
    DictGetAt(members, "label", 1);
    DictGetAt(members, "score", 2);
  }

  /**
   * A client result whose second item is `null` keeps the entry for the first
   * item and then adds a placeholder for both reviews, carrying the text of the
   * `AttributeError` that `None.get` raises: three entries for two reviews.
   */
  lemma PartialReplyLengthensOutput(r1: string, r2: string, client: BatchClient)
    requires client([r1, r2]) == Success(JArray([JudgmentJson(r1, "Positive", 0.9), JNull]))
    ensures var out := BatchResults([r1, r2], client);
      && |out| == 3
      && out[0] == Entry(JStr(r1), JStr("Positive"), JFloat(0.9), None)
      && out[1] == Placeholder(r1, Describe(AttributeError("NoneType", "get")))
      && out[2] == Placeholder(r2, Describe(AttributeError("NoneType", "get")))
  {
    var items := [JudgmentJson(r1, "Positive", 0.9), JNull];
    OneChunkReply([r1, r2], client, JArray(items));
    NullItemChunk(r1, r2);
  }

  lemma NullItemChunk(r1: string, r2: string)
    ensures ChunkEntries([r1, r2], Success(JArray([JudgmentJson(r1, "Positive", 0.9), JNull])))
      == [Entry(JStr(r1), JStr("Positive"), JFloat(0.9), None),
          Placeholder(r1, Describe(AttributeError("NoneType", "get"))),
          Placeholder(r2, Describe(AttributeError("NoneType", "get")))]
  {
    var judgment := JudgmentJson(r1, "Positive", 0.9);
    var items := [judgment, JNull];
    var es := ChunkEntries([r1, r2], Success(JArray(items)));
    assert items[..1] == [judgment];
    assert DictPrefix(items) == 1 by {
      DictPrefixAt(items, 1);
    }
    assert NoGet(JNull) == AttributeError("NoneType", "get");
    var front, back := ItemEntries([judgment]), Placeholders([r1, r2], Describe(AttributeError("NoneType", "get")));
    assert es == front + back;
    JudgmentEntry(r1, "Positive", 0.9);
    assert front == [front[0]];
  }

  /** A one-review batch answered with one judgment yields that judgment's fields as they are. */
  lemma OneJudgmentReply(review: string, labelText: string, score: real, client: BatchClient)
    requires client([review]) == Success(JArray([JudgmentJson(review, labelText, score)]))
    ensures BatchResults([review], client) == [Entry(JStr(review), JStr(labelText), JFloat(score), None)]
  {
    var judgment := JudgmentJson(review, labelText, score);
    OneChunkReply([review], client, JArray([judgment]));
    SuccessfulChunkEntries([review], [judgment]);
    JudgmentEntry(review, labelText, score);
    var es := ItemEntries([judgment]);
    assert es == [es[0]];
  }

  /**
   * The batch path copies what the client returned without validating it: a
   * label outside the five values and a score outside [-1.0, 1.0] reach the
   * output, although `ReviewSentiment` rejects the same item.
   */
  lemma BatchSkipsValidation(review: string, client: BatchClient)
    requires client([review]) == Success(JArray([JudgmentJson(review, "Mixed", 1.5)]))
    ensures BatchResults([review], client) == [Entry(JStr(review), JStr("Mixed"), JFloat(1.5), None)]
    ensures ValidateReviewSentiment(JudgmentJson(review, "Mixed", 1.5)).Failure?
  {
    OneJudgmentReply(review, "Mixed", 1.5, client);
    ValidateJudgmentIff(review, "Mixed", 1.5);
  }
}
