/**
 * The training-data preparation step: review texts are normalised to lower-case
 * ASCII words separated by single spaces, and the sentiment column is encoded as
 * 1 for "positive" and 0 for "negative", every other row being dropped.
 */
module Preprocess {
  import opened Wrappers
  import opened PyRuntime

  // ---------------------------------------------------------------------------
  // clean_text
  // ---------------------------------------------------------------------------

  predicate IsAsciiLower(c: char) {
    'a' <= c <= 'z'
  }

  predicate IsAsciiUpper(c: char) {
    'A' <= c <= 'Z'
  }

  /** The class `[a-zA-Z\s]` the first substitution keeps. */
  predicate Kept(c: char) {
    IsAsciiLower(c) || IsAsciiUpper(c) || IsSpace(c)
  }

  /**
   * `c.lower()`, exact wherever the result can survive the filter: ASCII capitals
   * become small letters, U+0130 (capital I with dot above) becomes "i" followed
   * by U+0307, and U+212A (the Kelvin sign) becomes "k".
   */
  function LowerChar(c: char): (r: string)
    ensures forall i :: 0 <= i < |r| ==> !IsAsciiUpper(r[i])
    ensures !IsAsciiUpper(c) && c != '\U{130}' && c != '\U{212A}' ==> r == [c]
    ensures IsAsciiUpper(c) ==> r == [(c as int + 32) as char] && IsAsciiLower(r[0])
    ensures c == '\U{130}' ==> r == "i\U{307}"
    ensures c == '\U{212A}' ==> r == "k"
  {
    if IsAsciiUpper(c) then [(c as int + 32) as char]
    else if c == '\U{130}' then "i\U{307}"
    else if c == '\U{212A}' then "k"
    else [c]
  }

  /** `text.lower()`. */
  function Lower(s: string): string {
    if s == [] then [] else LowerChar(s[0]) + Lower(s[1..])
  }

  lemma {:induction false} LowerHasNoCapitals(s: string)
    ensures forall i :: 0 <= i < |Lower(s)| ==> !IsAsciiUpper(Lower(s)[i])
  {
    if s != [] {
      var head, tail := LowerChar(s[0]), Lower(s[1..]);
      LowerHasNoCapitals(s[1..]);
      forall i | |head| <= i < |head + tail| ensures !IsAsciiUpper((head + tail)[i]) {
        assert (head + tail)[i] == tail[i - |head|];
      }
    }
  }

  /** `re.sub(r'[^a-zA-Z\s]', '', text)`: everything outside the class is deleted, nothing is inserted. */
  function Filter(s: string): string {
    if s == [] then [] else (if Kept(s[0]) then [s[0]] else []) + Filter(s[1..])
  }

  /** What the filter keeps is in the class, and it brings back no capital the input did not have. */
  lemma {:induction false} FilterKeeps(s: string)
    requires forall i :: 0 <= i < |s| ==> !IsAsciiUpper(s[i])
    ensures forall i :: 0 <= i < |Filter(s)| ==> IsAsciiLower(Filter(s)[i]) || IsSpace(Filter(s)[i])
  {
    if s != [] {
      var head, tail := if Kept(s[0]) then [s[0]] else [], Filter(s[1..]);
      FilterKeeps(s[1..]);
      forall i | 0 <= i < |head + tail| ensures IsAsciiLower((head + tail)[i]) || IsSpace((head + tail)[i]) {
        if i >= |head| { assert (head + tail)[i] == tail[i - |head|]; }
      }
    }
  }

  /** Letters and single spaces only. */
  predicate LowerOrSpace(c: char) {
    IsAsciiLower(c) || c == ' '
  }

  predicate NoDoubleSpace(s: string) {
    forall i :: 0 <= i < |s| - 1 ==> !(s[i] == ' ' && s[i + 1] == ' ')
  }

  /** `re.sub(r'\s+', ' ', text)`: every maximal run of whitespace becomes one space. */
  function Collapse(s: string): string
    decreases |s|
  {
    if s == [] then []
    else if IsSpace(s[0]) then " " + Collapse(StripLeft(s[1..]))
    else [s[0]] + Collapse(s[1..])
  }

  /** Putting a character in front of a text with no double space makes none, unless both are spaces. */
  lemma ConsNoDoubleSpace(c: char, tail: string)
    requires NoDoubleSpace(tail) && (c == ' ' ==> tail == [] || tail[0] != ' ')
    ensures NoDoubleSpace([c] + tail)
  {
    var s := [c] + tail;
    forall i | 0 <= i < |s| - 1 ensures !(s[i] == ' ' && s[i + 1] == ' ') {
      if i > 0 { assert s[i] == tail[i - 1] && s[i + 1] == tail[i]; }
    }
  }

  /** Letters and whitespace only. */
  predicate LettersOrSpace(s: string) {
    forall i :: 0 <= i < |s| ==> IsAsciiLower(s[i]) || IsSpace(s[i])
  }

  /** Dropping leading characters keeps a text of letters and whitespace one. */
  lemma SuffixLettersOrSpace(s: string, k: nat)
    requires LettersOrSpace(s) && k <= |s|
    ensures LettersOrSpace(s[k..])
  {
    forall i | 0 <= i < |s| - k ensures IsAsciiLower(s[k..][i]) || IsSpace(s[k..][i]) {
      assert s[k..][i] == s[k + i];
    }
  }

  /** Putting a letter or a space in front of letters and spaces gives letters and spaces. */
  lemma ConsLowerOrSpace(c: char, tail: string)
    requires LowerOrSpace(c) && forall i :: 0 <= i < |tail| ==> LowerOrSpace(tail[i])
    ensures forall i :: 0 <= i < |[c] + tail| ==> LowerOrSpace(([c] + tail)[i])
  {
    forall i | 0 <= i < |[c] + tail| ensures LowerOrSpace(([c] + tail)[i]) {
      if i > 0 { assert ([c] + tail)[i] == tail[i - 1]; }
    }
  }

  /**
   * On lower-case letters and whitespace, collapsing leaves letters and single
   * spaces only, and keeps a leading letter in front.
   */
  lemma {:induction false} CollapseShape(s: string)
    requires LettersOrSpace(s)
    ensures forall i :: 0 <= i < |Collapse(s)| ==> LowerOrSpace(Collapse(s)[i])
    ensures NoDoubleSpace(Collapse(s))
    ensures s != [] && !IsSpace(s[0]) ==> Collapse(s) != [] && Collapse(s)[0] == s[0]
    decreases |s|
  {
    if s != [] {
      var head: char, rest: string;
      if IsSpace(s[0]) {
        head, rest := ' ', StripLeft(s[1..]);
        assert LettersOrSpace(rest) by {
          SuffixLettersOrSpace(s, 1);
          SuffixLettersOrSpace(s[1..], |s[1..]| - |rest|);
        }
      } else {
        head, rest := s[0], s[1..];
        SuffixLettersOrSpace(s, 1);
      }
      CollapseShape(rest);
      var tail := Collapse(rest);
      assert Collapse(s) == [head] + tail;
      ConsNoDoubleSpace(head, tail);
      ConsLowerOrSpace(head, tail);
    }
  }

  /** Lower-case ASCII words separated by single spaces, with no space at either end. */
  predicate Clean(s: string) {
    && (forall i :: 0 <= i < |s| ==> LowerOrSpace(s[i]))
    && (s == [] || (s[0] != ' ' && s[|s| - 1] != ' '))
    && NoDoubleSpace(s)
  }

  /** Stripping a text of letters and single spaces leaves a clean text. */
  lemma StripClean(s: string)
    requires forall i :: 0 <= i < |s| ==> LowerOrSpace(s[i])
    requires NoDoubleSpace(s)
    ensures Clean(Strip(s))
  {
    StripKeepsCore(s);
    var r, k := Strip(s), |s| - |StripLeft(s)|;
    forall i | 0 <= i < |r| ensures LowerOrSpace(r[i]) {
      assert r[i] == s[k + i];
    }
    forall i | 0 <= i < |r| - 1 ensures !(r[i] == ' ' && r[i + 1] == ' ') {
      assert r[i] == s[k + i] && r[i + 1] == s[k + i + 1];
    }
  }

  /** `clean_text(text)` for a text cell. */
  function CleanText(text: string): string {
    Strip(Collapse(Filter(Lower(text))))
  }

  /** The cleaned text is lower-case ASCII words separated by single spaces, with no space at either end. */
  lemma CleanTextIsClean(text: string)
    ensures Clean(CleanText(text))
  {
    var kept := Filter(Lower(text));
    LowerHasNoCapitals(text);
    FilterKeeps(Lower(text));
    assert LettersOrSpace(kept);
    CollapseShape(kept);
    StripClean(Collapse(kept));
  }

  // ---------------------------------------------------------------------------
  // What clean_text promises
  // ---------------------------------------------------------------------------

  lemma {:induction false} LowerFixed(s: string)
    requires forall i :: 0 <= i < |s| ==> LowerOrSpace(s[i])
    ensures Lower(s) == s
  {
    if s != [] {
      LowerFixed(s[1..]);
    }
  }

  lemma {:induction false} FilterFixed(s: string)
    requires forall i :: 0 <= i < |s| ==> LowerOrSpace(s[i])
    ensures Filter(s) == s
  {
    if s != [] {
      FilterFixed(s[1..]);
    }
  }

  lemma {:induction false} CollapseFixed(s: string)
    requires forall i :: 0 <= i < |s| ==> LowerOrSpace(s[i])
    requires NoDoubleSpace(s)
    ensures Collapse(s) == s
    decreases |s|
  {
    if s != [] {
      var rest := s[1..];
      assert forall i :: 0 <= i < |rest| ==> LowerOrSpace(rest[i]) by {
        forall i | 0 <= i < |rest| ensures LowerOrSpace(rest[i]) { assert rest[i] == s[i + 1]; }
      }
      assert NoDoubleSpace(rest) by {
        forall i | 0 <= i < |rest| - 1 ensures !(rest[i] == ' ' && rest[i + 1] == ' ') {
          assert rest[i] == s[i + 1] && rest[i + 1] == s[i + 2];
        }
      }
      CollapseFixed(rest);
      if s[0] == ' ' {
        assert StripLeft(rest) == rest by {
          if rest != [] { assert rest[0] == s[1]; assert s[1] != ' '; }
        }
        assert Collapse(s) == " " + Collapse(rest);
      } else {
        assert !IsSpace(s[0]);
        assert Collapse(s) == [s[0]] + Collapse(rest);
      }
    }
  }

  /** Collapsing and stripping leave a clean text as it is. */
  lemma SpacingFixed(s: string)
    requires Clean(s)
    ensures Strip(Collapse(s)) == s
  {
    CollapseFixed(s);
    assert StripLeft(s) == s;
    assert StripRight(s) == s;
  }

  /** A clean text is its own cleaning. */
  lemma CleanFixed(s: string)
    requires Clean(s)
    ensures CleanText(s) == s
  {
    assert Filter(Lower(s)) == s by {
      LowerFixed(s);
      FilterFixed(s);
    }
    SpacingFixed(s);
  }

  /** Cleaning twice is cleaning once. */
  lemma CleanIdempotent(text: string)
    ensures CleanText(CleanText(text)) == CleanText(text)
  {
    CleanTextIsClean(text);
    CleanFixed(CleanText(text));
  }

  lemma {:induction false} LowerAppend(a: string, b: string)
    ensures Lower(a + b) == Lower(a) + Lower(b)
  {
    if a != [] {
      assert (a + b)[0] == a[0];
      assert (a + b)[1..] == a[1..] + b;
      LowerAppend(a[1..], b);
      assert Lower(a + b) == LowerChar(a[0]) + (Lower(a[1..]) + Lower(b));
    } else {
      assert a + b == b;
    }
  }

  lemma {:induction false} FilterAppend(a: string, b: string)
    ensures Filter(a + b) == Filter(a) + Filter(b)
  {
    if a != [] {
      assert (a + b)[0] == a[0];
      assert (a + b)[1..] == a[1..] + b;
      FilterAppend(a[1..], b);
      var head := if Kept(a[0]) then [a[0]] else [];
      assert Filter(a + b) == head + (Filter(a[1..]) + Filter(b));
    } else {
      assert a + b == b;
    }
  }

  /** Lower-casing goes character by character: a character that lower-cases to itself stays where it was. */
  lemma LowerAround(a: string, p: char, b: string)
    requires !IsAsciiUpper(p) && p != '\U{130}' && p != '\U{212A}'
    ensures Lower(a + [p] + b) == Lower(a) + [p] + Lower(b)
  {
    assert Lower([p]) == [p] by {
      assert Lower([p]) == LowerChar(p) + Lower([]);
    }
    assert Lower(a + [p]) == Lower(a) + [p] by {
      LowerAppend(a, [p]);
    }
    LowerAppend(a + [p], b);
  }

  /** The filter deletes a character outside its class and keeps both sides in order. */
  lemma FilterAround(a: string, p: char, b: string)
    requires !Kept(p)
    ensures Filter(a + [p] + b) == Filter(a + b)
  {
    FilterAppend(a + [p], b);
    FilterAppend(a, [p]);
    FilterAppend(a, b);
    assert Filter([p]) == [] + Filter([]);
  }

  /**
   * A character that is neither a letter nor whitespace, and does not lower-case
   * to a letter, is deleted without leaving a space: the two sides join up.
   */
  lemma DeletedWithoutSpace(x: string, p: char, y: string)
    requires !Kept(p) && p != '\U{130}' && p != '\U{212A}'
    ensures CleanText(x + [p] + y) == CleanText(x + y)
  {
    var kept := Filter(Lower(x + [p] + y));
    assert kept == Filter(Lower(x + y)) by {
      LowerAround(x, p, y);
      LowerAppend(x, y);
      FilterAround(Lower(x), p, Lower(y));
    }
  }

  /**
   * An apostrophe inside a word and an exclamation mark after it vanish and the
   * word closes up: "don't!" cleans to "dont".
   */
  lemma ContractionJoins(front: string, back: string)
    requires forall i :: 0 <= i < |front| ==> IsAsciiLower(front[i])
    requires forall i :: 0 <= i < |back| ==> IsAsciiLower(back[i])
    ensures CleanText(front + "'" + back + "!") == front + back
  {
    var word := front + back;
    assert Clean(word) by {
      forall i | 0 <= i < |word| ensures IsAsciiLower(word[i]) {
        if i >= |front| { assert word[i] == back[i - |front|]; }
      }
    }
    ContractionKept(front, back);
    LowerFixed(word);
    FilterFixed(word);
    CleanFixed(word);
  }

  lemma {:induction false} ContractionKept(front: string, back: string)
    requires forall i :: 0 <= i < |front| ==> IsAsciiLower(front[i])
    requires forall i :: 0 <= i < |back| ==> IsAsciiLower(back[i])
    ensures Filter(Lower(front + "'" + back + "!")) == front + back
  {
    var lowered := front + "'" + back + "!";
    assert Lower(front + "'" + back + "!") == lowered by {
      var a, b := front + "'", front + "'" + back;
      LowerAppend(b, "!");
      LowerAppend(a, back);
      LowerAppend(front, "'");
      LowerFixed(front);
      LowerFixed(back);
      assert Lower("'") == "'" && Lower("!") == "!";
    }
    var a, b := front + "'", front + "'" + back;
    assert Filter(a) == front by {
      FilterAppend(front, "'");
      FilterFixed(front);
      assert Filter("'") == [];
    }
    assert Filter(b) == front + back by {
      FilterAppend(a, back);
      FilterFixed(back);
    }
    assert Filter(lowered) == front + back by {
      FilterAppend(b, "!");
      assert Filter("!") == [];
    }
  }

  /** A word of ASCII letters starting with a capital cleans to the word with that letter made small. */
  lemma CapitalWordCleans(w: string)
    requires w != [] && IsAsciiUpper(w[0])
    requires forall i :: 1 <= i < |w| ==> IsAsciiLower(w[i])
    ensures CleanText(w) == [(w[0] as int + 32) as char] + w[1..]
  {
    var rest := w[1..];
    var small := [(w[0] as int + 32) as char] + rest;
    assert Clean(small) by {
      forall i | 0 <= i < |small| ensures IsAsciiLower(small[i]) {
        if i > 0 { assert small[i] == w[i]; }
      }
    }
    assert Lower(w) == small by {
      LowerFixed(rest);
      assert Lower(w) == LowerChar(w[0]) + Lower(rest);
    }
    assert Lower(small) == small by {
      LowerFixed(small);
    }
    CleanFixed(small);
  }

  /** A text whose letters and spaces, once lower-cased, already form a clean text cleans to exactly those. */
  lemma CleansTo(text: string, w: string)
    requires Clean(w) && Filter(Lower(text)) == w
    ensures CleanText(text) == w
  {
    SpacingFixed(w);
  }

  /** U+0130, capital I with dot above, lower-cases to "i" and a combining dot; the dot is filtered out and "i" stays. */
  lemma DottedCapitalI()
    ensures CleanText("\U{130}") == "i"
  {
    assert Lower("\U{130}") == "i\U{307}" by {
      assert Lower("\U{130}") == LowerChar('\U{130}') + Lower([]);
    }
    assert Filter("i\U{307}") == "i" by {
      assert Filter("i\U{307}") == "i" + Filter("\U{307}");
      assert Filter("\U{307}") == [] + Filter([]);
    }
    CleansTo("\U{130}", "i");
  }

  /** U+212A, the Kelvin sign, lower-cases to the ASCII letter "k", which the filter keeps. */
  lemma KelvinSign()
    ensures CleanText("\U{212A}") == "k"
  {
    assert Lower("\U{212A}") == "k" by {
      assert Lower("\U{212A}") == LowerChar('\U{212A}') + Lower([]);
    }
    assert Filter("k") == "k" by {
      assert Filter("k") == "k" + Filter([]);
    }
    CleansTo("\U{212A}", "k");
  }

  // ---------------------------------------------------------------------------
  // Label encoding and the frame
  // ---------------------------------------------------------------------------

  /** A CSV cell: a string, or `NaN` where the cell was empty. */
  type Cell = Option<string>

  /** A data frame: its column names and its rows, each row a map from column name to cell. */
  datatype Frame = Frame(columns: seq<string>, rows: seq<map<string, Cell>>)

  const TextColumn := "review/text"
  const SentimentColumn := "Sentiment"
  const MissingTextMessage := "Missing 'review/text' column in input data."

  function CellAt(row: map<string, Cell>, column: string): Cell {
    if column in row then row[column] else None
  }

  /** `str(cell)`: an empty cell reads as "nan". */
  function CellText(cell: Cell): string {
    match cell
    case Some(s) => s
    case None => "nan"
  }

  /** `{'positive': 1, 'negative': 0}` as a mapping: any other value, `NaN` included, maps to nothing. */
  function EncodeLabel(cell: Cell): (code: Option<int>)
    ensures code == Some(1) <==> cell == Some("positive")
    ensures code == Some(0) <==> cell == Some("negative")
    ensures code.Some? ==> code == Some(0) || code == Some(1)
  {
    match cell
    case Some(s) => if s == "positive" then Some(1) else if s == "negative" then Some(0) else None
    case None => None
  }

  /** One row of the training data: the cleaned text and its label. */
  datatype Example = Example(cleanText: string, target: int)

  /** The labelled rows, in frame order, after `dropna(subset=['label'])`. */
  function Encoded(rows: seq<map<string, Cell>>): (examples: seq<Example>)
    ensures |examples| <= |rows|
  {
    if rows == [] then []
    else
      var rest := Encoded(rows[1..]);
      match EncodeLabel(CellAt(rows[0], SentimentColumn))
      case Some(code) => [Example(CleanText(CellText(CellAt(rows[0], TextColumn))), code)] + rest
      case None => rest
  }

  /** Every example carries a 0 or a 1 and a clean text. */
  lemma {:induction false} EncodedShape(rows: seq<map<string, Cell>>)
    ensures forall i :: 0 <= i < |Encoded(rows)| ==>
      (Encoded(rows)[i].target == 0 || Encoded(rows)[i].target == 1) && Clean(Encoded(rows)[i].cleanText)
  {
    if rows != [] {
      EncodedShape(rows[1..]);
      CleanTextIsClean(CellText(CellAt(rows[0], TextColumn)));
      var es, rest := Encoded(rows), Encoded(rows[1..]);
      forall i | 0 <= i < |es| ensures (es[i].target == 0 || es[i].target == 1) && Clean(es[i].cleanText) {
        if |es| > |rest| && i > 0 {
          assert es[i] == rest[i - 1];
        } else if |es| == |rest| {
          assert es[i] == rest[i];
        }
      }
    }
  }

  /** How many rows carry exactly this sentiment value. */
  function CountSentiment(rows: seq<map<string, Cell>>, value: string): nat {
    if rows == [] then 0
    else (if CellAt(rows[0], SentimentColumn) == Some(value) then 1 else 0) + CountSentiment(rows[1..], value)
  }

  function CountLabel(examples: seq<Example>, target: int): nat {
    if examples == [] then 0
    else (if examples[0].target == target then 1 else 0) + CountLabel(examples[1..], target)
  }

  /**
   * Every "positive" row yields a 1 and every "negative" row a 0, and nothing
   * else survives: the output has exactly as many of each as the input has rows
   * with that value.
   */
  lemma EncodedCounts(rows: seq<map<string, Cell>>)
    ensures CountLabel(Encoded(rows), 1) == CountSentiment(rows, "positive")
    ensures CountLabel(Encoded(rows), 0) == CountSentiment(rows, "negative")
    ensures |Encoded(rows)| == CountSentiment(rows, "positive") + CountSentiment(rows, "negative")
  {
    EncodedCount(rows, "positive", 1);
    EncodedCount(rows, "negative", 0);
    EncodedLength(rows);
  }

  lemma {:induction false} EncodedCount(rows: seq<map<string, Cell>>, value: string, code: int)
    requires (value == "positive" && code == 1) || (value == "negative" && code == 0)
    ensures CountLabel(Encoded(rows), code) == CountSentiment(rows, value)
  {
    if rows != [] {
      EncodedCount(rows[1..], value, code);
      EncodedCons(rows);
      var cell := CellAt(rows[0], SentimentColumn);
      assert EncodeLabel(cell) == Some(code) <==> cell == Some(value);
    }
  }

  lemma {:induction false} EncodedLength(rows: seq<map<string, Cell>>)
    ensures |Encoded(rows)| == CountSentiment(rows, "positive") + CountSentiment(rows, "negative")
  {
    if rows != [] {
      EncodedLength(rows[1..]);
      EncodedCons(rows);
      var cell := CellAt(rows[0], SentimentColumn);
      assert EncodeLabel(cell).Some? <==> cell == Some("positive") || cell == Some("negative");
    }
  }

  /** What the first row contributes: one example carrying its code, or nothing. */
  lemma EncodedCons(rows: seq<map<string, Cell>>)
    requires rows != []
    ensures var code, es, rest := EncodeLabel(CellAt(rows[0], SentimentColumn)), Encoded(rows), Encoded(rows[1..]);
      && (code.None? ==> es == rest)
      && (code.Some? ==> es != [] && es[0].target == code.value && es[1..] == rest)
      && (code.Some? ==> es[0].cleanText == CleanText(CellText(CellAt(rows[0], TextColumn))))
  {
  }

  /** What one row yields on its own: its cleaned text with its code, or nothing when its label is dropped. */
  function RowExample(row: map<string, Cell>): Option<Example> {
    match EncodeLabel(CellAt(row, SentimentColumn))
    case Some(code) => Some(Example(CleanText(CellText(CellAt(row, TextColumn))), code))
    case None => None
  }

  /** The first row's example, when it has one, heads the output. */
  lemma EncodedHead(rows: seq<map<string, Cell>>)
    requires rows != []
    ensures RowExample(rows[0]).None? ==> Encoded(rows) == Encoded(rows[1..])
    ensures RowExample(rows[0]).Some? ==> Encoded(rows) == [RowExample(rows[0]).value] + Encoded(rows[1..])
  {
  }

  /** The values present in a sequence of options, in order. */
  function Present<T>(xs: seq<Option<T>>): seq<T> {
    if xs == [] then [] else (if xs[0].Some? then [xs[0].value] else []) + Present(xs[1..])
  }

  lemma PresentCons<T>(xs: seq<Option<T>>)
    requires xs != []
    ensures xs[0].None? ==> Present(xs) == Present(xs[1..])
    ensures xs[0].Some? ==> Present(xs) == [xs[0].value] + Present(xs[1..])
  {
  }

  /** `f` applied to each element, in order. */
  function Mapped<A, B>(xs: seq<A>, f: A -> B): seq<B> {
    seq(|xs|, j requires 0 <= j < |xs| => f(xs[j]))
  }

  lemma MappedCons<A, B>(xs: seq<A>, f: A -> B)
    requires xs != []
    ensures Mapped(xs, f)[0] == f(xs[0])
    ensures Mapped(xs, f)[1..] == Mapped(xs[1..], f)
  {
  }

  /** What each row yields on its own, row j at position j. */
  function RowExamples(rows: seq<map<string, Cell>>): seq<Option<Example>> {
    Mapped(rows, RowExample)
  }

  /**
   * Row by row: the output is what each row yields on its own, in frame order,
   * so every example pairs a row's cleaned text with that same row's label.
   */
  lemma {:induction false} EncodedRowwise(rows: seq<map<string, Cell>>)
    ensures Encoded(rows) == Present(RowExamples(rows))
  {
    if rows == [] {
      assert Encoded(rows) == [];
    } else {
      var xs := RowExamples(rows);
      MappedCons(rows, RowExample);
      PresentCons(xs);
      EncodedRowwise(rows[1..]);
      EncodedHead(rows);
    }
  }

  /** The match is exact: "Positive", "neutral" and an empty cell are all dropped. */
  lemma OtherLabelsDropped(row: map<string, Cell>)
    requires CellAt(row, SentimentColumn) !in {Some("positive"), Some("negative")}
    ensures Encoded([row]) == []
  {
    assert [row][1..] == [];
  }

  /**
   * The part of `preprocess_and_save` before vectorising: the text column must
   * exist (`ValueError`), then the sentiment column (`KeyError`); the result
   * pairs each labelled row's cleaned text with its label.
   */
  function PrepareExamples(frame: Frame): (r: Result<seq<Example>, PyError>)
    ensures TextColumn !in frame.columns ==> r == Failure(ValueError(MissingTextMessage))
    ensures TextColumn in frame.columns && SentimentColumn !in frame.columns ==> r == Failure(KeyError(SentimentColumn))
    ensures r.Success? <==> TextColumn in frame.columns && SentimentColumn in frame.columns
    ensures r.Success? ==> |r.value| == CountSentiment(frame.rows, "positive") + CountSentiment(frame.rows, "negative")
    ensures r.Success? ==> r.value == Encoded(frame.rows) == Present(RowExamples(frame.rows))
  {
    if TextColumn !in frame.columns then Failure(ValueError(MissingTextMessage))
    else if SentimentColumn !in frame.columns then Failure(KeyError(SentimentColumn))
    else
      EncodedCounts(frame.rows);
      EncodedRowwise(frame.rows);
      Success(Encoded(frame.rows))
  }
}
