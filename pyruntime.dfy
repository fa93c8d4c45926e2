/**
 * The pieces of Python's built-in behaviour that the modelled code relies on:
 * whitespace as `str.isspace` (and the `\s` class of a `str` regular expression)
 * sees it, `str.strip`, `str.join`, `str.split("\n")`, the values `json.loads`
 * produces, `dict.get`, `for` over a value, subscripting with a string key, and
 * the text `str(e)` gives for the exceptions these raise.
 */
module PyRuntime {
  import opened Wrappers

  // ---------------------------------------------------------------------------
  // Whitespace, strip, join, split
  // ---------------------------------------------------------------------------

  /** `c.isspace()`: the characters `\s` matches in a `str` pattern and `strip()` removes. */
  predicate IsSpace(c: char) {
    || c == ' '
    || ('\t' <= c <= '\r')
    || ('\U{1C}' <= c <= '\U{1F}')
    || c == '\U{85}' || c == '\U{A0}' || c == '\U{1680}'
    || ('\U{2000}' <= c <= '\U{200A}')
    || c == '\U{2028}' || c == '\U{2029}' || c == '\U{202F}' || c == '\U{205F}' || c == '\U{3000}'
  }

  /** `s.lstrip()`: the longest suffix of `s` that does not start with whitespace. */
  function StripLeft(s: string): (r: string)
    ensures |r| <= |s| && r == s[|s| - |r|..]
    ensures r == [] || !IsSpace(r[0])
    ensures forall k :: 0 <= k < |s| - |r| ==> IsSpace(s[k])
  {
    if s != [] && IsSpace(s[0]) then StripLeft(s[1..]) else s
  }

  /** `s.rstrip()`: the longest prefix of `s` that does not end with whitespace. */
  function StripRight(s: string): (r: string)
    ensures |r| <= |s| && r == s[..|r|]
    ensures r == [] || !IsSpace(r[|r| - 1])
    ensures forall k :: |r| <= k < |s| ==> IsSpace(s[k])
  {
    if s != [] && IsSpace(s[|s| - 1]) then StripRight(s[..|s| - 1]) else s
  }

  /** `s.strip()`. */
  function Strip(s: string): (r: string)
  {
    StripRight(StripLeft(s))
  }

  /** What `strip()` keeps: the part of `s` between its leading and its trailing whitespace, with no whitespace left at either end. */
  lemma StripKeepsCore(s: string)
    ensures var r, i := Strip(s), |s| - |StripLeft(s)|;
      && (r == [] || (!IsSpace(r[0]) && !IsSpace(r[|r| - 1])))
      && i + |r| <= |s| && r == s[i..i + |r|]
      && (forall k :: 0 <= k < i ==> IsSpace(s[k]))
      && (forall k :: i + |r| <= k < |s| ==> IsSpace(s[k]))
  {
    StripSlice(s);
    StripEnds(s);
    StripTrailing(s);
  }

  lemma StripSlice(s: string)
    ensures var r, i := Strip(s), |s| - |StripLeft(s)|;
      i + |r| <= |s| && r == s[i..i + |r|]
  {
    var l := StripLeft(s);
    var r := StripRight(l);
    var i := |s| - |l|;
    assert r == s[i..][0..|r|] by {
      assert l == s[i..];
      assert r == l[..|r|];
    }
    SliceOfSuffix(s, i, 0, |r|);
  }

  /** A slice of a suffix is a slice of the whole. */
  lemma SliceOfSuffix<T>(s: seq<T>, a: nat, lo: nat, hi: nat)
    requires a <= |s| && lo <= hi <= |s| - a
    ensures s[a..][lo..hi] == s[a + lo..a + hi]
  {
    forall k | 0 <= k < hi - lo
      ensures s[a..][lo..hi][k] == s[a + lo..a + hi][k]
    {
      assert s[a..][lo..hi][k] == s[a + lo + k];
    }
  }

  lemma StripEnds(s: string)
    ensures var r := Strip(s);
      r == [] || (!IsSpace(r[0]) && !IsSpace(r[|r| - 1]))
  {
    var l := StripLeft(s);
    var r := StripRight(l);
    if r != [] {
      assert r[0] == l[0];
    }
  }

  lemma StripTrailing(s: string)
    ensures var r, i := Strip(s), |s| - |StripLeft(s)|;
      forall k :: i + |r| <= k < |s| ==> IsSpace(s[k])
  {
    var l := StripLeft(s);
    var r := StripRight(l);
    var i := |s| - |l|;
    forall k | i + |r| <= k < |s| ensures IsSpace(s[k]) {
      assert s[k] == l[k - i];
    }
  }

  /** `sep.join(xs)`. */
  function Join(sep: string, xs: seq<string>): (r: string)
  {
    if xs == [] then "" else if |xs| == 1 then xs[0] else xs[0] + sep + Join(sep, xs[1..])
  }

  /** Joining one more element adds the separator and that element at the end. */
  lemma {:induction false} JoinAppend(sep: string, xs: seq<string>, y: string)
    requires xs != []
    ensures Join(sep, xs + [y]) == Join(sep, xs) + sep + y
  {
    if |xs| == 1 {
      assert xs + [y] == [xs[0], y];
    } else {
      assert (xs + [y])[1..] == xs[1..] + [y];
      JoinAppend(sep, xs[1..], y);
    }
  }

  /** `s.split("\n")`: the pieces between newlines; never empty. */
  function SplitLines(s: string): (r: seq<string>)
    ensures |r| >= 1
    ensures forall i :: 0 <= i < |r| ==> '\n' !in r[i]
  {
    if s == [] then [""]
    else
      var t := SplitLines(s[1..]);
      if s[0] == '\n' then [""] + t else [[s[0]] + t[0]] + t[1..]
  }

  /** Splitting on newlines and joining with newlines gives back the text. */
  lemma {:induction false} JoinSplitLines(s: string)
    ensures Join("\n", SplitLines(s)) == s
  {
    if s != [] {
      var t := SplitLines(s[1..]);
      JoinSplitLines(s[1..]);
      if s[0] == '\n' {
        assert ([""] + t)[1..] == t;
      } else {
        var r := [[s[0]] + t[0]] + t[1..];
        if |t| == 1 {
          assert Join("\n", r) == [s[0]] + t[0];
        } else {
          assert r[1..] == t[1..];
          assert Join("\n", t) == t[0] + "\n" + Join("\n", t[1..]);
        }
      }
    }
  }

  /** A line without a newline followed by a newline splits off as one piece. */
  lemma {:induction false} SplitLinesCons(x: string, rest: string)
    requires '\n' !in x
    ensures SplitLines(x + "\n" + rest) == [x] + SplitLines(rest)
    ensures SplitLines(x) == [x]
  {
    if x == [] {
      assert x + "\n" + rest == ['\n'] + rest;
      assert (['\n'] + rest)[1..] == rest;
    } else {
      assert (x + "\n" + rest)[1..] == x[1..] + "\n" + rest;
      SplitLinesCons(x[1..], rest);
      assert [x[0]] + x[1..] == x;
    }
  }

  /** Joining newline-free lines with newlines and splitting again gives back the lines. */
  lemma {:induction false} SplitJoinLines(xs: seq<string>)
    requires xs != []
    requires forall i :: 0 <= i < |xs| ==> '\n' !in xs[i]
    ensures SplitLines(Join("\n", xs)) == xs
  {
    if |xs| == 1 {
      SplitLinesCons(xs[0], "");
    } else {
      var rest := Join("\n", xs[1..]);
      assert Join("\n", xs) == xs[0] + "\n" + rest;
      SplitLinesCons(xs[0], rest);
      SplitJoinLines(xs[1..]);
      assert [xs[0]] + xs[1..] == xs;
    }
  }

  // ---------------------------------------------------------------------------
  // JSON values and the Python operations the code applies to them
  // ---------------------------------------------------------------------------

  /**
   * A value as `json.loads` returns it. An object keeps its members in document
   * order; as in the `dict` Python builds, a repeated key keeps its first
   * position and its last value.
   */
  datatype Json =
    | JNull
    | JBool(b: bool)
    | JInt(i: int)
    | JFloat(f: real)
    | JStr(s: string)
    | JArray(items: seq<Json>)
    | JObject(members: seq<(string, Json)>)

  /** `type(v).__name__`. */
  function TypeName(v: Json): string {
    match v
    case JNull => "NoneType"
    case JBool(_) => "bool"
    case JInt(_) => "int"
    case JFloat(_) => "float"
    case JStr(_) => "str"
    case JArray(_) => "list"
    case JObject(_) => "dict"
  }

  predicate HasKey(members: seq<(string, Json)>, key: string) {
    exists i :: 0 <= i < |members| && members[i].0 == key
  }

  /** `d.get(key)`: the last value given for `key`, or `None`. */
  function DictGet(members: seq<(string, Json)>, key: string): (v: Json)
    ensures !HasKey(members, key) ==> v == JNull
    ensures HasKey(members, key) ==> exists i :: 0 <= i < |members| && members[i] == (key, v)
  {
    if members == [] then JNull
    else if members[|members| - 1].0 == key then members[|members| - 1].1
    else DictGet(members[..|members| - 1], key)
  }

  /** The value `get` finds is the one at the last position that carries the key. */
  lemma {:induction false} DictGetAt(members: seq<(string, Json)>, key: string, i: nat)
    requires i < |members| && members[i].0 == key
    requires forall j :: i < j < |members| ==> members[j].0 != key
    ensures DictGet(members, key) == members[i].1
  {
    if i < |members| - 1 {
      DictGetAt(members[..|members| - 1], key, i);
    }
  }

  /** The keys of a dict, each once. The body lists them in the order of first appearance, as
    * a Python dict does; no modelled behaviour depends on that order, so the contract leaves it out. */
  function DictKeys(members: seq<(string, Json)>): (ks: seq<string>)
    ensures forall k :: k in ks <==> HasKey(members, k)
    ensures forall i, j :: 0 <= i < j < |ks| ==> ks[i] != ks[j]
  {
    if members == [] then []
    else
      var ks := DictKeys(members[..|members| - 1]);
      var k := members[|members| - 1].0;
      if k in ks then ks else ks + [k]
  }

  /** Python exceptions the modelled code raises or lets through. */
  datatype PyError =
    | ApiError(message: string)               // raised by a client library call
    | DecodeError(message: string)            // `json.JSONDecodeError`
    | KeyError(key: string)
    | TypeError(message: string)
    | AttributeError(typeName: string, attr: string)
    | ValidationError(model: string, locations: seq<string>) // pydantic's `ValidationError`, one location per failing field
    | RuntimeError(message: string)
    | ValueError(message: string)

  /** The value of a digit character; 0 for any other character. */
  function DigitValue(c: char): nat {
    if '0' <= c <= '9' then c as int - '0' as int else 0
  }

  /** The number a string of decimal digits denotes, most significant digit first. */
  function DigitsValue(s: string): nat {
    if s == [] then 0 else 10 * DigitsValue(s[..|s| - 1]) + DigitValue(s[|s| - 1])
  }

  /** The decimal digits of `n`, as `str(n)` writes them: they denote `n`, with no leading zero. */
  function NatToString(n: nat): (s: string)
    ensures |s| >= 1
    ensures forall i :: 0 <= i < |s| ==> '0' <= s[i] <= '9'
    ensures DigitsValue(s) == n
    ensures s[0] == '0' <==> n == 0
    ensures n == 0 ==> s == "0"
  {
    var digit := ['0' + ((n % 10) as char)];
    if n < 10 then digit else NatToString(n / 10) + digit
  }

  /** The names of the fields whose check failed, in field order: the locations pydantic reports. */
  function FailingFields(checks: seq<(string, bool)>): (names: seq<string>)
    ensures names == [] <==> forall i :: 0 <= i < |checks| ==> checks[i].1
    ensures forall n :: n in names <==> exists i :: 0 <= i < |checks| && !checks[i].1 && checks[i].0 == n
  {
    if checks == [] then []
    else (if checks[0].1 then [] else [checks[0].0]) + FailingFields(checks[1..])
  }

  /** pydantic's header line, then one line per failing field's location. */
  function ValidationText(model: string, locations: seq<string>): string {
    NatToString(|locations|) + (if |locations| == 1 then " validation error for " else " validation errors for ")
    + model + LocationLines(locations)
  }

  function LocationLines(locations: seq<string>): string {
    if locations == [] then "" else "\n" + locations[0] + LocationLines(locations[1..])
  }

  /** `str(e)`; a validation error shows its header line and the location of every failing field. */
  function Describe(e: PyError): string {
    match e
    case ApiError(m) => m
    case DecodeError(m) => m
    case KeyError(k) => "'" + k + "'"
    case TypeError(m) => m
    case AttributeError(t, a) => "'" + t + "' object has no attribute '" + a + "'"
    case ValidationError(model, locations) => ValidationText(model, locations)
    case RuntimeError(m) => m
    case ValueError(m) => m
  }

  /** The elements `for item in v` visits, or the `TypeError` for a value that is not iterable. */
  function Iterate(v: Json): (r: Result<seq<Json>, PyError>)
    ensures r.Failure? <==> !(v.JArray? || v.JStr? || v.JObject?)
    ensures r.Success? ==> forall i :: 0 <= i < |r.value| ==> v.JArray? || r.value[i].JStr?
    ensures v.JArray? ==> r == Success(v.items)
    ensures v.JStr? ==> r.Success? && |r.value| == |v.s| && forall i :: 0 <= i < |v.s| ==> r.value[i] == JStr([v.s[i]])
    ensures v.JObject? ==> r.Success? && |r.value| == |DictKeys(v.members)|
    ensures v.JObject? ==> forall i :: 0 <= i < |r.value| ==> r.value[i] == JStr(DictKeys(v.members)[i])
  {
    match v
    case JArray(xs) => Success(xs)
    case JStr(s) => Success(seq(|s|, i requires 0 <= i < |s| => JStr([s[i]])))
    case JObject(ms) =>
      var ks := DictKeys(ms);
      Success(seq(|ks|, i requires 0 <= i < |ks| => JStr(ks[i])))
    case _ => Failure(TypeError("'" + TypeName(v) + "' object is not iterable"))
  }

  /** `v[key]` for a string key. */
  function Subscript(v: Json, key: string): (r: Result<Json, PyError>)
    ensures r.Success? <==> v.JObject? && HasKey(v.members, key)
    ensures r.Success? ==> r.value == DictGet(v.members, key)
    ensures v.JObject? && !HasKey(v.members, key) ==> r == Failure(KeyError(key))
  {
    match v
    case JObject(ms) => if HasKey(ms, key) then Success(DictGet(ms, key)) else Failure(KeyError(key))
    case JArray(_) => Failure(TypeError("list indices must be integers or slices, not str"))
    case JStr(_) => Failure(TypeError("string indices must be integers, not 'str'"))
    case _ => Failure(TypeError("'" + TypeName(v) + "' object is not subscriptable"))
  }
}
