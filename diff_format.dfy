/** How the diff viewer renders a path and a value. `JSON.stringify` (used
    for objects) and the decimal rendering of non-integral numbers are
    passed in as functions. */
module DiffFormat {
  import opened Wrappers
  import opened Strings
  import opened JsonTree

  /** `String(n)` for a number that JavaScript prints as a plain integer. */
  predicate IsPlainInteger(n: real)
  {
    n == n.Floor as real && -1000000000000000000000.0 < n < 1000000000000000000000.0
  }

  /** `formatValue` for a defined value. */
  function FormatJson(v: Json, stringify: Json -> string, numberText: real -> string): (r: string)
    ensures v.JStr? ==> |r| == |v.s| + 2 && r[0] == '"' && r[|r| - 1] == '"' && r[1..|r| - 1] == v.s
    ensures v.JArr? ==> |r| >= 2 && r[0] == '[' && r[|r| - 1] == ']'
    ensures v == JArr([]) ==> r == "[]"
    ensures v.JNull? ==> r == "null"
    ensures v.JBool? ==> r == (if v.b then "true" else "false")
    ensures v.JNum? && IsPlainInteger(v.n) ==> r == IntToString(v.n.Floor)
    ensures v.JObj? ==> r == stringify(v)
    decreases v
  {
    match v
    case JNull => "null"
    case JStr(s) => "\"" + s + "\""
    case JArr(xs) =>
      "[" + Join(seq(|xs|, i requires 0 <= i < |xs| => FormatJson(xs[i], stringify, numberText)), ", ") + "]"
    case JObj(_) => stringify(v)
    case JBool(b) => if b then "true" else "false"
    case JNum(n) => if IsPlainInteger(n) then IntToString(n.Floor) else numberText(n)
  }

  /** `formatValue(value)`, where `undefined` is None. */
  function FormatValue(o: Option<Json>, stringify: Json -> string, numberText: real -> string): (r: string)
    ensures o.None? ==> r == "undefined"
    ensures o.Some? ==> r == FormatJson(o.value, stringify, numberText)
  {
    if o.None? then "undefined" else FormatJson(o.value, stringify, numberText)
  }

  /** Strings are quoted without escaping, so distinct strings render
      distinctly, and never as `null` or `undefined`. */
  lemma QuotedStringsDistinct(s: string, t: string, stringify: Json -> string, numberText: real -> string)
    ensures FormatJson(JStr(s), stringify, numberText) == FormatJson(JStr(t), stringify, numberText) ==> s == t
    ensures FormatValue(Some(JStr(s)), stringify, numberText) != FormatValue(None, stringify, numberText)
    ensures FormatJson(JStr(s), stringify, numberText) != FormatJson(JNull, stringify, numberText)
  {
    var r := FormatJson(JStr(s), stringify, numberText);
    assert r[0] == '"' && "undefined"[0] == 'u' && "null"[0] == 'n';
  }

  /** The items of an array rendering, before they are joined. */
  function FormatItems(xs: seq<Json>, stringify: Json -> string, numberText: real -> string): (r: seq<string>)
    ensures |r| == |xs| && forall k :: 0 <= k < |xs| ==> r[k] == FormatJson(xs[k], stringify, numberText)
  {
    seq(|xs|, i requires 0 <= i < |xs| => FormatJson(xs[i], stringify, numberText))
  }

  /** Whether ", " occurs in `s`. */
  predicate HasCommaSpace(s: string)
  {
    exists j :: 0 <= j < |s| - 1 && s[j] == ',' && s[j + 1] == ' '
  }

  /** Index of the first ", " in `s`, or |s| when there is none. */
  function CommaSpaceAt(s: string): (i: nat)
    ensures i <= |s|
    ensures i < |s| ==> i + 1 < |s| && s[i] == ',' && s[i + 1] == ' '
    ensures forall j :: 0 <= j < i && j + 1 < |s| ==> !(s[j] == ',' && s[j + 1] == ' ')
  {
    if |s| < 2 then |s|
    else if s[0] == ',' && s[1] == ' ' then 0
    else 1 + CommaSpaceAt(s[1..])
  }

  /** JavaScript's `s.split(', ')`: always at least one part. */
  function SplitItems(s: string): (parts: seq<string>)
    ensures |parts| > 0
    decreases |s|
  {
    var i := CommaSpaceAt(s);
    if i == |s| then [s] else [s[..i]] + SplitItems(s[i + 2..])
  }

  /** The first ", " of `p + sep + rest` is the separator when `p` has none. */
  lemma CommaSpaceAfter(p: string, rest: string)
    requires !HasCommaSpace(p)
    ensures CommaSpaceAt(p + ", " + rest) == |p|
  {
    var s := p + ", " + rest;
    var i := CommaSpaceAt(s);
    assert s[|p|] == ',' && s[|p| + 1] == ' ';
  }

  /** Splitting `p + ", " + rest` cuts off `p` first when `p` has no ", ". */
  lemma SplitItemsFront(p: string, rest: string)
    requires !HasCommaSpace(p)
    ensures SplitItems(p + ", " + rest) == [p] + SplitItems(rest)
  {
    var s := p + ", " + rest;
    CommaSpaceAfter(p, rest);
    assert s[..|p|] == p;
    assert s[|p| + 2..] == rest;
  }

  lemma CommaSpaceAbsent(p: string)
    requires !HasCommaSpace(p)
    ensures CommaSpaceAt(p) == |p|
  {
  }

  /** Joining items that contain no ", " with ", " and splitting again at
      ", " gives the items back. */
  lemma {:induction false} JoinSplitItems(parts: seq<string>)
    requires |parts| > 0 && forall k :: 0 <= k < |parts| ==> !HasCommaSpace(parts[k])
    ensures SplitItems(Join(parts, ", ")) == parts
    decreases |parts|
  {
    if |parts| == 1 {
      CommaSpaceAbsent(parts[0]);
    } else {
      var rest := Join(parts[1..], ", ");
      assert Join(parts, ", ") == parts[0] + ", " + rest;
      SplitItemsFront(parts[0], rest);
      JoinSplitItems(parts[1..]);
      assert parts == [parts[0]] + parts[1..];
    }
  }

  /** A non-empty array is rendered recursively: the text between the
      brackets, split at ", ", gives back each item's own rendering, as long
      as no item's rendering contains ", " itself. */
  lemma FormatArrayRoundTrip(xs: seq<Json>, stringify: Json -> string, numberText: real -> string)
    requires |xs| > 0
    requires forall k :: 0 <= k < |xs| ==> !HasCommaSpace(FormatJson(xs[k], stringify, numberText))
    ensures var r := FormatJson(JArr(xs), stringify, numberText);
            var parts := SplitItems(r[1..|r| - 1]);
            |parts| == |xs| && forall k :: 0 <= k < |xs| ==> parts[k] == FormatJson(xs[k], stringify, numberText)
  {
    var items := FormatItems(xs, stringify, numberText);
    var inner := Join(items, ", ");
    var r := FormatJson(JArr(xs), stringify, numberText);
    assert r == "[" + inner + "]";
    assert r[1..|r| - 1] == inner;
    JoinSplitItems(items);
  }

  lemma FormatPrimitiveExamples(stringify: Json -> string, numberText: real -> string)
    ensures FormatJson(JStr("string"), stringify, numberText) == "\"string\""
    ensures FormatJson(JNum(42.0), stringify, numberText) == "42"
    ensures FormatJson(JBool(true), stringify, numberText) == "true"
    ensures FormatValue(None, stringify, numberText) == "undefined"
  {
    assert (42.0).Floor == 42;
    assert IsPlainInteger(42.0);
    assert NatToString(4) == "4" && DigitChar(2) == '2';
    assert NatToString(42) == NatToString(4) + [DigitChar(2)];
    assert IntToString(42) == "42";
  }

  lemma FormatNumberArrayExample(stringify: Json -> string, numberText: real -> string)
    ensures FormatJson(JArr([JNum(1.0), JNum(2.0), JNum(3.0)]), stringify, numberText) == "[1, 2, 3]"
  {
    var xs := [JNum(1.0), JNum(2.0), JNum(3.0)];
    assert (1.0).Floor == 1 && (2.0).Floor == 2 && (3.0).Floor == 3;
    var items := seq(3, i requires 0 <= i < 3 => FormatJson(xs[i], stringify, numberText));
    assert items == ["1", "2", "3"];
    assert Join(["3"], ", ") == "3";
    assert Join(["2", "3"], ", ") == "2, 3";
    assert Join(items, ", ") == "1, 2, 3";
  }

  lemma FormatStringArrayExample(stringify: Json -> string, numberText: real -> string)
    ensures FormatJson(JArr([JStr("a"), JStr("b")]), stringify, numberText) == "[\"a\", \"b\"]"
  {
    var xs := [JStr("a"), JStr("b")];
    var items := seq(2, i requires 0 <= i < 2 => FormatJson(xs[i], stringify, numberText));
    assert items[0] == "\"a\"" && items[1] == "\"b\"";
    assert items == ["\"a\"", "\"b\""];
    assert Join(["\"b\""], ", ") == "\"b\"";
    assert Join(items, ", ") == "\"a\", \"b\"";
  }

  // -----------------------------------------------------------------------
  // Paths

  /** `formatPath(path)`. */
  function FormatPath(path: seq<string>): (r: string)
    ensures path == [] ==> r == "(root)"
    ensures |path| == 1 ==> r == path[0]
  {
    if |path| == 0 then "(root)" else Join(path, ".")
  }

  lemma {:induction false} IndexOfAfter(a: string, b: string, c: char)
    requires c !in a
    ensures IndexOf(a + [c] + b, c) == |a|
    decreases |a|
  {
    if a != [] {
      assert (a + [c] + b)[1..] == a[1..] + [c] + b;
      IndexOfAfter(a[1..], b, c);
    }
  }

  lemma {:induction false} IndexOfAbsent(a: string, c: char)
    requires c !in a
    ensures IndexOf(a, c) == |a|
    decreases |a|
  {
    if a != [] {
      IndexOfAbsent(a[1..], c);
    }
  }

  /** Splitting `a + [c] + b` cuts off `a` first when `a` has no `c`. */
  lemma SplitFront(a: string, b: string, c: char)
    requires c !in a
    ensures Split(a + [c] + b, c) == [a] + Split(b, c)
  {
    var s := a + [c] + b;
    IndexOfAfter(a, b, c);
    assert s[..|a|] == a;
    assert s[|a| + 1..] == b;
  }

  /** Joining parts that do not contain the separator and splitting again
      gives the parts back. */
  lemma {:induction false} JoinSplitRoundTrip(parts: seq<string>, c: char)
    requires |parts| > 0 && forall k :: 0 <= k < |parts| ==> c !in parts[k]
    ensures Split(Join(parts, [c]), c) == parts
    decreases |parts|
  {
    if |parts| == 1 {
      IndexOfAbsent(parts[0], c);
    } else {
      var rest := Join(parts[1..], [c]);
      assert Join(parts, [c]) == parts[0] + [c] + rest;
      SplitFront(parts[0], rest, c);
      JoinSplitRoundTrip(parts[1..], c);
      assert parts == [parts[0]] + parts[1..];
    }
  }

  /** A non-empty path whose segments contain no dot is recovered from its
      rendering; the empty path is shown as "(root)". */
  lemma FormatPathRoundTrip(path: seq<string>)
    requires path != [] && forall k :: 0 <= k < |path| ==> '.' !in path[k]
    ensures Split(FormatPath(path), '.') == path
  {
    JoinSplitRoundTrip(path, '.');
  }

  lemma FormatPathExamples()
    ensures FormatPath([]) == "(root)"
    ensures FormatPath(["axes", "x", "steps_per_mm"]) == "axes.x.steps_per_mm"
    ensures FormatPath(["homing", "cycle", "0"]) == "homing.cycle.0"
  {
    assert Join(["x", "steps_per_mm"], ".") == "x.steps_per_mm";
    assert Join(["axes", "x", "steps_per_mm"], ".") == "axes.x.steps_per_mm";
    assert Join(["cycle", "0"], ".") == "cycle.0";
    assert Join(["homing", "cycle", "0"], ".") == "homing.cycle.0";
  }
}
