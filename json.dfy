/** The configuration tree as JavaScript sees it: a JSON-like value whose
    objects keep their keys in insertion order, together with the handful of
    JavaScript semantics the configuration code relies on (property reads,
    assignment, `delete`, object spread, truthiness, `typeof` and the numeric
    coercion of `x <= 0`). A key that is absent reads as `undefined`, so the
    model has no separate `undefined` value: a read returns an Option. */
module JsonTree {
  import opened Strings
  import opened Wrappers

  datatype Json =
    | JNull
    | JBool(b: bool)
    | JNum(n: real)
    | JStr(s: string)
    | JArr(items: seq<Json>)
    | JObj(fields: seq<Field>)

  /** One own property of an object, in insertion order. */
  datatype Field = Field(key: string, val: Json)

  const EmptyObj: Json := JObj([])

  // ---------------------------------------------------------------------
  // Objects as ordered association lists

  function Keys(fs: seq<Field>): (ks: seq<string>)
    ensures |ks| == |fs|
    ensures forall i :: 0 <= i < |fs| ==> ks[i] == fs[i].key
  {
    if fs == [] then [] else [fs[0].key] + Keys(fs[1..])
  }

  predicate HasKey(fs: seq<Field>, k: string)
  {
    k in Keys(fs)
  }

  /** Every JavaScript object has distinct own keys. */
  predicate DistinctKeys(fs: seq<Field>)
  {
    forall i, j :: 0 <= i < j < |fs| ==> fs[i].key != fs[j].key
  }

  /** `obj[k]` on an object: the value stored under `k`, if any. */
  function Lookup(fs: seq<Field>, k: string): (r: Option<Json>)
    ensures r.Some? <==> HasKey(fs, k)
  {
    if fs == [] then None
    else if fs[0].key == k then Some(fs[0].val)
    else Lookup(fs[1..], k)
  }

  /** The first field under `k` gets the value `v`. */
  function ReplaceValue(fs: seq<Field>, k: string, v: Json): (r: seq<Field>)
    ensures Keys(r) == Keys(fs)
  {
    if fs == [] then []
    else if fs[0].key == k then [Field(k, v)] + fs[1..]
    else [fs[0]] + ReplaceValue(fs[1..], k, v)
  }

  /** `obj[k] = v`: an existing key keeps its position, a new key goes last. */
  function Put(fs: seq<Field>, k: string, v: Json): seq<Field>
  {
    if HasKey(fs, k) then ReplaceValue(fs, k, v) else fs + [Field(k, v)]
  }

  /** `delete obj[k]`: the other keys keep their order. */
  function Remove(fs: seq<Field>, k: string): seq<Field>
  {
    if fs == [] then []
    else if fs[0].key == k then Remove(fs[1..], k)
    else [fs[0]] + Remove(fs[1..], k)
  }

  /** `{ ...a, ...b }`: the keys of `a` in their order, then the new keys of `b`;
      on a shared key the value of `b` wins. */
  function Merge(a: seq<Field>, b: seq<Field>): seq<Field>
    decreases |b|
  {
    if b == [] then a else Merge(Put(a, b[0].key, b[0].val), b[1..])
  }

  lemma {:induction false} LookupReplace(fs: seq<Field>, k: string, v: Json, k': string)
    ensures Lookup(ReplaceValue(fs, k, v), k') ==
            if k' == k && HasKey(fs, k) then Some(v) else Lookup(fs, k')
  {
    if fs != [] {
      LookupReplace(fs[1..], k, v, k');
    }
  }

  lemma {:induction false} LookupAppend(fs: seq<Field>, f: Field, k': string)
    ensures Lookup(fs + [f], k') ==
            if HasKey(fs, k') then Lookup(fs, k') else if f.key == k' then Some(f.val) else None
  {
    if fs != [] {
      assert (fs + [f])[1..] == fs[1..] + [f];
      LookupAppend(fs[1..], f, k');
    }
  }

  /** Reading back an assigned key gives the value; other keys are untouched. */
  lemma LookupPut(fs: seq<Field>, k: string, v: Json, k': string)
    ensures Lookup(Put(fs, k, v), k') == if k' == k then Some(v) else Lookup(fs, k')
  {
    if HasKey(fs, k) {
      LookupReplace(fs, k, v, k');
    } else {
      LookupAppend(fs, Field(k, v), k');
    }
  }

  /** Assigning a key the value it already has changes nothing. */
  lemma {:induction false} PutLookup(fs: seq<Field>, k: string)
    requires HasKey(fs, k)
    ensures Put(fs, k, Lookup(fs, k).value) == fs
  {
    if fs[0].key != k {
      assert HasKey(fs[1..], k) by { assert Keys(fs) == [fs[0].key] + Keys(fs[1..]); }
      PutLookup(fs[1..], k);
    }
  }

  /** A second assignment to the same key overrides the first. */
  lemma {:induction false} PutPut(fs: seq<Field>, k: string, v: Json, w: Json)
    ensures Put(Put(fs, k, v), k, w) == Put(fs, k, w)
  {
    if HasKey(fs, k) {
      ReplaceTwice(fs, k, v, w);
    } else {
      KeysPut(fs, k, v);
      ReplaceLast(fs, Field(k, v), w);
    }
  }

  lemma {:induction false} ReplaceTwice(fs: seq<Field>, k: string, v: Json, w: Json)
    ensures ReplaceValue(ReplaceValue(fs, k, v), k, w) == ReplaceValue(fs, k, w)
  {
    if fs != [] && fs[0].key != k {
      ReplaceTwice(fs[1..], k, v, w);
    }
  }

  lemma {:induction false} ReplaceLast(fs: seq<Field>, f: Field, w: Json)
    requires !HasKey(fs, f.key)
    ensures ReplaceValue(fs + [f], f.key, w) == fs + [Field(f.key, w)]
  {
    if fs != [] {
      assert Keys(fs) == [fs[0].key] + Keys(fs[1..]);
      assert (fs + [f])[1..] == fs[1..] + [f];
      ReplaceLast(fs[1..], f, w);
    }
  }

  lemma KeysPut(fs: seq<Field>, k: string, v: Json)
    ensures Keys(Put(fs, k, v)) == if HasKey(fs, k) then Keys(fs) else Keys(fs) + [k]
  {
    if !HasKey(fs, k) {
      assert Keys(fs + [Field(k, v)]) == Keys(fs) + [k];
    }
  }

  lemma {:induction false} LookupRemove(fs: seq<Field>, k: string, k': string)
    ensures Lookup(Remove(fs, k), k') == if k' == k then None else Lookup(fs, k')
  {
    if fs != [] {
      LookupRemove(fs[1..], k, k');
    }
  }

  lemma {:induction false} HasKeyRemove(fs: seq<Field>, k: string, k': string)
    ensures HasKey(Remove(fs, k), k') <==> k' != k && HasKey(fs, k')
  {
    LookupRemove(fs, k, k');
  }

  lemma {:induction false} RemoveAbsent(fs: seq<Field>, k: string)
    requires !HasKey(fs, k)
    ensures Remove(fs, k) == fs
  {
    if fs != [] {
      assert Keys(fs) == [fs[0].key] + Keys(fs[1..]);
      RemoveAbsent(fs[1..], k);
    }
  }

  lemma {:induction false} DistinctRemove(fs: seq<Field>, k: string)
    requires DistinctKeys(fs)
    ensures DistinctKeys(Remove(fs, k))
  {
    if fs != [] {
      DistinctRemove(fs[1..], k);
      var r := Remove(fs[1..], k);
      if fs[0].key != k {
        forall j | 0 <= j < |r| ensures r[j].key != fs[0].key {
          assert r[j].key in Keys(r);
          HasKeyRemove(fs[1..], k, r[j].key);
          assert HasKey(fs[1..], r[j].key);
        }
      }
    }
  }

  lemma DistinctPut(fs: seq<Field>, k: string, v: Json)
    requires DistinctKeys(fs)
    ensures DistinctKeys(Put(fs, k, v))
  {
    KeysPut(fs, k, v);
    var r := Put(fs, k, v);
    forall i, j | 0 <= i < j < |r| ensures r[i].key != r[j].key {
      assert Keys(r)[i] == r[i].key && Keys(r)[j] == r[j].key;
    }
  }

  /** Spreading keeps the keys of an object distinct. */
  lemma {:induction false} DistinctMerge(a: seq<Field>, b: seq<Field>)
    requires DistinctKeys(a)
    ensures DistinctKeys(Merge(a, b))
    decreases |b|
  {
    if b != [] {
      DistinctPut(a, b[0].key, b[0].val);
      DistinctMerge(Put(a, b[0].key, b[0].val), b[1..]);
    }
  }

  /** Spreading `b` over `a` reads `b`'s value on `b`'s keys and `a`'s elsewhere. */
  lemma {:induction false} LookupMerge(a: seq<Field>, b: seq<Field>, k: string)
    requires DistinctKeys(b)
    ensures Lookup(Merge(a, b), k) == if HasKey(b, k) then Lookup(b, k) else Lookup(a, k)
    decreases |b|
  {
    if b != [] {
      var a' := Put(a, b[0].key, b[0].val);
      assert DistinctKeys(b[1..]);
      LookupMerge(a', b[1..], k);
      LookupPut(a, b[0].key, b[0].val, k);
      if k == b[0].key {
        assert !HasKey(b[1..], k) by {
          forall j | 0 <= j < |b| - 1 ensures Keys(b[1..])[j] != k {
            assert Keys(b[1..])[j] == b[j + 1].key;
          }
        }
      }
    }
  }

  // ---------------------------------------------------------------------
  // Arrays and strings seen as objects with index keys

  /** The array index a property key denotes, if any: a canonical decimal. */
  function IndexKey(k: string): (r: Option<nat>)
  {
    if |k| > 0 && AllDigits(k) && (k == "0" || k[0] != '0') then Some(DigitsValue(k)) else None
  }

  lemma IndexKeyOfIndex(i: nat)
    ensures IndexKey(NatToString(i)) == Some(i)
  {
    NatToStringRoundTrip(i);
  }

  function IndexFields(xs: seq<Json>): (fs: seq<Field>)
    ensures |fs| == |xs|
    ensures forall i :: 0 <= i < |xs| ==> fs[i] == Field(NatToString(i), xs[i])
  {
    seq(|xs|, i requires 0 <= i < |xs| => Field(NatToString(i), xs[i]))
  }

  function CharValues(s: string): (xs: seq<Json>)
    ensures |xs| == |s| && forall i :: 0 <= i < |s| ==> xs[i] == JStr([s[i]])
  {
    seq(|s|, i requires 0 <= i < |s| => JStr([s[i]]))
  }

  /** The own enumerable properties `{ ...v }` copies and `Object.entries(v)`
      lists: an object's fields, an array's or a string's indices, nothing
      for the other primitives. */
  function SpreadFields(v: Json): seq<Field>
  {
    match v
    case JObj(fs) => fs
    case JArr(xs) => IndexFields(xs)
    case JStr(s) => IndexFields(CharValues(s))
    case _ => []
  }

  /** `{ ...o }` for a value that may be undefined. */
  function SpreadOf(o: Option<Json>): seq<Field>
  {
    if o.Some? then SpreadFields(o.value) else []
  }

  /** `Object.keys(v)`. */
  function KeysOf(v: Json): seq<string>
  {
    Keys(SpreadFields(v))
  }

  /** Property read `v[k]`, where `undefined` is None. Inherited properties
      (methods of the prototypes) are not part of the tree. */
  function Prop(v: Json, k: string): Option<Json>
  {
    match v
    case JObj(fs) => Lookup(fs, k)
    case JArr(xs) =>
      if k == "length" then Some(JNum(|xs| as real))
      else if IndexKey(k).Some? && IndexKey(k).value < |xs| then Some(xs[IndexKey(k).value])
      else None
    case JStr(s) =>
      if k == "length" then Some(JNum(|s| as real))
      else if IndexKey(k).Some? && IndexKey(k).value < |s| then Some(JStr([s[IndexKey(k).value]]))
      else None
    case _ => None
  }

  /** Optional chaining `o?.[k]`. */
  function Get(o: Option<Json>, k: string): Option<Json>
  {
    if o.Some? then Prop(o.value, k) else None
  }

  /** `k in obj` for an object (own keys). */
  predicate InObj(v: Json, k: string)
  {
    v.JObj? && HasKey(v.fields, k)
  }

  // ---------------------------------------------------------------------
  // Truthiness, typeof and numeric coercion

  predicate Truthy(v: Json)
  {
    match v
    case JNull => false
    case JBool(b) => b
    case JNum(n) => n != 0.0
    case JStr(s) => s != ""
    case _ => true
  }

  /** Truthiness of a possibly `undefined` value. */
  predicate Present(o: Option<Json>)
  {
    o.Some? && Truthy(o.value)
  }

  function TypeOf(v: Json): string
  {
    match v
    case JBool(_) => "boolean"
    case JNum(_) => "number"
    case JStr(_) => "string"
    case _ => "object"
  }

  /** `typeof v === 'object' && v !== null`. */
  predicate IsObjectLike(v: Json)
  {
    v.JArr? || v.JObj?
  }

  // ---------------------------------------------------------------------
  // Number(…)

  /** A JavaScript number as `Number(…)` gives it: NaN, a finite value or an
      infinity. Finite values are exact reals; the rounding to the nearest
      double is not modelled. */
  datatype JsNumber = NaN | Finite(value: real) | Infinite(negative: bool)

  /** `m` times ten to the power `x`. */
  function Scaled(m: real, x: int): real
    decreases if x < 0 then -x else x
  {
    if x == 0 then m
    else if x > 0 then Scaled(m, x - 1) * 10.0
    else Scaled(m, x + 1) / 10.0
  }

  /** Scaling by a power of ten keeps the sign. */
  lemma {:induction false} ScaledSign(m: real, x: int)
    ensures Scaled(m, x) > 0.0 <==> m > 0.0
    ensures Scaled(m, x) < 0.0 <==> m < 0.0
    ensures Scaled(-m, x) == -Scaled(m, x)
    decreases if x < 0 then -x else x
  {
    if x > 0 {
      ScaledSign(m, x - 1);
    } else if x < 0 {
      ScaledSign(m, x + 1);
    }
  }

  /** The value of a digit of a `0x`, `0o` or `0b` literal: 0-9, then a-f
      and A-F as 10-15; 16 for any other character. */
  function RadixDigit(c: char): nat
  {
    if '0' <= c <= '9' then (c as int - '0' as int) as nat
    else if 'a' <= c <= 'f' then (c as int - 'a' as int + 10) as nat
    else if 'A' <= c <= 'F' then (c as int - 'A' as int + 10) as nat
    else 16
  }

  predicate AllRadixDigits(s: string, radix: nat)
  {
    forall i :: 0 <= i < |s| ==> RadixDigit(s[i]) < radix
  }

  /** The value of a run of digits in base `radix` (2, 8 or 16), most
      significant first. */
  function RadixValue(s: string, radix: nat): nat
  {
    if s == [] then 0 else TimesRadix(RadixValue(s[..|s| - 1], radix), radix) + RadixDigit(s[|s| - 1])
  }

  /** `a * radix` for the three bases, written with literal factors. */
  function TimesRadix(a: nat, radix: nat): nat
  {
    if radix == 16 then a * 16 else if radix == 8 then a * 8 else a * 2
  }

  /** The base a prefix letter after `0` names, in either case; 0 for a
      character that names none. */
  function RadixOf(c: char): (r: nat)
    ensures r <= 16
  {
    if c == 'x' || c == 'X' then 16
    else if c == 'o' || c == 'O' then 8
    else if c == 'b' || c == 'B' then 2
    else 0
  }

  /** `Number(s)` for a string, after the StringNumericLiteral grammar of
      section 7.1.4.1 of ECMA-262: a blank string is 0; otherwise the trimmed
      text must be a `0x`, `0o` or `0b` literal (no sign allowed) or a decimal
      literal, and anything else is NaN. */
  function StringToNumber(s: string): JsNumber
  {
    var t := JsTrim(s);
    if t == "" then Finite(0.0)
    else if |t| > 2 && t[0] == '0' && RadixOf(t[1]) > 0 then
      if AllRadixDigits(t[2..], RadixOf(t[1])) then Finite(RadixValue(t[2..], RadixOf(t[1])) as real) else NaN
    else ParseDecimal(t)
  }

  /** An optional sign before an unsigned decimal literal. */
  function ParseDecimal(s: string): JsNumber
  {
    var signed := |s| > 0 && (s[0] == '+' || s[0] == '-');
    Negated(ParseUnsigned(if signed then s[1..] else s), signed && s[0] == '-')
  }

  function Negated(n: JsNumber, negate: bool): JsNumber
  {
    if !negate then n
    else match n
      case NaN => NaN
      case Finite(x) => Finite(-x)
      case Infinite(neg) => Infinite(!neg)
  }

  /** `Infinity`, or a mantissa with an optional exponent part: `e` or `E`,
      an optional sign and at least one digit. */
  function ParseUnsigned(s: string): JsNumber
  {
    if s == "Infinity" then Infinite(false)
    else
      var e := if IndexOf(s, 'e') <= IndexOf(s, 'E') then IndexOf(s, 'e') else IndexOf(s, 'E');
      var m := ParseMantissa(s[..e]);
      var x := if e < |s| then ParseExponent(s[e + 1..]) else Some(0);
      if m.Some? && x.Some? then Finite(Scaled(m.value.0 as real, x.value - m.value.1)) else NaN
  }

  /** Digits with an optional fraction, at least one digit in all: the
      value of all the digits, and how many of them follow the point. */
  function ParseMantissa(s: string): Option<(nat, nat)>
  {
    var i := IndexOf(s, '.');
    var whole := s[..i];
    var frac := if i < |s| then s[i + 1..] else "";
    if AllDigits(whole) && AllDigits(frac) && |whole| + |frac| > 0 then Some((DigitsValue(whole + frac), |frac|))
    else None
  }

  /** An optional sign and at least one digit. */
  function ParseExponent(s: string): Option<int>
  {
    if |s| > 0 && (s[0] == '+' || s[0] == '-') then
      if |s| > 1 && AllDigits(s[1..]) then Some(if s[0] == '-' then -(DigitsValue(s[1..]) as int) else DigitsValue(s[1..])) else None
    else if |s| > 0 && AllDigits(s) then Some(DigitsValue(s))
    else None
  }

  /** `Number(v)`. An array reads as its string form: `[]` is "" and so 0,
      `[x]` is x's own string form (null giving ""), and two or more items
      always hold a comma, which makes NaN. */
  function ToNumber(v: Json): JsNumber
  {
    match v
    case JNull => Finite(0.0)
    case JBool(b) => Finite(if b then 1.0 else 0.0)
    case JNum(n) => Finite(n)
    case JStr(s) => StringToNumber(s)
    case JArr(xs) =>
      if xs == [] || (xs[0].JNull? && |xs| == 1) then Finite(0.0)
      else if |xs| > 1 || xs[0].JBool? || xs[0].JObj? then NaN
      else ToNumber(xs[0])
    case JObj(_) => NaN
  }

  /** `o <= c` for a possibly `undefined` operand (undefined and NaN compare false). */
  predicate AtMost(o: Option<Json>, c: real)
  {
    o.Some? && match ToNumber(o.value)
      case NaN => false
      case Finite(x) => x <= c
      case Infinite(neg) => neg
  }

  /** `o < c`. */
  predicate Below(o: Option<Json>, c: real)
  {
    o.Some? && match ToNumber(o.value)
      case NaN => false
      case Finite(x) => x < c
      case Infinite(neg) => neg
  }

  /** `o > c`. */
  predicate Above(o: Option<Json>, c: real)
  {
    o.Some? && match ToNumber(o.value)
      case NaN => false
      case Finite(x) => x > c
      case Infinite(neg) => !neg
  }

  /** A string is its own trim when it neither starts nor ends with white
      space. */
  lemma TrimPlain(s: string)
    requires |s| > 0 && !IsJsWhitespace(s[0]) && !IsJsWhitespace(s[|s| - 1])
    ensures JsTrim(s) == s
  {
  }

  /** A digit run has no exponent mark, no point and no white space. */
  lemma DigitsPlain(m: string)
    requires |m| > 0 && AllDigits(m)
    ensures IndexOf(m, 'e') == |m| && IndexOf(m, 'E') == |m| && IndexOf(m, '.') == |m|
    ensures JsTrim(m) == m && m != "Infinity"
  {
    assert IndexOf(m, 'e') == |m| && IndexOf(m, 'E') == |m| && IndexOf(m, '.') == |m| by {
      assert !IsDigit('e') && !IsDigit('E') && !IsDigit('.');
    }
    assert JsTrim(m) == m by {
      TrimPlain(m);
    }
    assert m != "Infinity" by {
      assert IsDigit(m[0]) && !IsDigit('I');
    }
  }

  /** A trimmed text that is no radix literal is read as a decimal one. */
  lemma DecimalText(t: string)
    requires |t| > 0 && !IsJsWhitespace(t[0]) && !IsJsWhitespace(t[|t| - 1])
    requires |t| > 1 ==> t[0] != '0' || RadixOf(t[1]) == 0
    ensures StringToNumber(t) == ParseDecimal(t)
  {
    TrimPlain(t);
  }

  lemma UnsignedDigits(m: string)
    requires |m| > 0 && AllDigits(m)
    ensures ParseUnsigned(m) == Finite(DigitsValue(m) as real)
  {
    DigitsPlain(m);
    assert m[..|m|] == m;
    assert m + "" == m;
    assert ParseMantissa(m) == Some((DigitsValue(m), 0));
  }

  lemma UnsignedExponent(m: string, d: string)
    requires |m| > 0 && AllDigits(m) && |d| > 0 && AllDigits(d)
    ensures ParseUnsigned(m + "e" + d) == Finite(Scaled(DigitsValue(m) as real, DigitsValue(d)))
  {
    DigitsPlain(m);
    assert m[..|m|] == m;
    assert m + "" == m;
    assert ParseMantissa(m) == Some((DigitsValue(m), 0));
    var u := m + "e" + d;
    assert u[|m|] == 'e';
    assert forall i :: 0 <= i < |m| ==> u[i] == m[i];
    assert forall i :: |m| < i < |u| ==> u[i] == d[i - |m| - 1];
    assert IndexOf(u, 'e') == |m| by {
      IndexOfFirst(u, 'e');
    }
    assert IndexOf(u, 'E') == |u|;
    assert u != "Infinity" by {
      assert u[0] == m[0];
    }
    assert u[..|m|] == m && u[|m| + 1..] == d;
    assert ParseExponent(d) == Some(DigitsValue(d) as int);
  }

  /** Decimal digits read as their value, and an exponent part scales them
      by that power of ten. */
  lemma DecimalForm(m: string, d: string)
    requires |m| > 0 && AllDigits(m) && |d| > 0 && AllDigits(d)
    ensures StringToNumber(m) == Finite(DigitsValue(m) as real)
    ensures StringToNumber(m + "e" + d) == Finite(Scaled(DigitsValue(m) as real, DigitsValue(d)))
  {
    DigitsText(m);
    ExponentText(m, d);
  }

  lemma ExponentText(m: string, d: string)
    requires |m| > 0 && AllDigits(m) && |d| > 0 && AllDigits(d)
    ensures StringToNumber(m + "e" + d) == Finite(Scaled(DigitsValue(m) as real, DigitsValue(d)))
  {
    ExponentShape(m, d);
    UnsignedText(m + "e" + d);
    UnsignedExponent(m, d);
  }

  /** The ends of a digit run, an exponent mark and a digit run. */
  lemma ExponentShape(m: string, d: string)
    requires |m| > 0 && AllDigits(m) && |d| > 0
    ensures var u := m + "e" + d; IsDigit(u[0]) && u[|u| - 1] == d[|d| - 1] && (|u| > 1 ==> u[1] == 'e' || IsDigit(u[1]))
  {
  }

  /** A minus sign in front of an unsigned decimal text negates the number
      it reads as. */
  lemma MinusNegates(u: string, x: real)
    requires |u| > 0 && IsDigit(u[0]) && IsDigit(u[|u| - 1])
    requires |u| > 1 ==> u[0] != '0' || RadixOf(u[1]) == 0
    requires StringToNumber(u) == Finite(x)
    ensures StringToNumber("-" + u) == Finite(-x)
  {
    DecimalText(u);
    NegativeText(u, x);
  }

  /** A text that starts and ends with a decimal digit and has no radix
      prefix is read by `ParseUnsigned`. */
  lemma UnsignedText(u: string)
    requires |u| > 0 && IsDigit(u[0]) && IsDigit(u[|u| - 1])
    requires |u| > 1 ==> u[1] == 'e' || IsDigit(u[1])
    ensures StringToNumber(u) == ParseUnsigned(u)
  {
    DecimalText(u);
  }

  /** The same text after a minus sign is read negated. */
  lemma NegativeText(u: string, x: real)
    requires |u| > 0 && IsDigit(u[|u| - 1]) && ParseUnsigned(u) == Finite(x)
    ensures StringToNumber("-" + u) == Finite(-x)
  {
    MinusDecimal(u);
    MinusUnsigned(u, x);
  }

  /** Where the sign and the text sit in `"-" + u`. */
  lemma MinusShape(u: string)
    requires |u| > 0 && IsDigit(u[|u| - 1])
    ensures var v := "-" + u; |v| > 1 && v[0] == '-' && v[1..] == u
    ensures var v := "-" + u; !IsJsWhitespace(v[0]) && !IsJsWhitespace(v[|v| - 1])
  {
    var v := "-" + u;
    assert v[|v| - 1] == u[|u| - 1];
  }

  lemma MinusDecimal(u: string)
    requires |u| > 0 && IsDigit(u[|u| - 1])
    ensures StringToNumber("-" + u) == ParseDecimal("-" + u)
  {
    MinusShape(u);
    DecimalText("-" + u);
  }

  lemma MinusUnsigned(u: string, x: real)
    requires |u| > 0 && IsDigit(u[|u| - 1]) && ParseUnsigned(u) == Finite(x)
    ensures ParseDecimal("-" + u) == Finite(-x)
  {
    MinusShape(u);
  }


  /** `"0x"`, `"0o"` or `"0b"`, in either case, and digits of that base read
      as the digits' value in that base. */
  lemma RadixForm(p: char, d: string)
    requires RadixOf(p) > 0 && |d| > 0 && AllRadixDigits(d, RadixOf(p))
    ensures StringToNumber("0" + [p] + d) == Finite(RadixValue(d, RadixOf(p)) as real)
  {
    var t := "0" + [p] + d;
    RadixShape(p, d);
    assert RadixDigit(d[|d| - 1]) < 16;
    RadixText(t);
  }

  /** Where the prefix and the digits sit in `"0" + [p] + d`. */
  lemma RadixShape(p: char, d: string)
    requires |d| > 0
    ensures var t := "0" + [p] + d; |t| > 2 && t[0] == '0' && t[1] == p && t[2..] == d && t[|t| - 1] == d[|d| - 1]
  {
    var t := "0" + [p] + d;
    assert t == ['0', p] + d;
  }

  /** A trimmed text with a radix prefix is read by the radix branch. */
  lemma RadixText(t: string)
    requires |t| > 2 && t[0] == '0' && RadixOf(t[1]) > 0 && RadixDigit(t[|t| - 1]) < 16
    ensures StringToNumber(t) == if AllRadixDigits(t[2..], RadixOf(t[1])) then Finite(RadixValue(t[2..], RadixOf(t[1])) as real) else NaN
  {
    TrimPlain(t);
  }

  /** Every natural number's decimal rendering reads back as that number. */
  lemma NumberRoundTrip(n: nat)
    ensures StringToNumber(NatToString(n)) == Finite(n as real)
    ensures ToNumber(JArr([JStr(NatToString(n))])) == Finite(n as real)
  {
    NatToStringRoundTrip(n);
    DigitsText(NatToString(n));
    SingleItem(JStr(NatToString(n)));
  }

  /** A number, a string or an array read the same wrapped in a one-item
      array, since `String([x])` is `String(x)` for them; two or more items
      are NaN. */
  lemma SingleItem(x: Json)
    requires x.JNum? || x.JStr? || x.JArr?
    ensures ToNumber(JArr([x])) == ToNumber(x)
    ensures forall y :: ToNumber(JArr([x, y])) == NaN
  {
  }

  /** A value that reads as a finite number compares as that number. */
  lemma ComparesAs(o: Option<Json>, x: real, c: real)
    requires o.Some? && ToNumber(o.value) == Finite(x)
    ensures AtMost(o, c) <==> x <= c
    ensures Below(o, c) <==> x < c
    ensures Above(o, c) <==> x > c
  {
  }

  /** `Infinity` after trimming, with or without a minus sign. */
  lemma InfinityText(s: string, negative: bool)
    requires JsTrim(s) == if negative then "-Infinity" else "Infinity"
    ensures StringToNumber(s) == Infinite(negative)
  {
    var t := JsTrim(s);
    assert t[0] != '0';
    if negative {
      assert t[1..] == "Infinity";
    }
  }

  /** A run of decimal digits reads as its value. */
  lemma DigitsText(m: string)
    requires |m| > 0 && AllDigits(m)
    ensures StringToNumber(m) == Finite(DigitsValue(m) as real)
  {
    UnsignedText(m);
    UnsignedDigits(m);
  }

  /** `if (o) Object.entries(o)`: the entries of a truthy value, none
      otherwise. */
  function EntriesOf(o: Option<Json>): seq<Field>
  {
    if Present(o) then SpreadFields(o.value) else []
  }

  /** `typeof o === 'string'`. */
  predicate IsString(o: Option<Json>)
  {
    o.Some? && o.value.JStr?
  }
}
