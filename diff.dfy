/** Structural diff of two configuration trees, as the diff viewer shows it,
    and the formatting of paths and values for display. Values that may be
    `undefined` are `Option<Json>`. */
module ConfigDiff {
  import opened Wrappers
  import opened Strings
  import opened JsonTree

  datatype DiffKind = Added | Removed | Changed

  /** One difference; a value the source leaves out of the record is None. */
  datatype Diff = Diff(path: seq<string>, kind: DiffKind, oldValue: Option<Json>, newValue: Option<Json>)

  // -----------------------------------------------------------------------
  // A size measure under which every own property is smaller than its holder

  function Size(v: Json): nat
  {
    match v
    case JArr(xs) => 2 + ItemsSize(xs)
    case JObj(fs) => 2 + FieldsSize(fs)
    case _ => 1
  }

  function ItemsSize(xs: seq<Json>): nat
  {
    if xs == [] then 0 else ItemsSize(xs[..|xs| - 1]) + Size(xs[|xs| - 1])
  }

  function FieldsSize(fs: seq<Field>): nat
  {
    if fs == [] then 0 else FieldsSize(fs[..|fs| - 1]) + Size(fs[|fs| - 1].val)
  }

  function OptSize(o: Option<Json>): nat
  {
    if o.Some? then Size(o.value) else 0
  }

  lemma {:induction false} ItemSmaller(xs: seq<Json>, i: nat)
    requires i < |xs|
    ensures Size(xs[i]) <= ItemsSize(xs)
  {
    if i < |xs| - 1 {
      ItemSmaller(xs[..|xs| - 1], i);
    }
  }

  lemma {:induction false} LookupSmaller(fs: seq<Field>, k: string)
    requires Lookup(fs, k).Some?
    ensures Size(Lookup(fs, k).value) <= FieldsSize(fs)
  {
    FieldsSizeFront(fs);
    if fs[0].key != k {
      LookupSmaller(fs[1..], k);
    }
  }

  lemma {:induction false} FieldsSizeFront(fs: seq<Field>)
    requires fs != []
    ensures FieldsSize(fs) == Size(fs[0].val) + FieldsSize(fs[1..])
  {
    if |fs| > 1 {
      FieldsSizeFront(fs[..|fs| - 1]);
      assert fs[..|fs| - 1][1..] == fs[1..][..|fs[1..]| - 1];
    } else {
      assert fs[..|fs| - 1] == [];
    }
  }

  /** A property of an array or object is smaller than the array or object. */
  lemma PropSmaller(v: Json, k: string)
    requires IsObjectLike(v)
    ensures OptSize(Prop(v, k)) < Size(v)
  {
    if Prop(v, k).None? {
    } else if v.JArr? && k != "length" {
      ItemSmaller(v.items, IndexKey(k).value);
    } else if v.JObj? {
      LookupSmaller(v.fields, k);
    }
  }

  // -----------------------------------------------------------------------
  // The key order of `new Set([...Object.keys(a), ...Object.keys(b)])`

  function AppendNew(acc: seq<string>, ks: seq<string>): (r: seq<string>)
    decreases |ks|
  {
    if ks == [] then acc
    else AppendNew(if ks[0] in acc then acc else acc + [ks[0]], ks[1..])
  }

  predicate Distinct(ks: seq<string>)
  {
    forall i, j :: 0 <= i < j < |ks| ==> ks[i] != ks[j]
  }

  /** The union of both key lists, each key once, at its first occurrence. */
  function UnionKeys(a: seq<string>, b: seq<string>): seq<string>
  {
    AppendNew([], a + b)
  }

  lemma {:induction false} AppendNewMembers(acc: seq<string>, ks: seq<string>, k: string)
    ensures k in AppendNew(acc, ks) <==> k in acc || k in ks
    decreases |ks|
  {
    if ks != [] {
      AppendNewMembers(if ks[0] in acc then acc else acc + [ks[0]], ks[1..], k);
    }
  }

  lemma {:induction false} AppendNewDistinct(acc: seq<string>, ks: seq<string>)
    requires Distinct(acc)
    ensures Distinct(AppendNew(acc, ks))
    decreases |ks|
  {
    if ks != [] {
      AppendNewDistinct(if ks[0] in acc then acc else acc + [ks[0]], ks[1..]);
    }
  }

  /** The union holds each key of either list exactly once. */
  lemma UnionKeysSpec(a: seq<string>, b: seq<string>)
    ensures Distinct(UnionKeys(a, b))
    ensures forall k :: k in UnionKeys(a, b) <==> k in a || k in b
  {
    AppendNewDistinct([], a + b);
    forall k ensures k in UnionKeys(a, b) <==> k in a || k in b {
      AppendNewMembers([], a + b, k);
    }
  }

  // -----------------------------------------------------------------------
  // `compareObjects`, as a specification

  predicate IsNullish(o: Option<Json>)
  {
    o.None? || o.value.JNull?
  }

  /** The diffs `compareObjects(o, n, path)` pushes, in order. */
  function Compare(o: Option<Json>, n: Option<Json>, path: seq<string>): seq<Diff>
    decreases OptSize(o) + OptSize(n), 2, 0
  {
    if o == Some(JNull) && n == Some(JNull) then []
    else if o.None? && n.None? then []
    else if IsNullish(o) then [Diff(path, Added, None, n)]
    else if IsNullish(n) then [Diff(path, Removed, o, None)]
    else if TypeOf(o.value) != TypeOf(n.value) then [Diff(path, Changed, o, n)]
    else if !IsObjectLike(o.value) then (if o != n then [Diff(path, Changed, o, n)] else [])
    else if o.value.JArr? && n.value.JArr? then ArrayBranch(o.value, n.value, path)
    else ObjectBranch(o.value, n.value, path)
  }

  function Max(a: nat, b: nat): nat { if a < b then b else a }

  /** Two arrays: index by index up to the longer length. */
  function ArrayBranch(ov: Json, nv: Json, path: seq<string>): seq<Diff>
    requires ov.JArr? && nv.JArr?
    decreases Size(ov) + Size(nv), 1, 0
  {
    ArrayDiffs(ov, nv, path, Max(|ov.items|, |nv.items|))
  }

  /** Two objects, or an array and an object: key by key over the union of
      their keys. */
  function ObjectBranch(ov: Json, nv: Json, path: seq<string>): seq<Diff>
    requires IsObjectLike(ov) && IsObjectLike(nv)
    decreases Size(ov) + Size(nv), 1, 0
  {
    var keys := UnionKeys(KeysOf(ov), KeysOf(nv));
    ObjectDiffs(ov, nv, path, keys, |keys|)
  }

  /** `xs[i]`, undefined past the end. */
  function At(xs: seq<Json>, i: nat): (r: Option<Json>)
    ensures r.Some? <==> i < |xs|
  {
    if i < |xs| then Some(xs[i]) else None
  }

  /** The diffs for indices `0 .. count-1` of two arrays. */
  function ArrayDiffs(ov: Json, nv: Json, path: seq<string>, count: nat): seq<Diff>
    requires ov.JArr? && nv.JArr?
    decreases Size(ov) + Size(nv), 0, count + 1
  {
    if count == 0 then []
    else ArrayDiffs(ov, nv, path, count - 1) + ItemDiff(ov, nv, path, count - 1)
  }

  function ItemDiff(ov: Json, nv: Json, path: seq<string>, i: nat): seq<Diff>
    requires ov.JArr? && nv.JArr?
    decreases Size(ov) + Size(nv), 0, 0
  {
    AtSmaller(ov.items, i);
    AtSmaller(nv.items, i);
    ValueDiff(At(ov.items, i), At(nv.items, i), path + [NatToString(i)])
  }

  /** The diffs for the first `count` keys of the union. */
  function ObjectDiffs(ov: Json, nv: Json, path: seq<string>, keys: seq<string>, count: nat): seq<Diff>
    requires IsObjectLike(ov) && IsObjectLike(nv) && count <= |keys|
    decreases Size(ov) + Size(nv), 0, count + 1
  {
    if count == 0 then []
    else ObjectDiffs(ov, nv, path, keys, count - 1) + KeyDiff(ov, nv, path, keys[count - 1])
  }

  function KeyDiff(ov: Json, nv: Json, path: seq<string>, k: string): seq<Diff>
    requires IsObjectLike(ov) && IsObjectLike(nv)
    decreases Size(ov) + Size(nv), 0, 0
  {
    PropSmaller(ov, k);
    PropSmaller(nv, k);
    ValueDiff(Prop(ov, k), Prop(nv, k), path + [k])
  }

  /** One step of either loop for the values `o[key]` and `n[key]`: a key or
      index missing on one side is added or removed without descending. */
  function ValueDiff(o: Option<Json>, n: Option<Json>, path: seq<string>): seq<Diff>
    decreases OptSize(o) + OptSize(n), 3, 0
  {
    if o.None? then [Diff(path, Added, None, n)]
    else if n.None? then [Diff(path, Removed, o, None)]
    else Compare(o, n, path)
  }

  lemma AtSmaller(xs: seq<Json>, i: nat)
    ensures OptSize(At(xs, i)) <= ItemsSize(xs)
  {
    if i < |xs| {
      ItemSmaller(xs, i);
    }
  }

  /** `diffConfigurations(oldConfig, newConfig)`. */
  function DiffConfigurations(oldConfig: Json, newConfig: Json): seq<Diff>
  {
    Compare(Some(oldConfig), Some(newConfig), [])
  }

  function Flatten(parts: seq<seq<Diff>>): seq<Diff>
  {
    if parts == [] then [] else Flatten(parts[..|parts| - 1]) + parts[|parts| - 1]
  }

  lemma FlattenSnoc(parts: seq<seq<Diff>>, last: seq<Diff>)
    ensures Flatten(parts + [last]) == Flatten(parts) + last
  {
    assert (parts + [last])[..|parts|] == parts;
  }

  lemma {:induction false} FlattenKeyDiffs(ov: Json, nv: Json, path: seq<string>, keys: seq<string>,
                                           parts: seq<seq<Diff>>, count: nat)
    requires IsObjectLike(ov) && IsObjectLike(nv) && count <= |keys| && count <= |parts|
    requires forall i :: 0 <= i < count ==> parts[i] == KeyDiff(ov, nv, path, keys[i])
    ensures Flatten(parts[..count]) == ObjectDiffs(ov, nv, path, keys, count)
  {
    if count > 0 {
      FlattenKeyDiffs(ov, nv, path, keys, parts, count - 1);
      assert parts[..count][..count - 1] == parts[..count - 1];
    }
  }

  /** One turn of the index loop: the item's diffs extend the parts. */
  lemma ItemPartSnoc(ov: Json, nv: Json, path: seq<string>, parts: seq<seq<Diff>>,
                     i: nat, diffs: seq<Diff>, before: seq<Diff>, out: seq<Diff>)
    requires ov.JArr? && nv.JArr? && |parts| == i
    requires forall k :: 0 <= k < i ==> parts[k] == ItemDiff(ov, nv, path, k)
    requires before == diffs + Flatten(parts)
    requires out == before + ValueDiff(At(ov.items, i), At(nv.items, i), path + [NatToString(i)])
    ensures var p := parts + [ItemDiff(ov, nv, path, i)];
            (forall k :: 0 <= k < i + 1 ==> p[k] == ItemDiff(ov, nv, path, k))
            && out == diffs + Flatten(p)
  {
    var last := ItemDiff(ov, nv, path, i);
    assert last == ValueDiff(At(ov.items, i), At(nv.items, i), path + [NatToString(i)]);
    var p := parts + [last];
    forall k | 0 <= k < i + 1
      ensures p[k] == ItemDiff(ov, nv, path, k)
    {
      if k < i {
        assert p[k] == parts[k];
      }
    }
    FlattenSnoc(parts, last);
    SeqAssoc(diffs, Flatten(parts), last);
  }

  /** One turn of the key loop: the key's diffs extend the parts. */
  lemma KeyPartSnoc(ov: Json, nv: Json, path: seq<string>, keys: seq<string>, parts: seq<seq<Diff>>,
                    j: nat, diffs: seq<Diff>, before: seq<Diff>, out: seq<Diff>)
    requires IsObjectLike(ov) && IsObjectLike(nv) && j < |keys| && |parts| == j
    requires forall i :: 0 <= i < j ==> parts[i] == KeyDiff(ov, nv, path, keys[i])
    requires before == diffs + Flatten(parts)
    requires out == before + ValueDiff(Prop(ov, keys[j]), Prop(nv, keys[j]), path + [keys[j]])
    ensures var p := parts + [KeyDiff(ov, nv, path, keys[j])];
            (forall i :: 0 <= i < j + 1 ==> p[i] == KeyDiff(ov, nv, path, keys[i]))
            && out == diffs + Flatten(p)
  {
    var last := KeyDiff(ov, nv, path, keys[j]);
    assert last == ValueDiff(Prop(ov, keys[j]), Prop(nv, keys[j]), path + [keys[j]]);
    PartsSnoc(ov, nv, path, keys, parts, j);
    FlattenSnoc(parts, last);
    calc {
      out;
      (diffs + Flatten(parts)) + last;
      { SeqAssoc(diffs, Flatten(parts), last); }
      diffs + (Flatten(parts) + last);
      diffs + Flatten(parts + [last]);
    }
  }

  /** The parts extended by the next key's diffs are still the keys' diffs
      in order. */
  lemma PartsSnoc(ov: Json, nv: Json, path: seq<string>, keys: seq<string>, parts: seq<seq<Diff>>, j: nat)
    requires IsObjectLike(ov) && IsObjectLike(nv) && j < |keys| && |parts| == j
    requires forall i :: 0 <= i < j ==> parts[i] == KeyDiff(ov, nv, path, keys[i])
    ensures var p := parts + [KeyDiff(ov, nv, path, keys[j])];
            forall i :: 0 <= i < j + 1 ==> p[i] == KeyDiff(ov, nv, path, keys[i])
  {
    var p := parts + [KeyDiff(ov, nv, path, keys[j])];
    forall i | 0 <= i < j + 1
      ensures p[i] == KeyDiff(ov, nv, path, keys[i])
    {
      if i < j {
        assert p[i] == parts[i];
      }
    }
  }

  lemma SeqAssoc<T>(a: seq<T>, b: seq<T>, c: seq<T>)
    ensures (a + b) + c == a + (b + c)
  {
  }

  lemma {:induction false} FlattenItemDiffs(ov: Json, nv: Json, path: seq<string>,
                                            parts: seq<seq<Diff>>, count: nat)
    requires ov.JArr? && nv.JArr? && count <= |parts|
    requires forall i :: 0 <= i < count ==> parts[i] == ItemDiff(ov, nv, path, i)
    ensures Flatten(parts[..count]) == ArrayDiffs(ov, nv, path, count)
  {
    if count > 0 {
      FlattenItemDiffs(ov, nv, path, parts, count - 1);
      assert parts[..count][..count - 1] == parts[..count - 1];
    }
  }

  // -----------------------------------------------------------------------
  // The recursive helper as the source runs it: pushing onto one list

  method CompareInto(o: Option<Json>, n: Option<Json>, path: seq<string>, diffs: seq<Diff>)
    returns (out: seq<Diff>)
    ensures out == diffs + Compare(o, n, path)
    decreases OptSize(o) + OptSize(n), 2, 0
  {
    if o == Some(JNull) && n == Some(JNull) { return diffs; }
    if o.None? && n.None? { return diffs; }
    if IsNullish(o) { return diffs + [Diff(path, Added, None, n)]; }
    if IsNullish(n) { return diffs + [Diff(path, Removed, o, None)]; }
    if TypeOf(o.value) != TypeOf(n.value) { return diffs + [Diff(path, Changed, o, n)]; }
    if !IsObjectLike(o.value) {
      if o != n { return diffs + [Diff(path, Changed, o, n)]; }
      return diffs;
    }
    if o.value.JArr? && n.value.JArr? {
      out := ArraysInto(o.value, n.value, path, diffs);
    } else {
      var allKeys := UnionKeys(KeysOf(o.value), KeysOf(n.value));
      out := ObjectsInto(o.value, n.value, path, allKeys, diffs);
    }
  }

  /** The array branch: a `for` loop over the indices of the longer array. */
  method ArraysInto(ov: Json, nv: Json, path: seq<string>, diffs: seq<Diff>) returns (out: seq<Diff>)
    requires ov.JArr? && nv.JArr?
    ensures out == diffs + ArrayBranch(ov, nv, path)
    decreases Size(ov) + Size(nv), 1, 0
  {
    out := diffs;
    var xs, ys := ov.items, nv.items;
    var maxLength := Max(|xs|, |ys|);
    var i := 0;
    ghost var parts: seq<seq<Diff>> := [];
    while i < maxLength
      invariant 0 <= i <= maxLength && |parts| == i
      invariant forall k :: 0 <= k < i ==> parts[k] == ItemDiff(ov, nv, path, k)
      invariant out == diffs + Flatten(parts)
    {
      AtSmaller(xs, i);
      AtSmaller(ys, i);
      ghost var before := out;
      out := ValueInto(At(xs, i), At(ys, i), path + [NatToString(i)], out);
      ItemPartSnoc(ov, nv, path, parts, i, diffs, before, out);
      parts := parts + [ItemDiff(ov, nv, path, i)];
      i := i + 1;
    }
    FlattenItemDiffs(ov, nv, path, parts, maxLength);
    assert parts[..maxLength] == parts;
  }

  /** The object branch: a `for…of` over the union `keys` of both key lists. */
  method ObjectsInto(ov: Json, nv: Json, path: seq<string>, keys: seq<string>, diffs: seq<Diff>)
    returns (out: seq<Diff>)
    requires IsObjectLike(ov) && IsObjectLike(nv)
    ensures out == diffs + ObjectDiffs(ov, nv, path, keys, |keys|)
    decreases Size(ov) + Size(nv), 1, 0
  {
    out := diffs;
    var j := 0;
    ghost var parts: seq<seq<Diff>> := [];
    while j < |keys|
      invariant 0 <= j <= |keys| && |parts| == j
      invariant forall i :: 0 <= i < j ==> parts[i] == KeyDiff(ov, nv, path, keys[i])
      invariant out == diffs + Flatten(parts)
    {
      var key := keys[j];
      PropSmaller(ov, key);
      PropSmaller(nv, key);
      ghost var before := out;
      out := ValueInto(Prop(ov, key), Prop(nv, key), path + [key], out);
      KeyPartSnoc(ov, nv, path, keys, parts, j, diffs, before, out);
      parts := parts + [KeyDiff(ov, nv, path, key)];
      j := j + 1;
    }
    FlattenKeyDiffs(ov, nv, path, keys, parts, |keys|);
    assert parts[..|keys|] == parts;
  }

  /** The body shared by both loops. */
  method ValueInto(oldValue: Option<Json>, newValue: Option<Json>, path: seq<string>, diffs: seq<Diff>)
    returns (out: seq<Diff>)
    ensures out == diffs + ValueDiff(oldValue, newValue, path)
    decreases OptSize(oldValue) + OptSize(newValue), 3, 0
  {
    if oldValue.None? {
      out := diffs + [Diff(path, Added, None, newValue)];
    } else if newValue.None? {
      out := diffs + [Diff(path, Removed, oldValue, None)];
    } else {
      out := CompareInto(oldValue, newValue, path, diffs);
    }
  }

  /** `diffConfigurations`: one list, filled by the recursive helper. */
  method DiffConfigurationsMethod(oldConfig: Json, newConfig: Json) returns (diffs: seq<Diff>)
    ensures diffs == DiffConfigurations(oldConfig, newConfig)
  {
    diffs := CompareInto(Some(oldConfig), Some(newConfig), [], []);
  }
}
