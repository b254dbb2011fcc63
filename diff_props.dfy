/** Properties of the structural diff: every difference lies under the path
    it was found at, a key or index present on one side only produces exactly
    one added or removed entry and nothing below it, and trees that hold the
    same values under the same keys produce no difference at all, whatever
    the order of their keys. */
module DiffProperties {
  import opened Wrappers
  import opened Strings
  import opened JsonTree
  import opened ConfigDiff

  predicate IsPrefix(p: seq<string>, q: seq<string>)
  {
    |p| <= |q| && q[..|p|] == p
  }

  /** Every diff in `ds` lies at or below `p`. */
  predicate AllUnder(ds: seq<Diff>, p: seq<string>)
  {
    forall i :: 0 <= i < |ds| ==> IsPrefix(p, ds[i].path)
  }

  /** The diffs of `ds` at or below `p`, in their order. */
  function Under(ds: seq<Diff>, p: seq<string>): (r: seq<Diff>)
    ensures |r| <= |ds| && AllUnder(r, p)
  {
    if ds == [] then []
    else Under(ds[..|ds| - 1], p) + (if IsPrefix(p, ds[|ds| - 1].path) then [ds[|ds| - 1]] else [])
  }

  lemma AllUnderParent(ds: seq<Diff>, p: seq<string>, s: string)
    requires AllUnder(ds, p + [s])
    ensures AllUnder(ds, p)
  {
    forall i | 0 <= i < |ds| ensures IsPrefix(p, ds[i].path) {
      assert ds[i].path[..|p| + 1] == p + [s];
      assert ds[i].path[..|p|] == (p + [s])[..|p|];
    }
  }

  lemma {:induction false} UnderConcat(a: seq<Diff>, b: seq<Diff>, p: seq<string>)
    ensures Under(a + b, p) == Under(a, p) + Under(b, p)
  {
    if b != [] {
      assert (a + b)[..|a + b| - 1] == a + b[..|b| - 1];
      UnderConcat(a, b[..|b| - 1], p);
    } else {
      assert a + b == a;
    }
  }

  lemma {:induction false} UnderOfAllUnder(ds: seq<Diff>, p: seq<string>)
    requires AllUnder(ds, p)
    ensures Under(ds, p) == ds
  {
    if ds != [] {
      UnderOfAllUnder(ds[..|ds| - 1], p);
    }
  }

  /** Nothing under a path lies under a different path of the same length. */
  lemma {:induction false} UnderOfSibling(ds: seq<Diff>, p: seq<string>, q: seq<string>)
    requires AllUnder(ds, p) && |p| == |q| && p != q
    ensures Under(ds, q) == []
  {
    if ds != [] {
      UnderOfSibling(ds[..|ds| - 1], p, q);
    }
  }

  // -----------------------------------------------------------------------
  // Every diff lies under the path it was computed at

  lemma {:induction false} CompareUnder(o: Option<Json>, n: Option<Json>, path: seq<string>)
    ensures AllUnder(Compare(o, n, path), path)
    decreases OptSize(o) + OptSize(n), 2, 0
  {
    if IsNullish(o) || IsNullish(n) || TypeOf(o.value) != TypeOf(n.value) || !IsObjectLike(o.value) {
    } else if o.value.JArr? && n.value.JArr? {
      ArrayDiffsUnder(o.value, n.value, path, Max(|o.value.items|, |n.value.items|));
    } else {
      var keys := UnionKeys(KeysOf(o.value), KeysOf(n.value));
      ObjectDiffsUnder(o.value, n.value, path, keys, |keys|);
    }
  }

  lemma {:induction false} ValueDiffUnder(o: Option<Json>, n: Option<Json>, path: seq<string>)
    ensures AllUnder(ValueDiff(o, n, path), path)
    decreases OptSize(o) + OptSize(n), 3, 0
  {
    if o.Some? && n.Some? {
      CompareUnder(o, n, path);
    }
  }

  lemma {:induction false} ItemDiffUnder(ov: Json, nv: Json, path: seq<string>, i: nat)
    requires ov.JArr? && nv.JArr?
    ensures AllUnder(ItemDiff(ov, nv, path, i), path + [NatToString(i)])
    decreases Size(ov) + Size(nv), 0, 0
  {
    AtSmaller(ov.items, i);
    AtSmaller(nv.items, i);
    ValueDiffUnder(At(ov.items, i), At(nv.items, i), path + [NatToString(i)]);
  }

  lemma {:induction false} KeyDiffUnder(ov: Json, nv: Json, path: seq<string>, k: string)
    requires IsObjectLike(ov) && IsObjectLike(nv)
    ensures AllUnder(KeyDiff(ov, nv, path, k), path + [k])
    decreases Size(ov) + Size(nv), 0, 0
  {
    PropSmaller(ov, k);
    PropSmaller(nv, k);
    ValueDiffUnder(Prop(ov, k), Prop(nv, k), path + [k]);
  }

  lemma {:induction false} ArrayDiffsUnder(ov: Json, nv: Json, path: seq<string>, count: nat)
    requires ov.JArr? && nv.JArr?
    ensures AllUnder(ArrayDiffs(ov, nv, path, count), path)
    decreases Size(ov) + Size(nv), 0, count + 1
  {
    if count > 0 {
      ArrayDiffsUnder(ov, nv, path, count - 1);
      ItemDiffUnder(ov, nv, path, count - 1);
      AllUnderParent(ItemDiff(ov, nv, path, count - 1), path, NatToString(count - 1));
    }
  }

  lemma {:induction false} ObjectDiffsUnder(ov: Json, nv: Json, path: seq<string>, keys: seq<string>, count: nat)
    requires IsObjectLike(ov) && IsObjectLike(nv) && count <= |keys|
    ensures AllUnder(ObjectDiffs(ov, nv, path, keys, count), path)
    decreases Size(ov) + Size(nv), 0, count + 1
  {
    if count > 0 {
      ObjectDiffsUnder(ov, nv, path, keys, count - 1);
      KeyDiffUnder(ov, nv, path, keys[count - 1]);
      AllUnderParent(KeyDiff(ov, nv, path, keys[count - 1]), path, keys[count - 1]);
    }
  }

  // -----------------------------------------------------------------------
  // One key, or one index, in isolation

  /** Appending the diffs of one sibling `last` to `prior`, seen from `path + [k]`. */
  lemma IsolateStep(prior: seq<Diff>, kd: seq<Diff>, path: seq<string>, last: string, k: string)
    requires AllUnder(kd, path + [last])
    ensures Under(prior + kd, path + [k]) == Under(prior, path + [k]) + (if last == k then kd else [])
  {
    UnderConcat(prior, kd, path + [k]);
    if last == k {
      UnderOfAllUnder(kd, path + [k]);
    } else {
      assert (path + [last])[|path|] != (path + [k])[|path|];
      UnderOfSibling(kd, path + [last], path + [k]);
    }
  }

  /** Concatenated parts, each lying under its own distinct key, seen from
      one key: only that key's part remains. */
  lemma {:induction false} FlattenIsolate(parts: seq<seq<Diff>>, path: seq<string>, keys: seq<string>, k: string)
    requires |parts| == |keys| && Distinct(keys)
    requires forall j :: 0 <= j < |keys| ==> AllUnder(parts[j], path + [keys[j]])
    ensures k !in keys ==> Under(Flatten(parts), path + [k]) == []
    ensures forall j :: 0 <= j < |keys| && keys[j] == k ==> Under(Flatten(parts), path + [k]) == parts[j]
  {
    if parts != [] {
      var n := |parts| - 1;
      FlattenIsolate(parts[..n], path, keys[..n], k);
      IsolateStep(Flatten(parts[..n]), parts[n], path, keys[n], k);
      assert keys == keys[..n] + [keys[n]];
    }
  }

  lemma ObjectDiffsIsolate(ov: Json, nv: Json, path: seq<string>, keys: seq<string>, k: string)
    requires IsObjectLike(ov) && IsObjectLike(nv) && Distinct(keys)
    ensures k !in keys ==> Under(ObjectDiffs(ov, nv, path, keys, |keys|), path + [k]) == []
    ensures k in keys ==> Under(ObjectDiffs(ov, nv, path, keys, |keys|), path + [k]) == KeyDiff(ov, nv, path, k)
  {
    var parts := seq(|keys|, j requires 0 <= j < |keys| => KeyDiff(ov, nv, path, keys[j]));
    forall j | 0 <= j < |keys| ensures AllUnder(parts[j], path + [keys[j]]) {
      KeyDiffUnder(ov, nv, path, keys[j]);
    }
    FlattenKeyDiffs(ov, nv, path, keys, parts, |keys|);
    assert parts[..|keys|] == parts;
    FlattenIsolate(parts, path, keys, k);
  }

  lemma {:induction false} ArrayDiffsIsolate(ov: Json, nv: Json, path: seq<string>, count: nat, i: nat)
    requires ov.JArr? && nv.JArr?
    ensures Under(ArrayDiffs(ov, nv, path, count), path + [NatToString(i)]) ==
            if i < count then ItemDiff(ov, nv, path, i) else []
  {
    if count > 0 {
      var last := count - 1;
      ArrayDiffsIsolate(ov, nv, path, count - 1, i);
      ItemDiffUnder(ov, nv, path, last);
      if NatToString(last) == NatToString(i) {
        NatToStringInjective(last, i);
      }
      IsolateStep(ArrayDiffs(ov, nv, path, count - 1), ItemDiff(ov, nv, path, last), path,
                  NatToString(last), NatToString(i));
    }
  }

  /** Comparing two objects (or an array with an object), the diffs under
      `path + [k]` are exactly those of key `k`, compared on its own, when
      `k` is an own key of either side, and none otherwise. */
  lemma KeyIsolated(ov: Json, nv: Json, path: seq<string>, k: string)
    requires IsObjectLike(ov) && IsObjectLike(nv) && !(ov.JArr? && nv.JArr?)
    ensures Under(Compare(Some(ov), Some(nv), path), path + [k]) ==
            if k in KeysOf(ov) || k in KeysOf(nv) then ValueDiff(Prop(ov, k), Prop(nv, k), path + [k]) else []
  {
    var keys := UnionKeys(KeysOf(ov), KeysOf(nv));
    UnionKeysSpec(KeysOf(ov), KeysOf(nv));
    assert Compare(Some(ov), Some(nv), path) == ObjectDiffs(ov, nv, path, keys, |keys|);
    ObjectDiffsIsolate(ov, nv, path, keys, k);
  }

  /** A key only the new object has: one `added` entry carrying the new
      value, and nothing below it. */
  lemma AddedKey(olds: seq<Field>, news: seq<Field>, path: seq<string>, k: string)
    requires !HasKey(olds, k) && HasKey(news, k)
    ensures Under(Compare(Some(JObj(olds)), Some(JObj(news)), path), path + [k]) ==
            [Diff(path + [k], Added, None, Lookup(news, k))]
  {
    KeyIsolated(JObj(olds), JObj(news), path, k);
  }

  /** A key only the old object has: one `removed` entry carrying the old
      value, and nothing below it. */
  lemma RemovedKey(olds: seq<Field>, news: seq<Field>, path: seq<string>, k: string)
    requires HasKey(olds, k) && !HasKey(news, k)
    ensures Under(Compare(Some(JObj(olds)), Some(JObj(news)), path), path + [k]) ==
            [Diff(path + [k], Removed, Lookup(olds, k), None)]
  {
    KeyIsolated(JObj(olds), JObj(news), path, k);
  }

  /** A key both objects have: its values are compared at `path + [k]`. */
  lemma SharedKey(olds: seq<Field>, news: seq<Field>, path: seq<string>, k: string)
    requires HasKey(olds, k) && HasKey(news, k)
    ensures Under(Compare(Some(JObj(olds)), Some(JObj(news)), path), path + [k]) ==
            Compare(Lookup(olds, k), Lookup(news, k), path + [k])
  {
    KeyIsolated(JObj(olds), JObj(news), path, k);
  }

  /** Comparing two arrays, the diffs under `path + [i]` are those of index
      `i` alone, for every index below the longer length, and none beyond. */
  lemma IndexIsolated(xs: seq<Json>, ys: seq<Json>, path: seq<string>, i: nat)
    ensures Under(Compare(Some(JArr(xs)), Some(JArr(ys)), path), path + [NatToString(i)]) ==
            if i < Max(|xs|, |ys|) then ValueDiff(At(xs, i), At(ys, i), path + [NatToString(i)]) else []
  {
    var ov, nv := JArr(xs), JArr(ys);
    assert Compare(Some(ov), Some(nv), path) == ArrayDiffs(ov, nv, path, Max(|xs|, |ys|));
    ArrayDiffsIsolate(ov, nv, path, Max(|xs|, |ys|), i);
    assert ItemDiff(ov, nv, path, i) == ValueDiff(At(xs, i), At(ys, i), path + [NatToString(i)]);
  }

  /** An index past the end of the old array is `added` with the new element. */
  lemma AppendedIndex(xs: seq<Json>, ys: seq<Json>, path: seq<string>, i: nat)
    requires |xs| <= i < |ys|
    ensures Under(Compare(Some(JArr(xs)), Some(JArr(ys)), path), path + [NatToString(i)]) ==
            [Diff(path + [NatToString(i)], Added, None, Some(ys[i]))]
  {
    IndexIsolated(xs, ys, path, i);
  }

  /** An index past the end of the new array is `removed` with the old element. */
  lemma TruncatedIndex(xs: seq<Json>, ys: seq<Json>, path: seq<string>, i: nat)
    requires |ys| <= i < |xs|
    ensures Under(Compare(Some(JArr(xs)), Some(JArr(ys)), path), path + [NatToString(i)]) ==
            [Diff(path + [NatToString(i)], Removed, Some(xs[i]), None)]
  {
    IndexIsolated(xs, ys, path, i);
  }

  /** The cases decided before any descent. A `null` against `undefined`
      counts as nullish on the old side first, so it is reported as added. */
  lemma LeafCases(o: Option<Json>, n: Option<Json>, path: seq<string>)
    ensures IsNullish(o) && !IsNullish(n) ==> Compare(o, n, path) == [Diff(path, Added, None, n)]
    ensures !IsNullish(o) && IsNullish(n) ==> Compare(o, n, path) == [Diff(path, Removed, o, None)]
    ensures o == Some(JNull) && n.None? ==> Compare(o, n, path) == [Diff(path, Added, None, None)]
    ensures !IsNullish(o) && !IsNullish(n) && TypeOf(o.value) != TypeOf(n.value) ==>
              Compare(o, n, path) == [Diff(path, Changed, o, n)]
    ensures !IsNullish(o) && !IsNullish(n) && TypeOf(o.value) == TypeOf(n.value) && !IsObjectLike(o.value) ==>
              Compare(o, n, path) == (if o == n then [] else [Diff(path, Changed, o, n)])
  {
  }

  // -----------------------------------------------------------------------
  // Equivalent trees produce no diffs

  /** Same values under the same keys, whatever the order of the keys. */
  ghost predicate Equivalent(a: Json, b: Json)
    decreases Size(a)
  {
    match a
    case JArr(xs) =>
      b.JArr? && |xs| == |b.items| &&
      forall i :: 0 <= i < |xs| ==> (ItemSmaller(xs, i); Equivalent(xs[i], b.items[i]))
    case JObj(fs) =>
      b.JObj? && (forall k :: HasKey(fs, k) <==> HasKey(b.fields, k)) &&
      forall k :: HasKey(fs, k) ==> (LookupSmaller(fs, k); Equivalent(Lookup(fs, k).value, Lookup(b.fields, k).value))
    case _ => a == b
  }

  lemma {:induction false} EquivalentReflexive(a: Json)
    ensures Equivalent(a, a)
    decreases Size(a)
  {
    match a
    case JArr(xs) =>
      forall i | 0 <= i < |xs| ensures Equivalent(xs[i], xs[i]) {
        ItemSmaller(xs, i);
        EquivalentReflexive(xs[i]);
      }
    case JObj(fs) =>
      forall k | HasKey(fs, k) ensures Equivalent(Lookup(fs, k).value, Lookup(fs, k).value) {
        LookupSmaller(fs, k);
        EquivalentReflexive(Lookup(fs, k).value);
      }
    case _ =>
  }

  lemma {:induction false} CompareEquivalent(a: Json, b: Json, path: seq<string>)
    requires Equivalent(a, b)
    ensures Compare(Some(a), Some(b), path) == []
    decreases Size(a) + Size(b), 2, 0
  {
    match a
    case JArr(xs) =>
      ArrayDiffsEquivalent(a, b, path, |xs|);
    case JObj(fs) =>
      var keys := UnionKeys(KeysOf(a), KeysOf(b));
      UnionKeysSpec(KeysOf(a), KeysOf(b));
      ObjectDiffsEquivalent(a, b, path, keys, |keys|);
    case _ =>
  }

  lemma {:induction false} ArrayDiffsEquivalent(a: Json, b: Json, path: seq<string>, count: nat)
    requires a.JArr? && Equivalent(a, b) && count <= |a.items|
    ensures b.JArr? && ArrayDiffs(a, b, path, count) == []
    decreases Size(a) + Size(b), 0, count + 1
  {
    if count > 0 {
      ArrayDiffsEquivalent(a, b, path, count - 1);
      ItemDiffEquivalent(a, b, path, count - 1);
    }
  }

  lemma {:induction false} ItemDiffEquivalent(a: Json, b: Json, path: seq<string>, i: nat)
    requires a.JArr? && Equivalent(a, b) && i < |a.items|
    ensures b.JArr? && ItemDiff(a, b, path, i) == []
    decreases Size(a) + Size(b), 0, 0
  {
    ItemSmaller(a.items, i);
    ItemSmaller(b.items, i);
    assert Equivalent(a.items[i], b.items[i]);
    CompareEquivalent(a.items[i], b.items[i], path + [NatToString(i)]);
  }

  /** Two empty runs of diffs join to none. */
  lemma EmptyJoin(xs: seq<Diff>, ys: seq<Diff>)
    requires xs == [] && ys == []
    ensures xs + ys == []
  {
  }

  lemma {:induction false} ObjectDiffsEquivalent(a: Json, b: Json, path: seq<string>, keys: seq<string>, count: nat)
    requires a.JObj? && Equivalent(a, b) && count <= |keys|
    requires forall k :: k in keys ==> HasKey(a.fields, k)
    ensures b.JObj? && ObjectDiffs(a, b, path, keys, count) == []
    decreases Size(a) + Size(b), 0, count + 1
  {
    if count > 0 {
      var k := keys[count - 1];
      assert k in keys;
      ObjectDiffsEquivalent(a, b, path, keys, count - 1);
      KeyDiffEquivalent(a, b, path, k);
      EmptyJoin(ObjectDiffs(a, b, path, keys, count - 1), KeyDiff(a, b, path, k));
    }
  }

  lemma {:induction false} KeyDiffEquivalent(a: Json, b: Json, path: seq<string>, k: string)
    requires a.JObj? && Equivalent(a, b) && HasKey(a.fields, k)
    ensures b.JObj? && KeyDiff(a, b, path, k) == []
    decreases Size(a) + Size(b), 0, 0
  {
    LookupSmaller(a.fields, k);
    LookupSmaller(b.fields, k);
    assert Equivalent(Lookup(a.fields, k).value, Lookup(b.fields, k).value);
    CompareEquivalent(Lookup(a.fields, k).value, Lookup(b.fields, k).value, path + [k]);
  }

  /** Structurally equal configurations produce no diffs. */
  lemma CompareSelf(v: Json, path: seq<string>)
    ensures Compare(Some(v), Some(v), path) == []
  {
    EquivalentReflexive(v);
    CompareEquivalent(v, v, path);
  }

  /** Two objects that map every key to the same value produce no diffs,
      however their keys are ordered. */
  lemma ReorderedKeys(fs: seq<Field>, gs: seq<Field>, path: seq<string>)
    requires forall k :: Lookup(fs, k) == Lookup(gs, k)
    ensures Compare(Some(JObj(fs)), Some(JObj(gs)), path) == []
  {
    forall k ensures HasKey(fs, k) <==> HasKey(gs, k) {
      assert Lookup(fs, k) == Lookup(gs, k);
    }
    forall k | HasKey(fs, k) ensures Equivalent(Lookup(fs, k).value, Lookup(gs, k).value) {
      EquivalentReflexive(Lookup(fs, k).value);
    }
    assert Equivalent(JObj(fs), JObj(gs));
    CompareEquivalent(JObj(fs), JObj(gs), path);
  }
}
