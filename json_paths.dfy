/** Paths into the configuration tree. Reading follows a path with optional
    chaining; the copy-on-write helpers of the legacy mapper and of the
    expert editor walk a `current` cursor down fresh copies of the objects
    on the path. Here the cursor is the path it has followed from the root
    copy, `At` reads the object it points to and `SetAt` stands for an
    assignment through it. */
module JsonPaths {
  import opened Wrappers
  import opened JsonTree

  /** `keys.reduce((current, key) => current?.[key], o)`. */
  function GetPath(o: Option<Json>, keys: seq<string>): Option<Json>
    decreases |keys|
  {
    if keys == [] then o else GetPath(Get(o, keys[0]), keys[1..])
  }

  lemma {:induction false} GetPathAppend(o: Option<Json>, keys: seq<string>, k: string)
    ensures GetPath(o, keys + [k]) == Get(GetPath(o, keys), k)
    decreases |keys|
  {
    if keys != [] {
      assert (keys + [k])[1..] == keys[1..] + [k];
      GetPathAppend(Get(o, keys[0]), keys[1..], k);
    }
  }

  // ---------------------------------------------------------------------
  // The cursor model

  /** The value reached from `v` through objects along `p`. */
  function At(v: Json, p: seq<string>): Option<Json>
    decreases |p|
  {
    if p == [] then Some(v)
    else if v.JObj? && HasKey(v.fields, p[0]) then At(Lookup(v.fields, p[0]).value, p[1..])
    else None
  }

  /** `v` with the value at `p` replaced by `x`; a missing last key is added. */
  function SetAt(v: Json, p: seq<string>, x: Json): Json
    decreases |p|
  {
    if p == [] then x
    else if v.JObj? then JObj(Put(v.fields, p[0], SetAt(Lookup(v.fields, p[0]).UnwrapOr(JNull), p[1..], x)))
    else v
  }

  /** After an assignment through the cursor, the cursor sees the new value. */
  lemma {:induction false} AtSetAt(v: Json, p: seq<string>, x: Json)
    requires At(v, p).Some?
    ensures At(SetAt(v, p, x), p) == Some(x)
    decreases |p|
  {
    if p != [] {
      var c := Lookup(v.fields, p[0]).value;
      LookupPut(v.fields, p[0], SetAt(c, p[1..], x), p[0]);
      AtSetAt(c, p[1..], x);
    }
  }

  /** Assigning what is already there changes nothing. */
  lemma {:induction false} SetAtSame(v: Json, p: seq<string>)
    requires At(v, p).Some?
    ensures SetAt(v, p, At(v, p).value) == v
    decreases |p|
  {
    if p != [] {
      var c := Lookup(v.fields, p[0]).value;
      SetAtSame(c, p[1..]);
      PutLookup(v.fields, p[0]);
    }
  }

  /** A second assignment through the same cursor overrides the first. */
  lemma {:induction false} SetAtTwice(v: Json, p: seq<string>, x: Json, y: Json)
    ensures SetAt(SetAt(v, p, x), p, y) == SetAt(v, p, y)
    decreases |p|
  {
    if p != [] && v.JObj? {
      var c := Lookup(v.fields, p[0]).UnwrapOr(JNull);
      var a := SetAt(c, p[1..], x);
      LookupPut(v.fields, p[0], a, p[0]);
      SetAtTwice(c, p[1..], x, y);
      PutPut(v.fields, p[0], a, SetAt(c, p[1..], y));
    }
  }

  /** Assigning `current[k]` replaces the object the cursor sees by the
      object with `k` assigned. */
  lemma {:induction false} SetAtExtend(v: Json, p: seq<string>, k: string, y: Json, cur: seq<Field>)
    requires At(v, p) == Some(JObj(cur))
    ensures SetAt(v, p + [k], y) == SetAt(v, p, JObj(Put(cur, k, y)))
    decreases |p|
  {
    if p != [] {
      var c := Lookup(v.fields, p[0]).value;
      assert (p + [k])[1..] == p[1..] + [k];
      SetAtExtend(c, p[1..], k, y, cur);
    }
  }

  /** Following one more key from an object. */
  lemma {:induction false} AtExtend(v: Json, p: seq<string>, k: string, cur: seq<Field>)
    requires At(v, p) == Some(JObj(cur))
    ensures At(v, p + [k]) == if HasKey(cur, k) then Some(Lookup(cur, k).value) else None
    decreases |p|
  {
    if p != [] {
      assert (p + [k])[1..] == p[1..] + [k];
      AtExtend(Lookup(v.fields, p[0]).value, p[1..], k, cur);
    }
  }

  /** One step down the cursor: `current[k] = child; current = current[k]`. */
  lemma CursorStep(v: Json, p: seq<string>, k: string, cur: seq<Field>, child: seq<Field>, z: Json)
    requires At(v, p) == Some(JObj(cur))
    ensures var v' := SetAt(v, p, JObj(Put(cur, k, JObj(child))));
            At(v', p + [k]) == Some(JObj(child))
            && SetAt(v', p + [k], z) == SetAt(v, p, JObj(Put(cur, k, z)))
  {
    var cur' := Put(cur, k, JObj(child));
    var v' := SetAt(v, p, JObj(cur'));
    AtSetAt(v, p, JObj(cur'));
    LookupPut(cur, k, JObj(child), k);
    AtExtend(v', p, k, cur');
    SetAtExtend(v', p, k, z, cur');
    PutPut(cur, k, JObj(child), z);
    SetAtTwice(v, p, JObj(cur'), JObj(Put(cur, k, z)));
  }

  // ---------------------------------------------------------------------
  // The copy-on-write updates

  /** How a walk replaces the value it passes through: `setNestedValue`
      starts afresh unless `typeof` says object, `setValueAtPath` unless the
      value is null or undefined; otherwise the value is spread into a copy. */
  datatype Fill = NestedValue | ValueAtPath

  function Intermediate(fill: Fill, child: Option<Json>): seq<Field>
  {
    match fill
    case NestedValue => if child.None? || TypeOf(child.value) != "object" then [] else SpreadFields(child.value)
    case ValueAtPath => if child.None? || child.value.JNull? then [] else SpreadFields(child.value)
  }

  /** Assigning `value` at `keys` below the copy `fs`; empty keys are skipped. */
  function SetPath(fs: seq<Field>, keys: seq<string>, value: Json, fill: Fill): seq<Field>
    requires |keys| > 0
    decreases |keys|
  {
    if |keys| == 1 then (if keys[0] != "" then Put(fs, keys[0], value) else fs)
    else if keys[0] == "" then SetPath(fs, keys[1..], value, fill)
    else Put(fs, keys[0], JObj(SetPath(Intermediate(fill, Lookup(fs, keys[0])), keys[1..], value, fill)))
  }

  /** Deleting the last of `keys` below the copy `fs`; the walk gives up at
      an empty or missing intermediate key. */
  function RemovePath(fs: seq<Field>, keys: seq<string>): seq<Field>
    requires |keys| > 0
    decreases |keys|
  {
    if |keys| == 1 then (if keys[0] != "" then Remove(fs, keys[0]) else fs)
    else if keys[0] == "" || !HasKey(fs, keys[0]) then fs
    else Put(fs, keys[0], JObj(RemovePath(SpreadFields(Lookup(fs, keys[0]).value), keys[1..])))
  }

  /** The deleting walk shared by `removeNestedValue` and
      `deleteValueAtPath`: spread the root, move the cursor down fresh copies
      of the objects on `keys`, give up at an empty or missing intermediate
      key, and delete the last key when it is not empty. */
  method RemoveAlong(obj: Json, keys: seq<string>) returns (result: Json)
    requires |keys| > 0
    ensures result == JObj(RemovePath(SpreadFields(obj), keys))
  {
    ghost var goal := JObj(RemovePath(SpreadFields(obj), keys));
    result := JObj(SpreadFields(obj));
    var current: seq<string> := [];
    assert keys[0..] == keys;
    for i := 0 to |keys| - 1
      invariant At(result, current).Some? && At(result, current).value.JObj?
      invariant SetAt(result, current, JObj(RemovePath(At(result, current).value.fields, keys[i..]))) == goal
    {
      var key := keys[i];
      var here := At(result, current).value.fields;
      assert keys[i..][0] == key && keys[i..][1..] == keys[i + 1..];
      if key == "" || !HasKey(here, key) {
        assert RemovePath(here, keys[i..]) == here;
        SetAtSame(result, current);
        return;
      }
      var next := SpreadFields(Lookup(here, key).value);
      CursorStep(result, current, key, here, next, JObj(RemovePath(next, keys[i + 1..])));
      result := SetAt(result, current, JObj(Put(here, key, JObj(next))));
      current := current + [key];
    }
    var lastKey := keys[|keys| - 1];
    var here := At(result, current).value.fields;
    assert keys[|keys| - 1..] == [lastKey];
    if lastKey != "" {
      assert RemovePath(here, [lastKey]) == Remove(here, lastKey);
      result := SetAt(result, current, JObj(Remove(here, lastKey)));
    } else {
      SetAtSame(result, current);
    }
  }

  predicate NonEmptyKeys(keys: seq<string>)
  {
    forall i :: 0 <= i < |keys| ==> keys[i] != ""
  }

  /** Every key of `q` leads from `fs` to an object. */
  predicate ObjectsAlong(fs: seq<Field>, q: seq<string>)
    decreases |q|
  {
    q == [] || (Lookup(fs, q[0]).Some? && Lookup(fs, q[0]).value.JObj? && ObjectsAlong(Lookup(fs, q[0]).value.fields, q[1..]))
  }

  lemma NonEmptyTail(keys: seq<string>)
    requires |keys| > 0 && NonEmptyKeys(keys)
    ensures NonEmptyKeys(keys[1..])
  {
    forall j | 0 <= j < |keys| - 1 ensures keys[1..][j] != "" { assert keys[1..][j] == keys[j + 1]; }
  }

  /** Reading a path from an object starts with its first key. */
  lemma GetPathCons(fs: seq<Field>, h: string, t: seq<string>)
    ensures GetPath(Some(JObj(fs)), [h] + t) == GetPath(Lookup(fs, h), t)
  {
    assert ([h] + t)[1..] == t;
  }

  /** Reading the path back gives the value assigned. */
  lemma {:induction false} SetPathReadBack(fs: seq<Field>, keys: seq<string>, value: Json, fill: Fill)
    requires |keys| > 0 && NonEmptyKeys(keys)
    ensures GetPath(Some(JObj(SetPath(fs, keys, value, fill))), keys) == Some(value)
    decreases |keys|
  {
    var r := SetPath(fs, keys, value, fill);
    if |keys| == 1 {
      LookupPut(fs, keys[0], value, keys[0]);
    } else {
      var sub := SetPath(Intermediate(fill, Lookup(fs, keys[0])), keys[1..], value, fill);
      LookupPut(fs, keys[0], JObj(sub), keys[0]);
      assert NonEmptyKeys(keys[1..]) by {
        forall i | 0 <= i < |keys| - 1 ensures keys[1..][i] != "" { assert keys[1..][i] == keys[i + 1]; }
      }
      SetPathReadBack(Intermediate(fill, Lookup(fs, keys[0])), keys[1..], value, fill);
    }
  }

  /** A key other than the first of the path keeps its value. */
  lemma SetPathOtherKeys(fs: seq<Field>, keys: seq<string>, value: Json, fill: Fill, k: string)
    requires |keys| > 0 && keys[0] != "" && k != keys[0]
    ensures Lookup(SetPath(fs, keys, value, fill), k) == Lookup(fs, k)
  {
    if |keys| == 1 {
      LookupPut(fs, keys[0], value, k);
    } else {
      LookupPut(fs, keys[0], JObj(SetPath(Intermediate(fill, Lookup(fs, keys[0])), keys[1..], value, fill)), k);
    }
  }

  /** The fields of the object `parent` leads to. */
  function ObjectAt(fs: seq<Field>, parent: seq<string>): seq<Field>
    requires ObjectsAlong(fs, parent)
    decreases |parent|
  {
    if parent == [] then fs else ObjectAt(Lookup(fs, parent[0]).value.fields, parent[1..])
  }

  /** Reading a key of the object `parent` leads to. */
  lemma {:induction false} GetPathObjectAt(fs: seq<Field>, parent: seq<string>, k: string)
    requires ObjectsAlong(fs, parent)
    ensures GetPath(Some(JObj(fs)), parent + [k]) == Lookup(ObjectAt(fs, parent), k)
    decreases |parent|
  {
    if parent == [] {
      assert parent + [k] == [k];
    } else {
      assert parent + [k] == [parent[0]] + (parent[1..] + [k]);
      GetPathCons(fs, parent[0], parent[1..] + [k]);
      GetPathObjectAt(Lookup(fs, parent[0]).value.fields, parent[1..], k);
    }
  }

  /** Off the path, nothing changes: below intermediates that were objects,
      the object `parent` leads to keeps every key but the next one. */
  lemma {:induction false} SetPathSiblings(fs: seq<Field>, parent: seq<string>, rest: seq<string>, value: Json, fill: Fill, k: string)
    requires |rest| > 0 && rest[0] != "" && k != rest[0] && NonEmptyKeys(parent) && ObjectsAlong(fs, parent)
    ensures ObjectsAlong(SetPath(fs, parent + rest, value, fill), parent)
    ensures Lookup(ObjectAt(SetPath(fs, parent + rest, value, fill), parent), k) == Lookup(ObjectAt(fs, parent), k)
    decreases |parent|
  {
    if parent == [] {
      assert parent + rest == rest;
      SetPathOtherKeys(fs, rest, value, fill, k);
    } else {
      var h := parent[0];
      var keys := parent + rest;
      assert keys[0] == h && keys[1..] == parent[1..] + rest;
      var child := Lookup(fs, h).value;
      var sub := SetPath(child.fields, keys[1..], value, fill);
      assert |keys| > 1 && keys[0] != "";
      assert Intermediate(fill, Lookup(fs, h)) == child.fields;
      assert SetPath(fs, keys, value, fill) == Put(fs, h, JObj(sub));
      LookupPut(fs, h, JObj(sub), h);
      NonEmptyTail(parent);
      SetPathSiblings(child.fields, parent[1..], rest, value, fill, k);
    }
  }

  /** A missing intermediate key, below intermediates that were objects,
      leaves the tree as it was. */
  lemma {:induction false} RemovePathMissing(fs: seq<Field>, keys: seq<string>, i: nat)
    requires i < |keys| - 1 && NonEmptyKeys(keys) && ObjectsAlong(fs, keys[..i])
    requires GetPath(Some(JObj(fs)), keys[..i + 1]).None?
    ensures RemovePath(fs, keys) == fs
    decreases i
  {
    assert keys[..i + 1] == keys[..i] + [keys[i]];
    if i == 0 {
      assert keys[..1] == [keys[0]];
    } else {
      var child := Lookup(fs, keys[0]).value;
      assert NonEmptyKeys(keys[1..]) by {
        forall j | 0 <= j < |keys| - 1 ensures keys[1..][j] != "" { assert keys[1..][j] == keys[j + 1]; }
      }
      assert keys[1..][..i - 1] == keys[..i][1..];
      assert keys[1..][..i] == keys[..i + 1][1..];
      RemovePathMissing(child.fields, keys[1..], i - 1);
      PutLookup(fs, keys[0]);
    }
  }

  /** When every intermediate is an object, the last key is gone and its
      siblings keep their values. */
  lemma {:induction false} RemovePathRemovesLast(fs: seq<Field>, parent: seq<string>, last: string, k: string)
    requires last != "" && NonEmptyKeys(parent) && ObjectsAlong(fs, parent)
    ensures ObjectsAlong(RemovePath(fs, parent + [last]), parent)
    ensures Lookup(ObjectAt(RemovePath(fs, parent + [last]), parent), last).None?
    ensures k != last ==> Lookup(ObjectAt(RemovePath(fs, parent + [last]), parent), k) == Lookup(ObjectAt(fs, parent), k)
    decreases |parent|
  {
    if parent == [] {
      assert parent + [last] == [last];
      LookupRemove(fs, last, last);
      LookupRemove(fs, last, k);
    } else {
      var h := parent[0];
      var keys := parent + [last];
      assert keys[0] == h && keys[1..] == parent[1..] + [last];
      var child := Lookup(fs, h).value;
      var sub := RemovePath(child.fields, keys[1..]);
      assert RemovePath(fs, keys) == Put(fs, h, JObj(sub));
      LookupPut(fs, h, JObj(sub), h);
      NonEmptyTail(parent);
      RemovePathRemovesLast(child.fields, parent[1..], last, k);
    }
  }
}
