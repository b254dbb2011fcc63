/** The path helpers of the expert editor's form: reading the value the
    tree shows at the selected path, and the copy-on-write assignment and
    deletion behind the value, delete and add handlers. */
module ConfigForm {
  import opened Wrappers
  import opened Strings
  import opened JsonTree
  import opened JsonPaths

  // ---------------------------------------------------------------------
  // Reading

  lemma {:induction false} GetPathNone(keys: seq<string>)
    ensures GetPath(None, keys) == None
    decreases |keys|
  {
    if keys != [] {
      GetPathNone(keys[1..]);
    }
  }

  /** `getValueAtPath(obj, path)`: the walk ends with undefined as soon as
      it stands on null or undefined; otherwise it reads one key a step. */
  method GetValueAtPath(obj: Json, path: seq<string>) returns (r: Option<Json>)
    ensures r == GetPath(Some(obj), path)
  {
    if |path| == 0 {
      return Some(obj);
    }
    var current := Some(obj);
    for i := 0 to |path|
      invariant GetPath(current, path[i..]) == GetPath(Some(obj), path)
    {
      assert path[i..][0] == path[i] && path[i..][1..] == path[i + 1..];
      if current.None? || current.value.JNull? {
        GetPathNone(path[i + 1..]);
        return None;
      }
      current := Prop(current.value, path[i]);
    }
    assert path[|path|..] == [];
    r := current;
  }

  /** The value shown at the root is the configuration itself, and a path
      through null or a missing key shows nothing. */
  lemma GetAtNull(keys: seq<string>)
    requires |keys| > 0
    ensures GetPath(Some(JNull), keys) == None
  {
    GetPathNone(keys[1..]);
  }

  /** The path of the editor's example reads the step pin of the x motor. */
  lemma StepPinExample(pin: Json)
    ensures GetPath(Some(JObj([Field("axes", JObj([Field("x", JObj([Field("motor0", JObj([Field("step_pin", pin)]))]))]))])),
                    ["axes", "x", "motor0", "step_pin"]) == Some(pin)
  {
    var m := [Field("step_pin", pin)];
    var x := [Field("motor0", JObj(m))];
    var axes := [Field("x", JObj(x))];
    var root := [Field("axes", JObj(axes))];
    GetPathCons(root, "axes", ["x", "motor0", "step_pin"]);
    GetPathCons(axes, "x", ["motor0", "step_pin"]);
    GetPathCons(x, "motor0", ["step_pin"]);
    GetPathCons(m, "step_pin", []);
  }

  // ---------------------------------------------------------------------
  // Assignment and deletion

  /** What `setValueAtPath(obj, path, value)` returns: the value itself at
      the root, else a copy of `obj` with `value` at `path`, missing or
      null intermediates started afresh and the others spread into copies;
      empty keys are skipped. */
  function ValueSet(obj: Json, path: seq<string>, value: Json): Json
  {
    if path == [] then value else JObj(SetPath(SpreadFields(obj), path, value, ValueAtPath))
  }

  /** What `deleteValueAtPath(obj, path)` returns: `{}` at the root, else a
      copy of `obj` without the last key of `path`; an empty or missing
      intermediate key ends the walk with the copy made so far. */
  function ValueDeleted(obj: Json, path: seq<string>): Json
  {
    if path == [] then JObj([]) else JObj(RemovePath(SpreadFields(obj), path))
  }

  method SetValueAtPath(obj: Json, path: seq<string>, value: Json) returns (result: Json)
    ensures result == ValueSet(obj, path, value)
  {
    if |path| == 0 {
      return value;
    }
    ghost var goal := ValueSet(obj, path, value);
    result := JObj(SpreadFields(obj));
    var current: seq<string> := [];
    assert path[0..] == path;
    for i := 0 to |path| - 1
      invariant At(result, current).Some? && At(result, current).value.JObj?
      invariant SetAt(result, current, JObj(SetPath(At(result, current).value.fields, path[i..], value, ValueAtPath))) == goal
    {
      var key := path[i];
      var here := At(result, current).value.fields;
      assert path[i..][0] == key && path[i..][1..] == path[i + 1..];
      if key == "" {
        continue;
      }
      var child := Lookup(here, key);
      var next := if child.None? || child.value.JNull? then [] else SpreadFields(child.value);
      CursorStep(result, current, key, here, next, JObj(SetPath(next, path[i + 1..], value, ValueAtPath)));
      result := SetAt(result, current, JObj(Put(here, key, JObj(next))));
      current := current + [key];
    }
    var lastKey := path[|path| - 1];
    var here := At(result, current).value.fields;
    assert path[|path| - 1..] == [lastKey];
    if lastKey != "" {
      result := SetAt(result, current, JObj(Put(here, lastKey, value)));
    } else {
      SetAtSame(result, current);
    }
  }

  method DeleteValueAtPath(obj: Json, path: seq<string>) returns (result: Json)
    ensures result == ValueDeleted(obj, path)
  {
    if |path| == 0 {
      return JObj([]);
    }
    result := RemoveAlong(obj, path);
  }

  /** Reading the path back after an assignment gives the value assigned,
      at the root too. */
  lemma SetValueReadBack(obj: Json, path: seq<string>, value: Json)
    requires NonEmptyKeys(path)
    ensures GetPath(Some(ValueSet(obj, path, value)), path) == Some(value)
  {
    if path != [] {
      SetPathReadBack(SpreadFields(obj), path, value, ValueAtPath);
    }
  }

  /** Every intermediate on the path is an object afterwards, however
      missing or null it was before. */
  lemma {:induction false} SetPathMakesObjects(fs: seq<Field>, keys: seq<string>, value: Json)
    requires |keys| > 0 && NonEmptyKeys(keys)
    ensures ObjectsAlong(SetPath(fs, keys, value, ValueAtPath), keys[..|keys| - 1])
    decreases |keys|
  {
    if |keys| == 1 {
      assert keys[..0] == [];
    } else {
      var sub := SetPath(Intermediate(ValueAtPath, Lookup(fs, keys[0])), keys[1..], value, ValueAtPath);
      LookupPut(fs, keys[0], JObj(sub), keys[0]);
      NonEmptyTail(keys);
      SetPathMakesObjects(Intermediate(ValueAtPath, Lookup(fs, keys[0])), keys[1..], value);
      assert keys[..|keys| - 1][0] == keys[0];
      assert keys[..|keys| - 1][1..] == keys[1..][..|keys| - 2];
    }
  }

  /** Off the path, nothing changes: a key beside the path keeps its value
      in the object above it. */
  lemma SetValueSiblings(obj: Json, parent: seq<string>, last: string, value: Json, k: string)
    requires last != "" && k != last && NonEmptyKeys(parent) && ObjectsAlong(SpreadFields(obj), parent)
    ensures ValueSet(obj, parent + [last], value).JObj?
    ensures ObjectsAlong(ValueSet(obj, parent + [last], value).fields, parent)
    ensures Lookup(ObjectAt(ValueSet(obj, parent + [last], value).fields, parent), k)
            == Lookup(ObjectAt(SpreadFields(obj), parent), k)
  {
    SetPathSiblings(SpreadFields(obj), parent, [last], value, ValueAtPath, k);
  }

  /** When the path leads through objects, deletion removes the last key
      and keeps its siblings; at the root it empties the configuration. */
  lemma DeleteRemovesLast(obj: Json, parent: seq<string>, last: string, k: string)
    requires last != "" && NonEmptyKeys(parent) && ObjectsAlong(SpreadFields(obj), parent)
    ensures ValueDeleted(obj, parent + [last]).JObj?
    ensures ObjectsAlong(ValueDeleted(obj, parent + [last]).fields, parent)
    ensures Lookup(ObjectAt(ValueDeleted(obj, parent + [last]).fields, parent), last).None?
    ensures k != last ==> Lookup(ObjectAt(ValueDeleted(obj, parent + [last]).fields, parent), k)
                          == Lookup(ObjectAt(SpreadFields(obj), parent), k)
  {
    RemovePathRemovesLast(SpreadFields(obj), parent, last, k);
  }

  /** A missing intermediate key leaves an unchanged copy. */
  lemma DeleteMissing(obj: Json, path: seq<string>, i: nat)
    requires i < |path| - 1 && NonEmptyKeys(path) && ObjectsAlong(SpreadFields(obj), path[..i])
    requires GetPath(Some(JObj(SpreadFields(obj))), path[..i + 1]).None?
    ensures ValueDeleted(obj, path) == JObj(SpreadFields(obj))
  {
    RemovePathMissing(SpreadFields(obj), path, i);
  }

  // ---------------------------------------------------------------------
  // The handlers

  /** `handleValueChange(value)`: the configuration handed on. */
  method HandleValueChange(config: Json, selectedPath: seq<string>, value: Json) returns (next: Json)
    ensures next == ValueSet(config, selectedPath, value)
  {
    next := SetValueAtPath(config, selectedPath, value);
  }

  /** `handleDeleteKey()`: nothing at the root, else the configuration
      with the selected key deleted. */
  method HandleDeleteKey(config: Json, selectedPath: seq<string>) returns (next: Option<Json>)
    ensures next.None? <==> selectedPath == []
    ensures next.Some? ==> next.value == ValueDeleted(config, selectedPath)
  {
    if |selectedPath| == 0 {
      return None;
    }
    var c := DeleteValueAtPath(config, selectedPath);
    next := Some(c);
  }

  /** The value `handleAddKey` stores: the text parsed as JSON when it is
      not blank and parses, else the text itself. */
  function AddedValue(text: string, parse: string -> Option<Json>): (v: Json)
    ensures JsTrim(text) == "" ==> v == JStr(text)
    ensures parse(text).None? ==> v == JStr(text)
    ensures JsTrim(text) != "" && parse(text).Some? ==> v == parse(text).value
  {
    if JsTrim(text) != "" && parse(text).Some? then parse(text).value else JStr(text)
  }

  /** `handleAddKey()`: nothing for a blank key name, else the
      configuration with the new key below the selected path. */
  method HandleAddKey(config: Json, selectedPath: seq<string>, newKeyName: string, newKeyValue: string,
                      parse: string -> Option<Json>)
    returns (next: Option<Json>)
    ensures next.None? <==> JsTrim(newKeyName) == ""
    ensures next.Some? ==> next.value == ValueSet(config, selectedPath + [newKeyName], AddedValue(newKeyValue, parse))
  {
    if JsTrim(newKeyName) == "" {
      return None;
    }
    var parsedValue := JStr(newKeyValue);
    if JsTrim(newKeyValue) != "" {
      var p := parse(newKeyValue);
      if p.Some? {
        parsedValue := p.value;
      }
    }
    var c := SetValueAtPath(config, selectedPath + [newKeyName], parsedValue);
    next := Some(c);
  }

  /** A key name that is not blank is not empty. */
  lemma NonBlankNonEmpty(s: string)
    requires JsTrim(s) != ""
    ensures s != ""
  {
  }

  /** A key added below a path of non-empty keys can be read back there. */
  lemma AddKeyReadBack(config: Json, selectedPath: seq<string>, newKeyName: string, v: Json)
    requires NonEmptyKeys(selectedPath) && JsTrim(newKeyName) != ""
    ensures GetPath(Some(ValueSet(config, selectedPath + [newKeyName], v)), selectedPath + [newKeyName]) == Some(v)
  {
    NonBlankNonEmpty(newKeyName);
    var p := selectedPath + [newKeyName];
    assert NonEmptyKeys(p) by {
      forall i | 0 <= i < |p| ensures p[i] != "" {
        if i < |selectedPath| { assert p[i] == selectedPath[i]; }
      }
    }
    SetValueReadBack(config, p, v);
  }
}
