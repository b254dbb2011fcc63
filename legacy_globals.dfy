/** What the global loop of `transformLegacyConfig` does to the copy: every
    global mapping whose old key the input defines leaves the input's value
    at its new dotted path, with the old key gone and the mapping recorded,
    whatever the later mappings do. */
module LegacyGlobals {
  import opened Wrappers
  import opened Strings
  import opened JsonTree
  import opened JsonPaths
  import opened LegacyMapper
  import opened LegacyTransform
  import opened LegacyTable

  lemma GlobalSplits(i: nat)
    requires i < |GlobalLegacyMappings|
    ensures SplitsAs(GlobalLegacyMappings[i], GlobalTargetKeys[i])
  {
    GlobalRowSplits(i);
    OldPathsHaveNoDot(i);
    TargetKeysNonEmpty(i);
  }

  /** The rows of the global table keep apart from the rows before them. */
  lemma GlobalApart(i: nat, j: nat)
    requires i < j < |GlobalLegacyMappings|
    ensures Apart(GlobalLegacyMappings[j], GlobalTargetKeys[j], GlobalLegacyMappings[i], GlobalTargetKeys[i])
  {
  }

  // ---------------------------------------------------------------------
  // One step

  lemma GetPathOne(fs: seq<Field>, a: string)
    ensures GetPath(Some(JObj(fs)), [a]) == Lookup(fs, a)
  {
    GetPathCons(fs, a, []);
  }

  lemma GetPathTwo(fs: seq<Field>, a: string, b: string)
    ensures GetPath(Some(JObj(fs)), [a, b]) == Get(Lookup(fs, a), b)
  {
    GetPathCons(fs, a, [b]);
    assert [b][1..] == [];
  }

  /** The effect of mapping `m` with target keys `q` has taken place in `st`:
      the value `v` is at `q` (a two-key target under an object), the old
      key is gone and the mapping is recorded. */
  predicate Holds(st: Moving, m: LegacyMapping, q: seq<string>, v: Json)
  {
    (|q| == 1 || |q| == 2)
    && GetPath(Some(JObj(st.obj)), q) == Some(v)
    && (|q| == 2 ==> Lookup(st.obj, q[0]).Some? && Lookup(st.obj, q[0]).value.JObj?)
    && Lookup(st.obj, m.oldPath).None?
    && m in st.journal.mappings
  }

  /** The paths of `m` split into a single old key and the one or two
      non-empty target keys `q`. */
  predicate SplitsAs(m: LegacyMapping, q: seq<string>)
  {
    Split(m.oldPath, '.') == [m.oldPath] && m.oldPath != ""
    && Split(m.newPath, '.') == q && (|q| == 1 || |q| == 2) && NonEmptyKeys(q)
  }

  /** The keys a later mapping `m'` with targets `q'` writes stay clear of
      the effect of `m`: its old key is not `q`'s head, its target is not
      `m`'s old key, and it meets `q` at most inside the same object. */
  predicate Apart(m': LegacyMapping, q': seq<string>, m: LegacyMapping, q: seq<string>)
  {
    |q| > 0 && |q'| > 0 && m'.oldPath != q[0] && q'[0] != m.oldPath
    && (q'[0] == q[0] ==> |q| == 2 && |q'| == 2 && q'[1] != q[1])
  }

  /** A later mapping leaves the effect of `m` alone. */
  predicate Spares(m': LegacyMapping, q': seq<string>, m: LegacyMapping, q: seq<string>)
  {
    SplitsAs(m', q') && Apart(m', q', m, q)
  }

  /** The global step of `m`, when the input defines its old key, brings
      about its effect. */
  lemma StepSets(st: Moving, config: Json, m: LegacyMapping, q: seq<string>, v: Json)
    requires !AxisLevel(m) && GetNestedValue(config, m.oldPath) == Some(v)
    requires SplitsAs(m, q) && q[0] != m.oldPath
    ensures Holds(GlobalStep(st, config, m), m, q, v)
  {
    var r1 := Remove(st.obj, m.oldPath);
    assert RemovePath(st.obj, [m.oldPath]) == r1;
    var r2 := SetPath(r1, q, v, NestedValue);
    SetPathReadBack(r1, q, v, NestedValue);
    SetPathOtherKeys(r1, q, v, NestedValue, m.oldPath);
    LookupRemove(st.obj, m.oldPath, m.oldPath);
    if |q| == 2 {
      var sub := SetPath(Intermediate(NestedValue, Lookup(r1, q[0])), q[1..], v, NestedValue);
      LookupPut(r1, q[0], JObj(sub), q[0]);
    }
  }

  /** Removing a single old key and then setting a path: the two writes
      of one global step. */
  function StepWrite(obj: seq<Field>, m: LegacyMapping, q: seq<string>, v: Json): seq<Field>
    requires |q| > 0
  {
    SetPath(Remove(obj, m.oldPath), q, v, NestedValue)
  }

  lemma StepIsWrite(st: Moving, config: Json, m: LegacyMapping, q: seq<string>)
    requires !AxisLevel(m) && GetNestedValue(config, m.oldPath).Some?
    requires Split(m.oldPath, '.') == [m.oldPath] && m.oldPath != "" && Split(m.newPath, '.') == q
    ensures GlobalStep(st, config, m).obj == StepWrite(st.obj, m, q, GetNestedValue(config, m.oldPath).value)
    ensures GlobalStep(st, config, m).journal.mappings == st.journal.mappings + [m]
  {
    assert RemovePath(st.obj, [m.oldPath]) == Remove(st.obj, m.oldPath);
  }

  /** A write of another mapping that spares `q` keeps its value and the
      object above it. */
  lemma WriteKeeps(obj: seq<Field>, m': LegacyMapping, q': seq<string>, v': Json, m: LegacyMapping, q: seq<string>, v: Json)
    requires Spares(m', q', m, q) && (|q| == 1 || |q| == 2)
    requires GetPath(Some(JObj(obj)), q) == Some(v)
    requires |q| == 2 ==> Lookup(obj, q[0]).Some? && Lookup(obj, q[0]).value.JObj?
    ensures var r := StepWrite(obj, m', q', v');
            GetPath(Some(JObj(r)), q) == Some(v)
            && (|q| == 2 ==> Lookup(r, q[0]).Some? && Lookup(r, q[0]).value.JObj?)
  {
    var r1 := Remove(obj, m'.oldPath);
    var r2 := StepWrite(obj, m', q', v');
    LookupRemove(obj, m'.oldPath, q[0]);
    if q'[0] != q[0] {
      SetPathOtherKeys(r1, q', v', NestedValue, q[0]);
      if |q| == 1 {
        assert q == [q[0]];
        GetPathOne(obj, q[0]);
        GetPathOne(r2, q[0]);
      } else {
        assert q == [q[0], q[1]];
        GetPathTwo(obj, q[0], q[1]);
        GetPathTwo(r2, q[0], q[1]);
      }
    } else {
      assert q == [q[0], q[1]];
      SameObjectKeeps(r1, q', v', q[1]);
      GetPathTwo(obj, q[0], q[1]);
      GetPathTwo(r2, q[0], q[1]);
    }
  }

  /** Setting `[a, b']` below an object at `a` keeps its other keys. */
  lemma SameObjectKeeps(fs: seq<Field>, q': seq<string>, v': Json, b: string)
    requires |q'| == 2 && q'[0] != "" && q'[1] != "" && q'[1] != b
    requires Lookup(fs, q'[0]).Some? && Lookup(fs, q'[0]).value.JObj?
    ensures var r := SetPath(fs, q', v', NestedValue);
            Lookup(r, q'[0]).Some? && Lookup(r, q'[0]).value.JObj?
            && Get(Lookup(r, q'[0]), b) == Get(Lookup(fs, q'[0]), b)
  {
    var sf := Lookup(fs, q'[0]).value.fields;
    assert Intermediate(NestedValue, Lookup(fs, q'[0])) == sf;
    assert q'[1..] == [q'[1]];
    var sub := Put(sf, q'[1], v');
    assert SetPath(sf, q'[1..], v', NestedValue) == sub;
    LookupPut(fs, q'[0], JObj(sub), q'[0]);
    LookupPut(sf, q'[1], v', b);
  }

  /** A later step that spares the effect keeps it. */
  lemma StepKeeps(st: Moving, config: Json, m': LegacyMapping, q': seq<string>, m: LegacyMapping, q: seq<string>, v: Json)
    requires Holds(st, m, q, v) && Spares(m', q', m, q)
    ensures Holds(GlobalStep(st, config, m'), m, q, v)
  {
    if !AxisLevel(m') && GetNestedValue(config, m'.oldPath).Some? {
      var v' := GetNestedValue(config, m'.oldPath).value;
      StepIsWrite(st, config, m', q');
      WriteKeeps(st.obj, m', q', v', m, q, v);
      var r1 := Remove(st.obj, m'.oldPath);
      LookupRemove(st.obj, m'.oldPath, m.oldPath);
      SetPathOtherKeys(r1, q', v', NestedValue, m.oldPath);
    }
  }

  // ---------------------------------------------------------------------
  // The loop

  lemma {:induction false} GlobalAllConcat(st: Moving, config: Json, a: seq<LegacyMapping>, b: seq<LegacyMapping>)
    ensures GlobalAll(st, config, a + b) == GlobalAll(GlobalAll(st, config, a), config, b)
    decreases |b|
  {
    if b == [] {
      assert a + b == a;
    } else {
      var init := b[..|b| - 1];
      assert (a + b)[..|a + b| - 1] == a + init;
      assert (a + b)[|a + b| - 1] == b[|b| - 1];
      GlobalAllConcat(st, config, a, init);
    }
  }

  /** The axis-level mappings are skipped. */
  lemma {:induction false} GlobalAllSkips(st: Moving, config: Json, ms: seq<LegacyMapping>)
    requires forall i :: 0 <= i < |ms| ==> AxisLevel(ms[i])
    ensures GlobalAll(st, config, ms) == st
    decreases |ms|
  {
    if ms != [] {
      GlobalAllSkips(st, config, ms[..|ms| - 1]);
    }
  }

  /** Later steps that each skip or spare the effect keep it. */
  lemma {:induction false} GlobalAllKeeps(st: Moving, config: Json, ms: seq<LegacyMapping>, qs: seq<seq<string>>,
                                          m: LegacyMapping, q: seq<string>, v: Json)
    requires Holds(st, m, q, v) && |qs| == |ms|
    requires forall j :: 0 <= j < |ms| ==> Spares(ms[j], qs[j], m, q)
    ensures Holds(GlobalAll(st, config, ms), m, q, v)
    decreases |ms|
  {
    if ms != [] {
      var n := |ms| - 1;
      var before := GlobalAll(st, config, ms[..n]);
      assert forall j :: 0 <= j < n ==> ms[..n][j] == ms[j] && qs[..n][j] == qs[j];
      GlobalAllKeeps(st, config, ms[..n], qs[..n], m, q, v);
      StepKeeps(before, config, ms[n], qs[n], m, q, v);
      assert GlobalAll(st, config, ms) == GlobalStep(before, config, ms[n]);
    }
  }

  /** No global mapping targets its own old key. */
  lemma GlobalOwnKeys(i: nat)
    requires i < |GlobalLegacyMappings|
    ensures GlobalTargetKeys[i][0] != GlobalLegacyMappings[i].oldPath
  {
  }

  /** Every mapping listed after a global mapping spares its effect. */
  lemma GlobalPairs(i: nat, j: nat)
    requires i < j < |GlobalLegacyMappings|
    ensures Spares(GlobalLegacyMappings[j], GlobalTargetKeys[j], GlobalLegacyMappings[i], GlobalTargetKeys[i])
  {
    GlobalSplits(j);
    GlobalApart(i, j);
  }

  /** A table built from columns under `motor0.` or `homing.` is axis level. */
  lemma ColumnsLevel(olds: seq<string>, prefix: string, fields: seq<string>, descriptions: seq<string>)
    requires |olds| == |fields| == |descriptions| && (prefix == "motor0." || prefix == "homing.")
    ensures forall i :: 0 <= i < |Columns(olds, prefix, fields, descriptions)| ==> AxisLevel(Columns(olds, prefix, fields, descriptions)[i])
  {
    ColumnsAt(olds, prefix, fields, descriptions);
    forall i | 0 <= i < |olds| ensures AxisLevel(Columns(olds, prefix, fields, descriptions)[i]) {
      StartsWithConcat(prefix, fields[i]);
    }
  }

  /** Over the whole table only the global mappings act. */
  lemma OnlyGlobalsAct(st: Moving, config: Json)
    ensures GlobalAll(st, config, LegacyMappings) == GlobalAll(st, config, GlobalLegacyMappings)
  {
    ColumnsLevel(MotorOldFields, "motor0.", MotorFields, MotorDescriptions);
    ColumnsLevel(HomingOldFields, "homing.", HomingFields, HomingDescriptions);
    GlobalAllConcat(st, config, MotorLegacyMappings, HomingLegacyMappings);
    GlobalAllConcat(st, config, MotorLegacyMappings + HomingLegacyMappings, GlobalLegacyMappings);
    GlobalAllSkips(st, config, MotorLegacyMappings);
    GlobalAllSkips(st, config, HomingLegacyMappings);
  }

  /** Over any table: a mapping whose old key the input defines takes
      effect, and keeps it when every later mapping spares it. */
  lemma TableReadBack(st: Moving, config: Json, g: seq<LegacyMapping>, qs: seq<seq<string>>, i: nat)
    requires |qs| == |g| && i < |g|
    requires !AxisLevel(g[i]) && SplitsAs(g[i], qs[i]) && qs[i][0] != g[i].oldPath
    requires GetNestedValue(config, g[i].oldPath).Some?
    requires forall j :: i < j < |g| ==> Spares(g[j], qs[j], g[i], qs[i])
    ensures Holds(GlobalAll(st, config, g), g[i], qs[i], GetNestedValue(config, g[i].oldPath).value)
  {
    var m := g[i];
    var v := GetNestedValue(config, m.oldPath).value;
    TableSets(st, config, g, qs[i], i);
    GlobalAllConcat(st, config, g[..i + 1], g[i + 1..]);
    SplitRejoins(g, i + 1);
    var rest := g[i + 1..];
    var later := qs[i + 1..];
    forall j | 0 <= j < |rest| ensures Spares(rest[j], later[j], m, qs[i]) {
      assert rest[j] == g[i + 1 + j] && later[j] == qs[i + 1 + j];
    }
    GlobalAllKeeps(GlobalAll(st, config, g[..i + 1]), config, rest, later, m, qs[i], v);
  }

  /** A sequence cut in two and rejoined is itself. */
  lemma SplitRejoins<T>(s: seq<T>, n: nat)
    requires n <= |s|
    ensures s[..n] + s[n..] == s
  {
  }

  /** Right after its own turn, a mapping whose old key the input defines
      has taken effect. */
  lemma TableSets(st: Moving, config: Json, g: seq<LegacyMapping>, q: seq<string>, i: nat)
    requires i < |g| && !AxisLevel(g[i]) && SplitsAs(g[i], q) && q[0] != g[i].oldPath
    requires GetNestedValue(config, g[i].oldPath).Some?
    ensures Holds(GlobalAll(st, config, g[..i + 1]), g[i], q, GetNestedValue(config, g[i].oldPath).value)
  {
    assert g[..i + 1][..i] == g[..i];
    var before := GlobalAll(st, config, g[..i]);
    assert GlobalAll(st, config, g[..i + 1]) == GlobalStep(before, config, g[i]);
    StepSets(before, config, g[i], q, GetNestedValue(config, g[i].oldPath).value);
  }

  /** After the loop over the table, each global mapping whose old key the
      input defines has taken effect. */
  lemma GlobalReadBack(st: Moving, config: Json, i: nat)
    requires i < |GlobalLegacyMappings| && GetNestedValue(config, GlobalLegacyMappings[i].oldPath).Some?
    ensures Holds(GlobalAll(st, config, LegacyMappings), GlobalLegacyMappings[i], GlobalTargetKeys[i],
                  GetNestedValue(config, GlobalLegacyMappings[i].oldPath).value)
  {
    OnlyGlobalsAct(st, config);
    GlobalTargets();
    GlobalSplits(i);
    GlobalOwnKeys(i);
    forall j | i < j < |GlobalLegacyMappings|
      ensures Spares(GlobalLegacyMappings[j], GlobalTargetKeys[j], GlobalLegacyMappings[i], GlobalTargetKeys[i])
    {
      GlobalPairs(i, j);
    }
    TableReadBack(st, config, GlobalLegacyMappings, GlobalTargetKeys, i);
  }

  /** A global mapping's old key, read from the input as the loop sees it,
      is the input's own. */
  lemma SeenOldValue(config: Json, i: nat)
    requires i < |GlobalLegacyMappings|
    ensures GetNestedValue(AxesLoop(config).seen, GlobalLegacyMappings[i].oldPath)
            == GetNestedValue(config, GlobalLegacyMappings[i].oldPath)
  {
    var key := GlobalLegacyMappings[i].oldPath;
    GlobalSplits(i);
    assert [key][1..] == [];
    if key in AxisNames {
      GlobalAvoids(i, key);
    }
    SeenProp(config, key);
  }

  /** `transformLegacyConfig` over an input that defines the old key of a
      global mapping: the data holds that value at the new dotted path, no
      longer has the old key, and the mapping is reported. */
  lemma TransformGlobals(config: Json, stringify: Json -> string, i: nat)
    requires i < |GlobalLegacyMappings| && GetNestedValue(config, GlobalLegacyMappings[i].oldPath).Some?
    ensures Transform(config, stringify).Some?
    ensures var r := Transform(config, stringify).value;
            var m := GlobalLegacyMappings[i];
            GetNestedValue(r.data, m.newPath) == GetNestedValue(config, m.oldPath)
            && Prop(r.data, m.oldPath).None?
            && m in r.mappings
  {
    var m := GlobalLegacyMappings[i];
    GlobalSplits(i);
    assert [m.oldPath][1..] == [];
    assert !config.JNull?;
    var a := AxesLoop(config);
    var g := GlobalAll(Moving(a.fields, a.journal), a.seen, LegacyMappings);
    assert Transform(config, stringify).value.data == JObj(g.obj);
    assert Transform(config, stringify).value.mappings == g.journal.mappings;
    SeenOldValue(config, i);
    GlobalReadBack(Moving(a.fields, a.journal), a.seen, i);
    HoldsMeaning(g, m, GlobalTargetKeys[i], GetNestedValue(config, m.oldPath).value);
  }

  /** `Holds` read through the source's own accessors. */
  lemma HoldsMeaning(st: Moving, m: LegacyMapping, q: seq<string>, v: Json)
    requires Holds(st, m, q, v) && SplitsAs(m, q)
    ensures GetNestedValue(JObj(st.obj), m.newPath) == Some(v)
    ensures Prop(JObj(st.obj), m.oldPath).None? && m in st.journal.mappings
  {
  }

  // ---------------------------------------------------------------------
  // Keys the global loop does not touch

  lemma StepOther(st: Moving, config: Json, m: LegacyMapping, q: seq<string>, key: string)
    requires SplitsAs(m, q) && m.oldPath != key && q[0] != key
    ensures Lookup(GlobalStep(st, config, m).obj, key) == Lookup(st.obj, key)
  {
    if !AxisLevel(m) && GetNestedValue(config, m.oldPath).Some? {
      StepIsWrite(st, config, m, q);
      LookupRemove(st.obj, m.oldPath, key);
      SetPathOtherKeys(Remove(st.obj, m.oldPath), q, GetNestedValue(config, m.oldPath).value, NestedValue, key);
    }
  }

  /** Over any table whose rows avoid `key`, the loop keeps its value. */
  lemma {:induction false} TableOther(st: Moving, config: Json, g: seq<LegacyMapping>, qs: seq<seq<string>>, key: string)
    requires |qs| == |g|
    requires forall j :: 0 <= j < |g| ==> SplitsAs(g[j], qs[j]) && g[j].oldPath != key && qs[j][0] != key
    ensures Lookup(GlobalAll(st, config, g).obj, key) == Lookup(st.obj, key)
    decreases |g|
  {
    if g != [] {
      var n := |g| - 1;
      TableOther(st, config, g[..n], qs[..n], key);
      StepOther(GlobalAll(st, config, g[..n]), config, g[n], qs[n], key);
    }
  }

  /** The loop over the table keeps `axes` and the axis names. */
  lemma GlobalsKeep(st: Moving, config: Json, key: string)
    requires key == "axes" || key in AxisNames
    ensures Lookup(GlobalAll(st, config, LegacyMappings).obj, key) == Lookup(st.obj, key)
  {
    OnlyGlobalsAct(st, config);
    forall j | 0 <= j < |GlobalLegacyMappings|
      ensures SplitsAs(GlobalLegacyMappings[j], GlobalTargetKeys[j])
              && GlobalLegacyMappings[j].oldPath != key && GlobalTargetKeys[j][0] != key
    {
      GlobalSplits(j);
      GlobalAvoids(j, key);
    }
    TableOther(st, config, GlobalLegacyMappings, GlobalTargetKeys, key);
  }

  // ---------------------------------------------------------------------
  // The journal only grows

  /** A rewrite that appends to the suggestions it is given. */
  ghost predicate Extends(rewrite: AxisRewrite)
  {
    forall a: seq<Field>, j: Journal :: j.suggestions <= rewrite(a, j).journal.suggestions
  }

  lemma ApplyAxisExtends()
    ensures Extends(ApplyAxis)
  {
    forall a: seq<Field>, j: Journal ensures j.suggestions <= ApplyAxis(a, j).journal.suggestions {
      ApplyAxisJournal(a, j);
    }
  }

  lemma {:induction false} ApplyAxesExtends(axes: Json, entries: seq<Field>, j: Journal, rewrite: AxisRewrite)
    requires Extends(rewrite)
    ensures j.suggestions <= ApplyAxes(axes, entries, j, rewrite).journal.suggestions
    decreases |entries|
  {
    if entries != [] {
      ApplyAxesExtends(axes, entries[..|entries| - 1], j, rewrite);
    }
  }

  lemma {:induction false} GlobalAllExtends(st: Moving, config: Json, ms: seq<LegacyMapping>)
    ensures st.journal.suggestions <= GlobalAll(st, config, ms).journal.suggestions
    decreases |ms|
  {
    if ms != [] {
      GlobalAllExtends(st, config, ms[..|ms| - 1]);
    }
  }

  // ---------------------------------------------------------------------
  // The axes of the result

  /** What `axes[k]` holds before the axis loop: a flat axis moved in, else
      the input's own `axes[k]`. */
  function Nested(config: seq<Field>, k: string): Option<Json>
  {
    if k in AxisNames && IsAxisObject(Lookup(config, k)) then Lookup(config, k)
    else Lookup(SpreadOf(Lookup(config, "axes")), k)
  }

  /** The axes of an object input are an object after the axes loop when it
      had flat axes or an `axes` object with distinct keys. */
  predicate AxesInput(config: Json)
  {
    config.JObj? && DistinctKeys(SpreadOf(Lookup(config.fields, "axes")))
    && (HasFlatAxes(config.fields) || (Lookup(config.fields, "axes").Some? && Lookup(config.fields, "axes").value.JObj?))
  }

  /** Before the axis loop, `axes` is an object with distinct keys holding
      what `Nested` says. */
  lemma EnsuredAxes(config: Json, k: string)
    requires AxesInput(config)
    ensures var axes := Lookup(EnsureAxes(config.fields, []).result, "axes");
            axes.Some? && axes.value.JObj? && DistinctKeys(axes.value.fields)
            && Lookup(axes.value.fields, k) == Nested(config.fields, k)
  {
    var fs := config.fields;
    EnsureAxesMeaning(fs, [], k);
    if HasFlatAxes(fs) {
      EnsureAxesDistinct(fs, []);
    } else {
      assert !(k in AxisNames && IsAxisObject(Lookup(fs, k)));
    }
  }

  /** The axis loop over an object `axes` with distinct keys, put back. */
  lemma LoopedAxes(result: seq<Field>, j: Journal, k: string)
    requires var axes := Lookup(result, "axes"); axes.Some? && axes.value.JObj? && DistinctKeys(axes.value.fields)
    ensures var axes := Lookup(result, "axes").value;
            var p := ApplyAxes(axes, SpreadFields(axes), j, ApplyAxis);
            var r := Put(result, "axes", p.axes);
            Lookup(r, "axes").Some? && Lookup(r, "axes").value.JObj?
            && Lookup(Lookup(r, "axes").value.fields, k) == Converted(Lookup(axes.fields, k))
            && (k != "axes" ==> Lookup(r, k) == Lookup(result, k))
  {
    var axes := Lookup(result, "axes").value;
    var fs := axes.fields;
    assert axes == JObj(fs) && SpreadFields(axes) == fs;
    ApplyAxesEntries(fs, j, k);
    var p := ApplyAxes(JObj(fs), fs, j, ApplyAxis);
    assert p.axes.JObj? && Lookup(p.axes.fields, k) == Converted(Lookup(fs, k));
    PutBack(result, p.axes, k);
  }

  /** Putting `axes` back: it is read back, and other keys are unchanged. */
  lemma PutBack(result: seq<Field>, a: Json, k: string)
    ensures Lookup(Put(result, "axes", a), "axes") == Some(a)
    ensures k != "axes" ==> Lookup(Put(result, "axes", a), k) == Lookup(result, k)
  {
    LookupPut(result, "axes", a, "axes");
    LookupPut(result, "axes", a, k);
  }

  /** After the axes loop, `axes[k]` is the rewritten copy of what was
      nested there, and a flat axis is gone from the top level. */
  lemma AxesStageAxes(config: Json, k: string)
    requires AxesInput(config)
    ensures var a := AxesLoop(config);
            Lookup(a.fields, "axes").Some? && Lookup(a.fields, "axes").value.JObj?
            && Lookup(Lookup(a.fields, "axes").value.fields, k) == Converted(Nested(config.fields, k))
            && (k in AxisNames && IsAxisObject(Lookup(config.fields, k)) ==> Lookup(a.fields, k).None?)
  {
    AxesStageNested(config, k);
    if k in AxisNames && IsAxisObject(Lookup(config.fields, k)) {
      AxesStageFlatGone(config, k);
    }
  }

  /** The axes loop leaves an `axes` object whose `k` entry is the rewritten
      nested value. */
  lemma AxesStageNested(config: Json, k: string)
    requires AxesInput(config)
    ensures var a := AxesLoop(config);
            Lookup(a.fields, "axes").Some? && Lookup(a.fields, "axes").value.JObj?
            && Lookup(Lookup(a.fields, "axes").value.fields, k) == Converted(Nested(config.fields, k))
  {
    var e := EnsureAxes(config.fields, []);
    assert SpreadFields(config) == config.fields;
    EnsuredAxes(config, k);
    LoopedAxes(e.result, Journal([], e.suggestions), k);
  }

  /** With flat axes, a flat axis of the input whose `motor0` is an object
      holds, after the axes loop, each moved motor field under its new name:
      the loop wrote into the input's own `motor0`. */
  lemma SeenFlatMotor(config: Json, k: string, ax: seq<Field>, i: nat)
    requires AxesInput(config) && HasFlatAxes(config.fields)
    requires k in AxisNames && Lookup(config.fields, k) == Some(JObj(ax))
    requires Lookup(ax, "motor0").Some? && Lookup(ax, "motor0").value.JObj?
    requires i < 6 && Lookup(ax, MotorOldFields[i]).Some?
    ensures var s := Prop(AxesLoop(config).seen, k);
            s.Some? && s.value.JObj? && Lookup(SectionOf(s.value.fields, "motor0"), MotorFields[i]) == Lookup(ax, MotorOldFields[i])
  {
    var conv := SeenFlatAxis(config, k, ax);
    ApplyAxisMotor(ax, Journal([], []), i);
    SharedSectionOf(ax, conv, "motor0");
  }

  /** The same for the moved homing fields and the input's own `homing`. */
  lemma SeenFlatHoming(config: Json, k: string, ax: seq<Field>, i: nat)
    requires AxesInput(config) && HasFlatAxes(config.fields)
    requires k in AxisNames && Lookup(config.fields, k) == Some(JObj(ax))
    requires Lookup(ax, "homing").Some? && Lookup(ax, "homing").value.JObj?
    requires i < 2 && Lookup(ax, HomingOldFields[i]).Some?
    ensures var s := Prop(AxesLoop(config).seen, k);
            s.Some? && s.value.JObj? && Lookup(SectionOf(s.value.fields, "homing"), HomingFields[i]) == Lookup(ax, HomingOldFields[i])
  {
    var conv := SeenFlatAxis(config, k, ax);
    ApplyAxisHoming(ax, Journal([], []), i);
    SharedSectionOf(ax, conv, "homing");
  }

  /** A flat axis of the input after the loop is the axis with the writes
      of its own conversion. */
  lemma SeenFlatAxis(config: Json, k: string, ax: seq<Field>) returns (conv: seq<Field>)
    requires AxesInput(config) && HasFlatAxes(config.fields)
    requires k in AxisNames && Lookup(config.fields, k) == Some(JObj(ax))
    ensures conv == AxisResult(ax)
    ensures Prop(AxesLoop(config).seen, k) == Some(SharedAxis(JObj(ax), Some(JObj(conv))))
  {
    var fs := config.fields;
    SeenFlat(config);
    AxesStageNested(config, k);
    var container := Lookup(AxesLoop(config).fields, "axes").value;
    NestedFlat(fs, k, ax);
    conv := ConvertedObject(ax);
    SharedInputAxis(fs, SpreadFields(container), k, ax);
  }

  lemma NestedFlat(fs: seq<Field>, k: string, ax: seq<Field>)
    requires k in AxisNames && Lookup(fs, k) == Some(JObj(ax))
    ensures Nested(fs, k) == Some(JObj(ax))
  {
  }

  lemma ConvertedObject(ax: seq<Field>) returns (conv: seq<Field>)
    ensures conv == AxisResult(ax) && Converted(Some(JObj(ax))) == Some(JObj(conv))
  {
    assert SpreadFields(JObj(ax)) == ax;
    conv := AxisResult(ax);
  }

  /** A flat axis is not left at the top level. */
  lemma AxesStageFlatGone(config: Json, k: string)
    requires AxesInput(config) && k in AxisNames && IsAxisObject(Lookup(config.fields, k))
    ensures Lookup(AxesLoop(config).fields, k).None?
  {
    var e := EnsureAxes(config.fields, []);
    assert SpreadFields(config) == config.fields;
    EnsuredAxes(config, k);
    var axes := Lookup(e.result, "axes").value;
    var p := ApplyAxes(axes, SpreadFields(axes), Journal([], e.suggestions), ApplyAxis);
    assert AxesLoop(config).fields == Put(e.result, "axes", p.axes);
    AxesNotAnAxis();
    LookupPut(e.result, "axes", p.axes, k);
    EnsureAxesMeaning(config.fields, [], k);
  }

  /** With flat axes, the axis loop's journal opens with the conversion
      note. */
  lemma AxesStageNote(config: Json)
    requires config.JObj? && HasFlatAxes(config.fields)
    ensures var a := AxesLoop(config);
            |a.journal.suggestions| > 0 && a.journal.suggestions[0] == ConvertedNote
  {
    var e := EnsureAxes(config.fields, []);
    assert SpreadFields(config) == config.fields;
    EnsureAxesMeaning(config.fields, [], "axes");
    var axes := Lookup(e.result, "axes");
    ApplyAxisExtends();
    ApplyAxesExtends(axes.value, SpreadFields(axes.value), Journal([], e.suggestions), ApplyAxis);
  }

  lemma TransformData(config: Json, stringify: Json -> string)
    requires !config.JNull?
    ensures var a := AxesLoop(config);
            var g := GlobalAll(Moving(a.fields, a.journal), a.seen, LegacyMappings);
            Transform(config, stringify).Some?
            && Transform(config, stringify).value.data == JObj(g.obj)
  {
  }

  /** The data and the suggestions of `transformLegacyConfig`, in terms of
      the two loops. */
  lemma TransformParts(config: Json, stringify: Json -> string)
    requires !config.JNull?
    ensures var a := AxesLoop(config);
            var g := GlobalAll(Moving(a.fields, a.journal), a.seen, LegacyMappings);
            Transform(config, stringify).Some?
            && Transform(config, stringify).value.data == JObj(g.obj)
            && g.journal.suggestions <= Transform(config, stringify).value.suggestions
            && a.journal.suggestions <= g.journal.suggestions
  {
    var a := AxesLoop(config);
    GlobalAllExtends(Moving(a.fields, a.journal), a.seen, LegacyMappings);
  }

  /** The axes of a result: `axes` is an object, `axes[k]` is the rewritten
      copy of what `Nested` says, and a flat axis `k` is gone from the top. */
  predicate AxesFacts(obj: seq<Field>, config: Json, k: string)
    requires config.JObj?
  {
    Lookup(obj, "axes").Some? && Lookup(obj, "axes").value.JObj?
    && Lookup(Lookup(obj, "axes").value.fields, k) == Converted(Nested(config.fields, k))
    && (k in AxisNames && IsAxisObject(Lookup(config.fields, k)) ==> Lookup(obj, k).None?)
  }

  /** After both loops, the axes are those of the axis loop. */
  lemma GlobalsAxes(config: Json, k: string)
    requires AxesInput(config)
    ensures var a := AxesLoop(config);
            AxesFacts(GlobalAll(Moving(a.fields, a.journal), a.seen, LegacyMappings).obj, config, k)
  {
    var a := AxesLoop(config);
    var st := Moving(a.fields, a.journal);
    AxesStageAxes(config, k);
    GlobalsKeep(st, a.seen, "axes");
    if k in AxisNames {
      GlobalsKeep(st, a.seen, k);
    }
  }

  /** `transformLegacyConfig` on an object input whose axes end up an
      object: `data.axes[k]` is the rewritten copy of the axis nested there
      (a flat axis moved in, else the input's `axes[k]`), and a flat axis is
      no longer at the top level. */
  lemma TransformAxes(config: Json, stringify: Json -> string, k: string)
    requires AxesInput(config)
    ensures Transform(config, stringify).Some? && Transform(config, stringify).value.data.JObj?
    ensures AxesFacts(Transform(config, stringify).value.data.fields, config, k)
  {
    TransformData(config, stringify);
    GlobalsAxes(config, k);
  }

  /** With flat axes, the conversion note is the first suggestion. */
  lemma TransformNote(config: Json, stringify: Json -> string)
    requires config.JObj? && HasFlatAxes(config.fields)
    ensures Transform(config, stringify).Some?
    ensures var r := Transform(config, stringify).value;
            |r.suggestions| > 0 && r.suggestions[0] == ConvertedNote
  {
    TransformParts(config, stringify);
    AxesStageNote(config);
  }

  lemma AxesFactsRead(obj: seq<Field>, k: string, v: Json)
    requires Lookup(obj, "axes").Some? && Lookup(obj, "axes").value.JObj?
    requires Lookup(Lookup(obj, "axes").value.fields, k) == Some(v) && Lookup(obj, k).None?
    ensures Get(Prop(JObj(obj), "axes"), k) == Some(v) && Prop(JObj(obj), k).None?
  {
    var axes := Lookup(obj, "axes").value;
    assert Prop(JObj(obj), "axes") == Some(axes);
    assert Prop(axes, k) == Lookup(axes.fields, k);
  }

  lemma FlatAxisNested(config: Json, k: string, axis: seq<Field>)
    requires config.JObj? && !HasKey(config.fields, "axes")
    requires k in AxisNames && Lookup(config.fields, k) == Some(JObj(axis))
    requires forall f :: f in MotorOldFields || f in HomingOldFields ==> !HasKey(axis, f)
    ensures AxesInput(config) && HasFlatAxes(config.fields) && IsAxisObject(Lookup(config.fields, k))
    ensures Converted(Nested(config.fields, k)) == Some(JObj(axis))
  {
    assert IsAxisObject(Lookup(config.fields, k));
    assert Lookup(config.fields, "axes").None?;
    AxisWithoutLegacyFields(axis);
  }

  /** A flat axis without legacy fields is moved under `axes` unchanged, as
      an input without an `axes` key shows. */
  lemma FlatAxisMoved(config: Json, stringify: Json -> string, k: string, axis: seq<Field>)
    requires config.JObj? && !HasKey(config.fields, "axes")
    requires k in AxisNames && Lookup(config.fields, k) == Some(JObj(axis))
    requires forall f :: f in MotorOldFields || f in HomingOldFields ==> !HasKey(axis, f)
    ensures Transform(config, stringify).Some?
    ensures var r := Transform(config, stringify).value;
            Get(Prop(r.data, "axes"), k) == Some(JObj(axis))
            && Prop(r.data, k).None?
            && |r.suggestions| > 0 && r.suggestions[0] == ConvertedNote
  {
    FlatAxisNested(config, k, axis);
    TransformAxes(config, stringify, k);
    TransformNote(config, stringify);
    var obj := Transform(config, stringify).value.data.fields;
    assert AxesFacts(obj, config, k);
    AxesFactsRead(obj, k, JObj(axis));
  }
}
