/** The legacy configuration mapper: it moves the fields of an old-style
    FluidNC configuration to their current places (flat axes under `axes`,
    per-axis driver and homing fields under `motor0` and `homing`, renamed
    globals), and records every move as a mapping and a suggestion. */
module LegacyMapper {
  import opened Wrappers
  import opened Strings
  import opened JsonTree
  import opened JsonPaths

  datatype LegacyMapping = LegacyMapping(oldPath: string, newPath: string, description: string)

  datatype Severity = Warning | Info | Error

  /** An `ImportSuggestion`: `hint` is its optional `suggestion` text. */
  datatype Suggestion = Suggestion(kind: Severity, message: string, hint: Option<string>, path: Option<seq<string>>)

  /** One issue of a schema validation error. */
  datatype Issue = Issue(code: string, path: seq<string>, message: string)

  /** The `ImportResult`; `errors` is None for `null`. */
  datatype ImportResult = ImportResult(success: bool, data: Json, mappings: seq<LegacyMapping>,
                                       suggestions: seq<Suggestion>, errors: Option<seq<Issue>>)

  // ---------------------------------------------------------------------
  // The mapping table

  /** A table written column by column: `olds[i]` moves to `prefix + fields[i]`. */
  function Columns(olds: seq<string>, prefix: string, fields: seq<string>, descriptions: seq<string>): seq<LegacyMapping>
    requires |olds| == |fields| == |descriptions|
    decreases |olds|
  {
    if olds == [] then []
    else [LegacyMapping(olds[0], prefix + fields[0], descriptions[0])] + Columns(olds[1..], prefix, fields[1..], descriptions[1..])
  }

  lemma {:induction false} ColumnsAt(olds: seq<string>, prefix: string, fields: seq<string>, descriptions: seq<string>)
    requires |olds| == |fields| == |descriptions|
    ensures |Columns(olds, prefix, fields, descriptions)| == |olds|
    ensures forall i :: 0 <= i < |olds| ==>
              Columns(olds, prefix, fields, descriptions)[i] == LegacyMapping(olds[i], prefix + fields[i], descriptions[i])
    decreases |olds|
  {
    if olds != [] {
      ColumnsAt(olds[1..], prefix, fields[1..], descriptions[1..]);
    }
  }

  /** The per-axis motor mappings: `<old>` moves to `motor0.<field>`. */
  const MotorOldFields: seq<string> := ["stepper_driver", "step_pin", "direction_pin", "disable_pin", "tmc2130", "tmc2209"]
  const MotorFields: seq<string> := ["driver_type", "step_pin", "direction_pin", "disable_pin", "tmc_2130", "tmc_2209"]
  const MotorDescriptions: seq<string> := [
    "Legacy stepper_driver field moved to motor0.driver_type",
    "Legacy step_pin moved to motor configuration",
    "Legacy direction_pin moved to motor configuration",
    "Legacy disable_pin moved to motor configuration",
    "TMC2130 configuration moved to motor0.tmc_2130",
    "TMC2209 configuration moved to motor0.tmc_2209"
  ]
  const MotorLegacyMappings: seq<LegacyMapping> := Columns(MotorOldFields, "motor0.", MotorFields, MotorDescriptions)

  /** The per-axis homing mappings: `<old>` moves to `homing.<field>`. */
  const HomingOldFields: seq<string> := ["homing_cycle", "positive_direction"]
  const HomingFields: seq<string> := ["cycle", "positive_direction"]
  const HomingDescriptions: seq<string> := [
    "Legacy homing_cycle moved to homing.cycle",
    "Legacy positive_direction moved to homing configuration"
  ]
  const HomingLegacyMappings: seq<LegacyMapping> := Columns(HomingOldFields, "homing.", HomingFields, HomingDescriptions)

  /** The rows of the two per-axis tables. */
  lemma SectionRows()
    ensures |MotorLegacyMappings| == 6 && |HomingLegacyMappings| == 2
    ensures forall i :: 0 <= i < 6 ==>
              MotorLegacyMappings[i] == LegacyMapping(MotorOldFields[i], "motor0." + MotorFields[i], MotorDescriptions[i])
    ensures forall i :: 0 <= i < 2 ==>
              HomingLegacyMappings[i] == LegacyMapping(HomingOldFields[i], "homing." + HomingFields[i], HomingDescriptions[i])
  {
    ColumnsAt(MotorOldFields, "motor0.", MotorFields, MotorDescriptions);
    ColumnsAt(HomingOldFields, "homing.", HomingFields, HomingDescriptions);
  }

  /** The mappings applied to the whole configuration. */
  const GlobalLegacyMappings: seq<LegacyMapping> := [
    LegacyMapping("max_rate", "max_rate_mm_per_min", "Legacy max_rate renamed to max_rate_mm_per_min for clarity"),
    LegacyMapping("acceleration", "acceleration_mm_per_sec2", "Legacy acceleration renamed to acceleration_mm_per_sec2 for clarity"),
    LegacyMapping("pwm_pin", "spindle.output_pin", "Legacy spindle PWM pin moved to spindle.output_pin"),
    LegacyMapping("spindle_enable_pin", "spindle.enable_pin", "Legacy spindle enable pin moved to spindle.enable_pin"),
    LegacyMapping("spindle_dir_pin", "spindle.direction_pin", "Legacy spindle direction pin moved to spindle.direction_pin")
  ]

  /** `LEGACY_MAPPINGS`, in its order. */
  const LegacyMappings: seq<LegacyMapping> := MotorLegacyMappings + HomingLegacyMappings + GlobalLegacyMappings

  /** `mappings.filter(m => m.newPath.startsWith(prefix))`. */
  function WithPrefix(ms: seq<LegacyMapping>, prefix: string): seq<LegacyMapping>
    decreases |ms|
  {
    if ms == [] then []
    else
      var rest := WithPrefix(ms[1..], prefix);
      if StartsWith(ms[0].newPath, prefix) then [ms[0]] + rest else rest
  }

  /** The filter keeps exactly the mappings with the prefix. */
  lemma {:induction false} WithPrefixMeaning(ms: seq<LegacyMapping>, prefix: string, m: LegacyMapping)
    ensures m in WithPrefix(ms, prefix) <==> m in ms && StartsWith(m.newPath, prefix)
    decreases |ms|
  {
    if ms != [] {
      assert ms == [ms[0]] + ms[1..];
      WithPrefixMeaning(ms[1..], prefix, m);
    }
  }

  // ---------------------------------------------------------------------
  // Dotted paths

  /** `getNestedValue(obj, path)`. */
  function GetNestedValue(obj: Json, path: string): Option<Json>
  {
    GetPath(Some(obj), Split(path, '.'))
  }

  /** `setNestedValue(obj, path, value)`: a copy of `obj` with `value` at the
      dotted `path`, each intermediate spread into a fresh object (or
      started afresh when it is not an object). */
  method SetNestedValue(obj: Json, path: string, value: Json) returns (result: Json)
    ensures result == JObj(SetPath(SpreadFields(obj), Split(path, '.'), value, NestedValue))
  {
    var keys := Split(path, '.');
    ghost var goal := JObj(SetPath(SpreadFields(obj), keys, value, NestedValue));
    result := JObj(SpreadFields(obj));
    var current: seq<string> := [];
    assert keys[0..] == keys;
    for i := 0 to |keys| - 1
      invariant At(result, current).Some? && At(result, current).value.JObj?
      invariant SetAt(result, current, JObj(SetPath(At(result, current).value.fields, keys[i..], value, NestedValue))) == goal
    {
      var key := keys[i];
      var here := At(result, current).value.fields;
      assert keys[i..][0] == key && keys[i..][1..] == keys[i + 1..];
      if key == "" {
        continue;
      }
      var child := Lookup(here, key);
      var next := if child.None? || TypeOf(child.value) != "object" then [] else SpreadFields(child.value);
      CursorStep(result, current, key, here, next, JObj(SetPath(next, keys[i + 1..], value, NestedValue)));
      result := SetAt(result, current, JObj(Put(here, key, JObj(next))));
      current := current + [key];
    }
    var lastKey := keys[|keys| - 1];
    var here := At(result, current).value.fields;
    assert keys[|keys| - 1..] == [lastKey];
    if lastKey != "" {
      result := SetAt(result, current, JObj(Put(here, lastKey, value)));
    } else {
      SetAtSame(result, current);
    }
  }

  /** `removeNestedValue(obj, path)`: a copy of `obj` without the last key
      of `path`; an empty or missing intermediate key ends the walk with
      the copy made so far. */
  method RemoveNestedValue(obj: Json, path: string) returns (result: Json)
    ensures result == JObj(RemovePath(SpreadFields(obj), Split(path, '.')))
  {
    result := RemoveAlong(obj, Split(path, '.'));
  }

  // ---------------------------------------------------------------------
  // Per-axis mappings

  /** The mappings and suggestions pushed so far. */
  datatype Journal = Journal(mappings: seq<LegacyMapping>, suggestions: seq<Suggestion>)

  /** An axis copy being rewritten, with the journal. */
  datatype Moving = Moving(obj: seq<Field>, journal: Journal)

  /** `mapping.newPath.replace(section + '.', '')`. */
  function SectionField(m: LegacyMapping, section: string): string
  {
    ReplaceFirst(m.newPath, section + ".", "")
  }

  /** A section that fields can be moved into: missing or falsy (it is
      replaced by `{}`), or an object. */
  predicate Writable(o: Option<Json>)
  {
    !Present(o) || o.value.JObj?
  }

  /** The fields of the section, as far as one can move fields into it. */
  function SectionOf(fs: seq<Field>, section: string): seq<Field>
  {
    var o := Lookup(fs, section);
    if o.Some? && o.value.JObj? then o.value.fields else []
  }

  /** `if (!t[section]) t[section] = {}; t[section][field] = v`. A truthy
      section that is not an object is left as it is. */
  function AssignUnder(fs: seq<Field>, section: string, field: string, v: Json): (r: seq<Field>)
    ensures Writable(Lookup(fs, section)) ==> Lookup(r, section) == Some(JObj(Put(SectionOf(fs, section), field, v)))
  {
    var s := Lookup(fs, section);
    var fs1 := if Present(s) then fs else Put(fs, section, EmptyObj);
    var target := if Present(s) then s.value else EmptyObj;
    if target.JObj? then
      LookupPut(fs1, section, JObj(Put(target.fields, field, v)), section);
      Put(fs1, section, JObj(Put(target.fields, field, v)))
    else fs1
  }

  /** The suggestion recorded for a field moved into `section`. */
  function MoveNote(m: LegacyMapping, section: string): Suggestion
  {
    Suggestion(Info, m.description, None, Some([section, SectionField(m, section)]))
  }

  /** One iteration of a section loop: move `oldPath` into `section`. */
  function MoveStep(st: Moving, m: LegacyMapping, section: string): Moving
  {
    var v := Lookup(st.obj, m.oldPath);
    if v.None? then st
    else
      Moving(AssignUnder(Remove(st.obj, m.oldPath), section, SectionField(m, section), v.value),
             Journal(st.journal.mappings + [m], st.journal.suggestions + [MoveNote(m, section)]))
  }

  /** The whole loop over `ms`. */
  function MoveAll(st: Moving, ms: seq<LegacyMapping>, section: string): Moving
    decreases |ms|
  {
    if ms == [] then st else MoveStep(MoveAll(st, ms[..|ms| - 1], section), ms[|ms| - 1], section)
  }

  function OldPaths(ms: seq<LegacyMapping>): (r: seq<string>)
    ensures |r| == |ms| && forall i :: 0 <= i < |ms| ==> r[i] == ms[i].oldPath
  {
    seq(|ms|, i requires 0 <= i < |ms| => ms[i].oldPath)
  }

  predicate DistinctOld(ms: seq<LegacyMapping>)
  {
    forall i, j :: 0 <= i < j < |ms| ==> ms[i].oldPath != ms[j].oldPath
  }

  /** The mappings of `ms` whose old field `obj` has, in order. */
  function Defined(obj: seq<Field>, ms: seq<LegacyMapping>): (r: seq<LegacyMapping>)
    decreases |ms|
  {
    if ms == [] then []
    else Defined(obj, ms[..|ms| - 1]) + (if Lookup(obj, ms[|ms| - 1].oldPath).Some? then [ms[|ms| - 1]] else [])
  }

  function Notes(ms: seq<LegacyMapping>, section: string): (r: seq<Suggestion>)
    ensures |r| == |ms| && forall i :: 0 <= i < |ms| ==> r[i] == MoveNote(ms[i], section)
  {
    seq(|ms|, i requires 0 <= i < |ms| => MoveNote(ms[i], section))
  }

  /** What `section[g]` holds after the loop: the value of the last mapping
      into `g` whose old field was there, else what the section had. */
  function Gathered(obj: seq<Field>, ms: seq<LegacyMapping>, section: string, g: string): Option<Json>
    decreases |ms|
  {
    if ms == [] then Lookup(SectionOf(obj, section), g)
    else
      var m := ms[|ms| - 1];
      if SectionField(m, section) == g && Lookup(obj, m.oldPath).Some? then Lookup(obj, m.oldPath)
      else Gathered(obj, ms[..|ms| - 1], section, g)
  }

  /** Off the section, a loop deletes the old fields and keeps the rest. */
  lemma {:induction false} MoveAllFrame(st: Moving, ms: seq<LegacyMapping>, section: string, k: string)
    requires k != section
    ensures Lookup(MoveAll(st, ms, section).obj, k) == if k in OldPaths(ms) then None else Lookup(st.obj, k)
    decreases |ms|
  {
    if ms != [] {
      var init := ms[..|ms| - 1];
      var m := ms[|ms| - 1];
      var prev := MoveAll(st, init, section);
      MoveAllFrame(st, init, section, k);
      assert OldPaths(ms) == OldPaths(init) + [m.oldPath];
      if Lookup(prev.obj, m.oldPath).Some? {
        LookupRemove(prev.obj, m.oldPath, k);
        AssignUnderOther(Remove(prev.obj, m.oldPath), section, SectionField(m, section), Lookup(prev.obj, m.oldPath).value, k);
      } else if k == m.oldPath {
        if k in OldPaths(init) {
        } else {
          assert Lookup(st.obj, k) == Lookup(prev.obj, k);
        }
      }
    }
  }

  lemma AssignUnderOther(fs: seq<Field>, section: string, field: string, v: Json, k: string)
    requires k != section
    ensures Lookup(AssignUnder(fs, section, field, v), k) == Lookup(fs, k)
  {
    var s := Lookup(fs, section);
    LookupPut(fs, section, EmptyObj, k);
    var fs1 := if Present(s) then fs else Put(fs, section, EmptyObj);
    var target := if Present(s) then s.value else EmptyObj;
    if target.JObj? {
      LookupPut(fs1, section, JObj(Put(target.fields, field, v)), k);
    }
  }

  lemma DistinctOldInit(ms: seq<LegacyMapping>)
    requires ms != [] && DistinctOld(ms)
    ensures DistinctOld(ms[..|ms| - 1])
    ensures ms[|ms| - 1].oldPath !in OldPaths(ms[..|ms| - 1])
    ensures OldPaths(ms) == OldPaths(ms[..|ms| - 1]) + [ms[|ms| - 1].oldPath]
  {
  }

  /** A loop records exactly the mappings whose old field was there, each
      with its suggestion, in the order of `ms`. */
  lemma {:induction false} MoveAllJournal(st: Moving, ms: seq<LegacyMapping>, section: string)
    requires DistinctOld(ms) && section !in OldPaths(ms)
    ensures MoveAll(st, ms, section).journal
            == Journal(st.journal.mappings + Defined(st.obj, ms),
                       st.journal.suggestions + Notes(Defined(st.obj, ms), section))
    decreases |ms|
  {
    if ms != [] {
      var init := ms[..|ms| - 1];
      var m := ms[|ms| - 1];
      DistinctOldInit(ms);
      MoveAllJournal(st, init, section);
      MoveAllFrame(st, init, section, m.oldPath);
      var prev := MoveAll(st, init, section);
      var d := Defined(st.obj, init);
      if Lookup(st.obj, m.oldPath).Some? {
        NotesSnoc(d, m, section);
        assert st.journal.mappings + d + [m] == st.journal.mappings + (d + [m]);
        assert st.journal.suggestions + Notes(d, section) + [MoveNote(m, section)]
               == st.journal.suggestions + (Notes(d, section) + [MoveNote(m, section)]);
      }
    }
  }

  lemma NotesSnoc(d: seq<LegacyMapping>, m: LegacyMapping, section: string)
    ensures Notes(d + [m], section) == Notes(d, section) + [MoveNote(m, section)]
  {
  }

  /** Into a section that can take them, a loop moves every old field's
      value; keys of the section that no mapping targets keep their values. */
  lemma {:induction false} MoveAllSection(st: Moving, ms: seq<LegacyMapping>, section: string, g: string)
    requires DistinctOld(ms) && section !in OldPaths(ms) && Writable(Lookup(st.obj, section))
    ensures Writable(Lookup(MoveAll(st, ms, section).obj, section))
    ensures Lookup(SectionOf(MoveAll(st, ms, section).obj, section), g) == Gathered(st.obj, ms, section, g)
    decreases |ms|
  {
    if ms != [] {
      var init := ms[..|ms| - 1];
      var m := ms[|ms| - 1];
      var prev := MoveAll(st, init, section);
      assert OldPaths(ms) == OldPaths(init) + [m.oldPath];
      assert MoveAll(st, ms, section) == MoveStep(prev, m, section);
      MoveAllSection(st, init, section, g);
      MoveAllFrame(st, init, section, m.oldPath);
      assert m.oldPath !in OldPaths(init) by {
        assert forall i :: 0 <= i < |init| ==> init[i] == ms[i];
      }
      MoveStepSection(prev, m, section, g);
    }
  }

  /** One move into a section that can take it: the section stays an
      object and the target key gets the old field's value, if any. */
  lemma MoveStepSection(prev: Moving, m: LegacyMapping, section: string, g: string)
    requires section != m.oldPath && Writable(Lookup(prev.obj, section))
    ensures var next := MoveStep(prev, m, section);
            Writable(Lookup(next.obj, section))
            && Lookup(SectionOf(next.obj, section), g)
               == if SectionField(m, section) == g && Lookup(prev.obj, m.oldPath).Some? then Lookup(prev.obj, m.oldPath)
                  else Lookup(SectionOf(prev.obj, section), g)
  {
    var v := Lookup(prev.obj, m.oldPath);
    if v.Some? {
      var removed := Remove(prev.obj, m.oldPath);
      LookupRemove(prev.obj, m.oldPath, section);
      var f := SectionField(m, section);
      assert Lookup(AssignUnder(removed, section, f, v.value), section) == Some(JObj(Put(SectionOf(removed, section), f, v.value)));
      LookupPut(SectionOf(removed, section), f, v.value, g);
    }
  }

  predicate DistinctFields(ms: seq<LegacyMapping>, section: string)
  {
    forall i, j :: 0 <= i < j < |ms| ==> SectionField(ms[i], section) != SectionField(ms[j], section)
  }

  /** When no two mappings target the same key, each target key ends up
      with its old field's value, if there was one. */
  lemma {:induction false} GatheredTarget(obj: seq<Field>, ms: seq<LegacyMapping>, section: string, i: nat)
    requires i < |ms| && DistinctFields(ms, section)
    ensures Gathered(obj, ms, section, SectionField(ms[i], section))
            == if Lookup(obj, ms[i].oldPath).Some? then Lookup(obj, ms[i].oldPath)
               else Lookup(SectionOf(obj, section), SectionField(ms[i], section))
    decreases |ms|
  {
    var init := ms[..|ms| - 1];
    if i < |ms| - 1 {
      assert init[i] == ms[i];
      assert DistinctFields(init, section);
      GatheredTarget(obj, init, section, i);
    } else if Lookup(obj, ms[i].oldPath).None? {
      GatheredUntargeted(obj, init, section, SectionField(ms[i], section));
    }
  }

  /** A key that no mapping targets keeps its value. */
  lemma {:induction false} GatheredUntargeted(obj: seq<Field>, ms: seq<LegacyMapping>, section: string, g: string)
    requires forall j :: 0 <= j < |ms| ==> SectionField(ms[j], section) != g
    ensures Gathered(obj, ms, section, g) == Lookup(SectionOf(obj, section), g)
    decreases |ms|
  {
    if ms != [] {
      GatheredUntargeted(obj, ms[..|ms| - 1], section, g);
    }
  }

  lemma {:induction false} WithPrefixAll(ms: seq<LegacyMapping>, prefix: string)
    requires forall i :: 0 <= i < |ms| ==> StartsWith(ms[i].newPath, prefix)
    ensures WithPrefix(ms, prefix) == ms
    decreases |ms|
  {
    if ms != [] {
      WithPrefixAll(ms[1..], prefix);
    }
  }

  lemma {:induction false} WithPrefixNone(ms: seq<LegacyMapping>, prefix: string)
    requires forall i :: 0 <= i < |ms| ==> !StartsWith(ms[i].newPath, prefix)
    ensures WithPrefix(ms, prefix) == []
    decreases |ms|
  {
    if ms != [] {
      WithPrefixNone(ms[1..], prefix);
    }
  }

  lemma StartsWithConcat(p: string, r: string)
    ensures StartsWith(p + r, p)
  {
    assert (p + r)[..|p|] == p;
  }

  lemma DiffersAt(s: string, p: string, k: nat)
    requires k < |s| && k < |p| && s[k] != p[k]
    ensures !StartsWith(s, p)
  {
    if |p| <= |s| {
      assert s[..|p|][k] == s[k];
    }
  }

  /** No global mapping targets `motor0.` or `homing.`. */
  lemma GlobalTargets()
    ensures forall i :: 0 <= i < |GlobalLegacyMappings| ==>
              !StartsWith(GlobalLegacyMappings[i].newPath, "motor0.") && !StartsWith(GlobalLegacyMappings[i].newPath, "homing.")
  {
    var g := GlobalLegacyMappings;
    DiffersAt(g[0].newPath, "motor0.", 1);
    DiffersAt(g[0].newPath, "homing.", 0);
    DiffersAt(g[1].newPath, "motor0.", 0);
    DiffersAt(g[1].newPath, "homing.", 0);
    DiffersAt(g[2].newPath, "motor0.", 0);
    DiffersAt(g[2].newPath, "homing.", 0);
    DiffersAt(g[3].newPath, "motor0.", 0);
    DiffersAt(g[3].newPath, "homing.", 0);
    DiffersAt(g[4].newPath, "motor0.", 0);
    DiffersAt(g[4].newPath, "homing.", 0);
  }

  /** Every motor mapping targets `motor0.` and none targets `homing.`. */
  lemma MotorTargets()
    ensures forall i :: 0 <= i < |MotorLegacyMappings| ==>
              StartsWith(MotorLegacyMappings[i].newPath, "motor0.") && !StartsWith(MotorLegacyMappings[i].newPath, "homing.")
  {
    SectionRows();
    forall i | 0 <= i < 6
      ensures StartsWith(MotorLegacyMappings[i].newPath, "motor0.") && !StartsWith(MotorLegacyMappings[i].newPath, "homing.")
    {
      StartsWithConcat("motor0.", MotorFields[i]);
      DiffersAt(MotorLegacyMappings[i].newPath, "homing.", 0);
    }
  }

  /** Every homing mapping targets `homing.` and none targets `motor0.`. */
  lemma HomingTargets()
    ensures forall i :: 0 <= i < |HomingLegacyMappings| ==>
              StartsWith(HomingLegacyMappings[i].newPath, "homing.") && !StartsWith(HomingLegacyMappings[i].newPath, "motor0.")
  {
    SectionRows();
    forall i | 0 <= i < 2
      ensures StartsWith(HomingLegacyMappings[i].newPath, "homing.") && !StartsWith(HomingLegacyMappings[i].newPath, "motor0.")
    {
      StartsWithConcat("homing.", HomingFields[i]);
      DiffersAt(HomingLegacyMappings[i].newPath, "motor0.", 0);
    }
  }

  /** The mappings the motor loop selects. */
  lemma MotorSelection()
    ensures WithPrefix(LegacyMappings, "motor0.") == MotorLegacyMappings
  {
    MotorTargets();
    HomingTargets();
    GlobalTargets();
    WithPrefixAll(MotorLegacyMappings, "motor0.");
    WithPrefixNone(HomingLegacyMappings, "motor0.");
    WithPrefixNone(GlobalLegacyMappings, "motor0.");
    WithPrefixConcat(MotorLegacyMappings, HomingLegacyMappings, "motor0.");
    WithPrefixConcat(MotorLegacyMappings + HomingLegacyMappings, GlobalLegacyMappings, "motor0.");
  }

  /** The mappings the homing loop selects. */
  lemma HomingSelection()
    ensures WithPrefix(LegacyMappings, "homing.") == HomingLegacyMappings
  {
    MotorTargets();
    HomingTargets();
    GlobalTargets();
    WithPrefixNone(MotorLegacyMappings, "homing.");
    WithPrefixAll(HomingLegacyMappings, "homing.");
    WithPrefixNone(GlobalLegacyMappings, "homing.");
    WithPrefixConcat(MotorLegacyMappings, HomingLegacyMappings, "homing.");
    WithPrefixConcat(MotorLegacyMappings + HomingLegacyMappings, GlobalLegacyMappings, "homing.");
  }

  predicate Distinct(xs: seq<string>)
  {
    forall i, j :: 0 <= i < j < |xs| ==> xs[i] != xs[j]
  }

  /** A table built from columns moves `olds[i]` to `fields[i]` of the section. */
  lemma ColumnsTargets(olds: seq<string>, section: string, fields: seq<string>, descriptions: seq<string>)
    requires |olds| == |fields| == |descriptions|
    ensures var t := Columns(olds, section + ".", fields, descriptions);
            OldPaths(t) == olds
            && forall i :: 0 <= i < |t| ==> SectionField(t[i], section) == fields[i]
  {
    ColumnsAt(olds, section + ".", fields, descriptions);
    var t := Columns(olds, section + ".", fields, descriptions);
    forall i | 0 <= i < |t| ensures SectionField(t[i], section) == fields[i] {
      ReplaceFirstOfPrefix(section + ".", fields[i], "");
    }
  }

  lemma ColumnsDistinct(olds: seq<string>, section: string, fields: seq<string>, descriptions: seq<string>)
    requires |olds| == |fields| == |descriptions| && Distinct(olds) && Distinct(fields)
    ensures DistinctOld(Columns(olds, section + ".", fields, descriptions))
    ensures DistinctFields(Columns(olds, section + ".", fields, descriptions), section)
  {
    ColumnsTargets(olds, section, fields, descriptions);
  }

  /** The motor loop moves distinct old fields to distinct keys. */
  lemma MotorTable()
    ensures DistinctOld(MotorLegacyMappings) && DistinctFields(MotorLegacyMappings, "motor0")
    ensures OldPaths(MotorLegacyMappings) == MotorOldFields
  {
    assert "motor0" + "." == "motor0.";
    assert Distinct(MotorOldFields);
    assert Distinct(MotorFields);
    ColumnsDistinct(MotorOldFields, "motor0", MotorFields, MotorDescriptions);
    ColumnsTargets(MotorOldFields, "motor0", MotorFields, MotorDescriptions);
  }

  /** The homing loop moves distinct old fields to distinct keys. */
  lemma HomingTable()
    ensures DistinctOld(HomingLegacyMappings) && DistinctFields(HomingLegacyMappings, "homing")
    ensures OldPaths(HomingLegacyMappings) == HomingOldFields
  {
    assert "homing" + "." == "homing.";
    assert Distinct(HomingOldFields) && Distinct(HomingFields);
    ColumnsDistinct(HomingOldFields, "homing", HomingFields, HomingDescriptions);
    ColumnsTargets(HomingOldFields, "homing", HomingFields, HomingDescriptions);
  }

  /** No old field is a section, and the two loops share no old field. */
  lemma SectionsApart()
    ensures "motor0" !in MotorOldFields && "homing" !in MotorOldFields
    ensures "motor0" !in HomingOldFields && "homing" !in HomingOldFields
    ensures forall k :: k in HomingOldFields ==> k !in MotorOldFields
  {
  }

  /** The facts the section lemmas need of both tables. */
  lemma SectionTables()
    ensures DistinctOld(MotorLegacyMappings) && DistinctFields(MotorLegacyMappings, "motor0")
    ensures DistinctOld(HomingLegacyMappings) && DistinctFields(HomingLegacyMappings, "homing")
    ensures OldPaths(MotorLegacyMappings) == MotorOldFields && OldPaths(HomingLegacyMappings) == HomingOldFields
    ensures "motor0" !in MotorOldFields && "homing" !in MotorOldFields
    ensures "motor0" !in HomingOldFields && "homing" !in HomingOldFields
    ensures forall k :: k in HomingOldFields ==> k !in MotorOldFields
  {
    MotorTable();
    HomingTable();
    SectionsApart();
  }

  /** The keys the motor and homing loops target. */
  lemma SectionTargets()
    ensures forall i :: 0 <= i < 6 ==> SectionField(MotorLegacyMappings[i], "motor0") == MotorFields[i]
    ensures forall i :: 0 <= i < 2 ==> SectionField(HomingLegacyMappings[i], "homing") == HomingFields[i]
  {
    assert "motor0" + "." == "motor0." && "homing" + "." == "homing.";
    ColumnsTargets(MotorOldFields, "motor0", MotorFields, MotorDescriptions);
    ColumnsTargets(HomingOldFields, "homing", HomingFields, HomingDescriptions);
  }

  lemma {:induction false} WithPrefixConcat(a: seq<LegacyMapping>, b: seq<LegacyMapping>, prefix: string)
    ensures WithPrefix(a + b, prefix) == WithPrefix(a, prefix) + WithPrefix(b, prefix)
    decreases |a|
  {
    if a != [] {
      assert (a + b)[1..] == a[1..] + b;
      WithPrefixConcat(a[1..], b, prefix);
    } else {
      assert a + b == b;
    }
  }

  /** The mappings the TMC branches push; they equal the table's entries. */
  const Tmc2130Fallback: LegacyMapping := LegacyMapping("tmc2130", "motor0.tmc_2130", "TMC2130 configuration moved to motor0.tmc_2130")
  const Tmc2209Fallback: LegacyMapping := LegacyMapping("tmc2209", "motor0.tmc_2209", "TMC2209 configuration moved to motor0.tmc_2209")

  /** `if (t[key]) { t.motor0 ??= {}; t.motor0[field] = t[key]; delete t[key]; mappings.push(m) }`. */
  function TmcFallback(st: Moving, key: string, field: string, m: LegacyMapping): Moving
  {
    var v := Lookup(st.obj, key);
    if Present(v) then
      Moving(Remove(AssignUnder(st.obj, "motor0", field, v.value), key),
             Journal(st.journal.mappings + [m], st.journal.suggestions))
    else st
  }

  /** Both loops of an axis: the motor mappings, then the homing mappings
      (the tables `LEGACY_MAPPINGS` filtered by prefix, as `MotorSelection`
      and `HomingSelection` show). */
  function SectionLoops(axis: seq<Field>, j: Journal): Moving
  {
    MoveAll(MoveAll(Moving(axis, j), MotorLegacyMappings, "motor0"), HomingLegacyMappings, "homing")
  }

  /** `applyAxisLegacyMappings` on the copy `axis` of one axis. */
  function ApplyAxis(axis: seq<Field>, j: Journal): Moving
  {
    TmcFallback(TmcFallback(SectionLoops(axis, j), "tmc2130", "tmc_2130", Tmc2130Fallback),
                "tmc2209", "tmc_2209", Tmc2209Fallback)
  }

  /** One loop of `applyAxisLegacyMappings`, over the mappings `ms` into `section`. */
  method MoveSection(transformed: seq<Field>, mappings: seq<LegacyMapping>, suggestions: seq<Suggestion>,
                     ms: seq<LegacyMapping>, section: string)
    returns (transformed': seq<Field>, mappings': seq<LegacyMapping>, suggestions': seq<Suggestion>)
    ensures Moving(transformed', Journal(mappings', suggestions'))
            == MoveAll(Moving(transformed, Journal(mappings, suggestions)), ms, section)
  {
    transformed', mappings', suggestions' := transformed, mappings, suggestions;
    for i := 0 to |ms|
      invariant Moving(transformed', Journal(mappings', suggestions'))
                == MoveAll(Moving(transformed, Journal(mappings, suggestions)), ms[..i], section)
    {
      assert ms[..i + 1][..i] == ms[..i];
      var mapping := ms[i];
      var value := Lookup(transformed', mapping.oldPath);
      if value.Some? {
        transformed' := Remove(transformed', mapping.oldPath);
        var field := ReplaceFirst(mapping.newPath, section + ".", "");
        transformed' := AssignUnder(transformed', section, field, value.value);
        mappings' := mappings' + [mapping];
        suggestions' := suggestions' + [Suggestion(Info, mapping.description, None, Some([section, field]))];
      }
    }
    assert ms[..|ms|] == ms;
  }

  /** `applyAxisLegacyMappings(axisConfig, mappings, suggestions)`: the
      rewritten copy, and the journal with this axis's entries appended. */
  method ApplyAxisLegacyMappings(axisConfig: Json, mappings: seq<LegacyMapping>, suggestions: seq<Suggestion>)
    returns (transformed: seq<Field>, mappings': seq<LegacyMapping>, suggestions': seq<Suggestion>)
    ensures Moving(transformed, Journal(mappings', suggestions')) == ApplyAxis(SpreadFields(axisConfig), Journal(mappings, suggestions))
  {
    transformed := SpreadFields(axisConfig);
    var motorMappings := WithPrefix(LegacyMappings, "motor0.");
    MotorSelection();
    transformed, mappings', suggestions' := MoveSection(transformed, mappings, suggestions, motorMappings, "motor0");
    var homingMappings := WithPrefix(LegacyMappings, "homing.");
    HomingSelection();
    transformed, mappings', suggestions' := MoveSection(transformed, mappings', suggestions', homingMappings, "homing");
    var tmc2130 := Lookup(transformed, "tmc2130");
    if Present(tmc2130) {
      transformed := Remove(AssignUnder(transformed, "motor0", "tmc_2130", tmc2130.value), "tmc2130");
      mappings' := mappings' + [Tmc2130Fallback];
    }
    var tmc2209 := Lookup(transformed, "tmc2209");
    if Present(tmc2209) {
      transformed := Remove(AssignUnder(transformed, "motor0", "tmc_2209", tmc2209.value), "tmc2209");
      mappings' := mappings' + [Tmc2209Fallback];
    }
  }

  /** The TMC branches never fire: the motor loop has already deleted
      `tmc2130` and `tmc2209`, whatever their values. */
  lemma TmcBranchesAreDead(axis: seq<Field>, j: Journal)
    ensures ApplyAxis(axis, j) == SectionLoops(axis, j)
    ensures Lookup(ApplyAxis(axis, j).obj, "tmc2130").None? && Lookup(ApplyAxis(axis, j).obj, "tmc2209").None?
  {
    SectionTables();
    var moved := MoveAll(Moving(axis, j), MotorLegacyMappings, "motor0");
    MoveAllFrame(Moving(axis, j), MotorLegacyMappings, "motor0", "tmc2130");
    MoveAllFrame(Moving(axis, j), MotorLegacyMappings, "motor0", "tmc2209");
    assert "tmc2130" == MotorOldFields[4] && "tmc2209" == MotorOldFields[5];
    MoveAllFrame(moved, HomingLegacyMappings, "homing", "tmc2130");
    MoveAllFrame(moved, HomingLegacyMappings, "homing", "tmc2209");
  }

  lemma {:induction false} DefinedSame(a: seq<Field>, b: seq<Field>, ms: seq<LegacyMapping>)
    requires forall i :: 0 <= i < |ms| ==> Lookup(a, ms[i].oldPath) == Lookup(b, ms[i].oldPath)
    ensures Defined(a, ms) == Defined(b, ms)
    decreases |ms|
  {
    if ms != [] {
      DefinedSame(a, b, ms[..|ms| - 1]);
    }
  }

  /** The motor loop leaves the homing loop's inputs alone. */
  lemma MotorLoopFrame(axis: seq<Field>, j: Journal, k: string)
    requires k == "homing" || k in HomingOldFields
    ensures Lookup(MoveAll(Moving(axis, j), MotorLegacyMappings, "motor0").obj, k) == Lookup(axis, k)
  {
    SectionTables();
    MoveAllFrame(Moving(axis, j), MotorLegacyMappings, "motor0", k);
  }

  /** An axis records, in order, the motor mappings and then the homing
      mappings whose old field it has, each with its info suggestion; the
      TMC branches add nothing. */
  lemma ApplyAxisJournal(axis: seq<Field>, j: Journal)
    ensures ApplyAxis(axis, j).journal
            == Journal(j.mappings + Defined(axis, MotorLegacyMappings) + Defined(axis, HomingLegacyMappings),
                       j.suggestions + Notes(Defined(axis, MotorLegacyMappings), "motor0")
                                     + Notes(Defined(axis, HomingLegacyMappings), "homing"))
  {
    TmcBranchesAreDead(axis, j);
    SectionTables();
    var moved := MoveAll(Moving(axis, j), MotorLegacyMappings, "motor0");
    MoveAllJournal(Moving(axis, j), MotorLegacyMappings, "motor0");
    MoveAllJournal(moved, HomingLegacyMappings, "homing");
    forall i | 0 <= i < |HomingLegacyMappings|
      ensures Lookup(moved.obj, HomingLegacyMappings[i].oldPath) == Lookup(axis, HomingLegacyMappings[i].oldPath)
    {
      assert HomingLegacyMappings[i].oldPath == OldPaths(HomingLegacyMappings)[i];
      MotorLoopFrame(axis, j, HomingLegacyMappings[i].oldPath);
    }
    DefinedSame(moved.obj, axis, HomingLegacyMappings);
  }

  /** Every legacy field is gone from the axis; every other key but the two
      sections keeps its value. */
  lemma ApplyAxisFields(axis: seq<Field>, j: Journal, k: string)
    ensures k in MotorOldFields || k in HomingOldFields ==> Lookup(ApplyAxis(axis, j).obj, k).None?
    ensures k !in MotorOldFields && k !in HomingOldFields && k != "motor0" && k != "homing"
            ==> Lookup(ApplyAxis(axis, j).obj, k) == Lookup(axis, k)
  {
    TmcBranchesAreDead(axis, j);
    SectionTables();
    var moved := MoveAll(Moving(axis, j), MotorLegacyMappings, "motor0");
    if k != "motor0" && k != "homing" {
      MoveAllFrame(Moving(axis, j), MotorLegacyMappings, "motor0", k);
      MoveAllFrame(moved, HomingLegacyMappings, "homing", k);
    }
  }

  /** A loop over distinct old fields and distinct targets delivers each
      old field's value to its target key. */
  lemma MoveAllDelivers(st: Moving, ms: seq<LegacyMapping>, section: string, i: nat)
    requires i < |ms| && DistinctOld(ms) && DistinctFields(ms, section) && section !in OldPaths(ms)
    requires Writable(Lookup(st.obj, section))
    ensures Writable(Lookup(MoveAll(st, ms, section).obj, section))
    ensures Lookup(SectionOf(MoveAll(st, ms, section).obj, section), SectionField(ms[i], section))
            == if Lookup(st.obj, ms[i].oldPath).Some? then Lookup(st.obj, ms[i].oldPath)
               else Lookup(SectionOf(st.obj, section), SectionField(ms[i], section))
  {
    MoveAllSection(st, ms, section, SectionField(ms[i], section));
    GatheredTarget(st.obj, ms, section, i);
  }

  /** When the axis's `motor0` is missing, falsy or an object, each motor
      key holds the value of its legacy field if the axis had one, and
      keeps its value otherwise. */
  lemma ApplyAxisMotor(axis: seq<Field>, j: Journal, i: nat)
    requires i < 6 && Writable(Lookup(axis, "motor0"))
    ensures Writable(Lookup(ApplyAxis(axis, j).obj, "motor0"))
    ensures Lookup(SectionOf(ApplyAxis(axis, j).obj, "motor0"), MotorFields[i])
            == if Lookup(axis, MotorOldFields[i]).Some? then Lookup(axis, MotorOldFields[i])
               else Lookup(SectionOf(axis, "motor0"), MotorFields[i])
  {
    TmcBranchesAreDead(axis, j);
    SectionTables();
    SectionTargets();
    var moved := MoveAll(Moving(axis, j), MotorLegacyMappings, "motor0");
    assert MotorLegacyMappings[i].oldPath == MotorOldFields[i];
    MoveAllDelivers(Moving(axis, j), MotorLegacyMappings, "motor0", i);
    MoveAllFrame(moved, HomingLegacyMappings, "homing", "motor0");
  }

  /** A second loop delivers its fields through a first loop that does
      not touch them. */
  lemma SecondLoopDelivers(st: Moving, ms1: seq<LegacyMapping>, s1: string, ms2: seq<LegacyMapping>, s2: string, i: nat)
    requires i < |ms2| && DistinctOld(ms2) && DistinctFields(ms2, s2) && s2 !in OldPaths(ms2)
    requires s2 != s1 && s2 !in OldPaths(ms1) && ms2[i].oldPath != s1 && ms2[i].oldPath !in OldPaths(ms1)
    requires Writable(Lookup(st.obj, s2))
    ensures Writable(Lookup(MoveAll(MoveAll(st, ms1, s1), ms2, s2).obj, s2))
    ensures Lookup(SectionOf(MoveAll(MoveAll(st, ms1, s1), ms2, s2).obj, s2), SectionField(ms2[i], s2))
            == if Lookup(st.obj, ms2[i].oldPath).Some? then Lookup(st.obj, ms2[i].oldPath)
               else Lookup(SectionOf(st.obj, s2), SectionField(ms2[i], s2))
  {
    var moved := MoveAll(st, ms1, s1);
    MoveAllFrame(st, ms1, s1, s2);
    MoveAllFrame(st, ms1, s1, ms2[i].oldPath);
    assert SectionOf(moved.obj, s2) == SectionOf(st.obj, s2);
    MoveAllDelivers(moved, ms2, s2, i);
  }

  /** The homing key `HomingFields[i]` after both loops. */
  lemma SectionLoopsHoming(axis: seq<Field>, j: Journal, i: nat)
    requires i < 2 && Writable(Lookup(axis, "homing"))
    ensures Writable(Lookup(SectionLoops(axis, j).obj, "homing"))
    ensures Lookup(SectionOf(SectionLoops(axis, j).obj, "homing"), HomingFields[i])
            == if Lookup(axis, HomingOldFields[i]).Some? then Lookup(axis, HomingOldFields[i])
               else Lookup(SectionOf(axis, "homing"), HomingFields[i])
  {
    SectionTables();
    SectionTargets();
    assert HomingLegacyMappings[i].oldPath == HomingOldFields[i] && HomingOldFields[i] in HomingOldFields;
    SecondLoopDelivers(Moving(axis, j), MotorLegacyMappings, "motor0", HomingLegacyMappings, "homing", i);
  }

  /** When the axis's `homing` is missing, falsy or an object, each homing
      key holds the value of its legacy field if the axis had one, and
      keeps its value otherwise. */
  lemma ApplyAxisHoming(axis: seq<Field>, j: Journal, i: nat)
    requires i < 2 && Writable(Lookup(axis, "homing"))
    ensures Writable(Lookup(ApplyAxis(axis, j).obj, "homing"))
    ensures Lookup(SectionOf(ApplyAxis(axis, j).obj, "homing"), HomingFields[i])
            == if Lookup(axis, HomingOldFields[i]).Some? then Lookup(axis, HomingOldFields[i])
               else Lookup(SectionOf(axis, "homing"), HomingFields[i])
  {
    TmcBranchesAreDead(axis, j);
    SectionLoopsHoming(axis, j, i);
  }

  // ---------------------------------------------------------------------
  // Where the source throws

  /** Whether `t[section][field] = v` throws: a truthy section that is
      neither an object nor an array (a string, a number or `true`) takes no
      property in strict-mode code, so the assignment raises a TypeError.
      `AssignUnder` leaves such a section as it is. */
  predicate AssignThrows(fs: seq<Field>, section: string)
  {
    var s := Lookup(fs, section);
    Present(s) && !s.value.JObj? && !s.value.JArr?
  }

  /** Whether a section loop reaches such an assignment. */
  predicate MoveAllThrows(st: Moving, ms: seq<LegacyMapping>, section: string)
    decreases |ms|
  {
    ms != [] &&
    (MoveAllThrows(st, ms[..|ms| - 1], section)
     || (Lookup(MoveAll(st, ms[..|ms| - 1], section).obj, ms[|ms| - 1].oldPath).Some?
         && AssignThrows(MoveAll(st, ms[..|ms| - 1], section).obj, section)))
  }

  /** One move neither creates nor removes a section that makes it throw. */
  lemma MoveStepKeepsThrows(prev: Moving, m: LegacyMapping, section: string)
    requires section != m.oldPath
    ensures AssignThrows(MoveStep(prev, m, section).obj, section) == AssignThrows(prev.obj, section)
  {
    var v := Lookup(prev.obj, m.oldPath);
    if v.Some? {
      LookupRemove(prev.obj, m.oldPath, section);
      var removed := Remove(prev.obj, m.oldPath);
      var s := Lookup(removed, section);
      if !Present(s) {
        LookupPut(removed, section, EmptyObj, section);
      }
    }
  }

  lemma {:induction false} MoveAllKeepsThrows(st: Moving, ms: seq<LegacyMapping>, section: string)
    requires section !in OldPaths(ms)
    ensures AssignThrows(MoveAll(st, ms, section).obj, section) == AssignThrows(st.obj, section)
    decreases |ms|
  {
    if ms != [] {
      var init := ms[..|ms| - 1];
      assert OldPaths(ms) == OldPaths(init) + [ms[|ms| - 1].oldPath];
      MoveAllKeepsThrows(st, init, section);
      MoveStepKeepsThrows(MoveAll(st, init, section), ms[|ms| - 1], section);
    }
  }

  /** A section loop throws exactly when the section is truthy but not an
      object or array and one of the loop's old fields is present. */
  lemma {:induction false} MoveAllThrowsIff(st: Moving, ms: seq<LegacyMapping>, section: string)
    requires DistinctOld(ms) && section !in OldPaths(ms)
    ensures MoveAllThrows(st, ms, section) <==> AssignThrows(st.obj, section) && Defined(st.obj, ms) != []
    decreases |ms|
  {
    if ms != [] {
      var init := ms[..|ms| - 1];
      var m := ms[|ms| - 1];
      DistinctOldInit(ms);
      MoveAllThrowsIff(st, init, section);
      MoveAllKeepsThrows(st, init, section);
      MoveAllFrame(st, init, section, m.oldPath);
    }
  }

  /** Whether `applyAxisLegacyMappings` throws on the copy `axis`: only the
      two section loops can, since the TMC branches never run. */
  predicate ApplyAxisThrows(axis: seq<Field>, j: Journal)
  {
    MoveAllThrows(Moving(axis, j), MotorLegacyMappings, "motor0")
    || MoveAllThrows(MoveAll(Moving(axis, j), MotorLegacyMappings, "motor0"), HomingLegacyMappings, "homing")
  }

  /** The source throws on an axis exactly when it has a legacy motor field
      and a truthy `motor0` that is not an object or array, or a legacy
      homing field and such a `homing`. */
  lemma ApplyAxisThrowsIff(axis: seq<Field>, j: Journal)
    ensures ApplyAxisThrows(axis, j)
            <==> (AssignThrows(axis, "motor0") && Defined(axis, MotorLegacyMappings) != [])
                 || (AssignThrows(axis, "homing") && Defined(axis, HomingLegacyMappings) != [])
  {
    SectionTables();
    var moved := MoveAll(Moving(axis, j), MotorLegacyMappings, "motor0");
    MoveAllThrowsIff(Moving(axis, j), MotorLegacyMappings, "motor0");
    MoveAllThrowsIff(moved, HomingLegacyMappings, "homing");
    MotorLoopFrame(axis, j, "homing");
    forall i | 0 <= i < |HomingLegacyMappings|
      ensures Lookup(moved.obj, HomingLegacyMappings[i].oldPath) == Lookup(axis, HomingLegacyMappings[i].oldPath)
    {
      assert HomingLegacyMappings[i].oldPath == OldPaths(HomingLegacyMappings)[i];
      MotorLoopFrame(axis, j, HomingLegacyMappings[i].oldPath);
    }
    DefinedSame(moved.obj, axis, HomingLegacyMappings);
  }

  // ---------------------------------------------------------------------
  // Flat axes

  const AxisNames: seq<string> := ["x", "y", "z", "a", "b", "c"]

  /** The nested section's key is not an axis name: every axis name is one
      letter long. */
  lemma AxesNotAnAxis()
    ensures "axes" !in AxisNames
  {
    assert forall i :: 0 <= i < |AxisNames| ==> |AxisNames[i]| == 1;
  }

  /** `config[name] && typeof config[name] === 'object'`: an object or an array. */
  predicate IsAxisObject(o: Option<Json>)
  {
    Present(o) && TypeOf(o.value) == "object"
  }

  /** The state of the loop of `ensureAxesStructure`: the copy with the
      flat axes deleted, the axes collected, and `hasAxes`. */
  datatype Flattened = Flattened(rest: seq<Field>, flat: seq<Field>, moved: bool)

  function FlattenAll(config: seq<Field>, names: seq<string>): Flattened
    decreases |names|
  {
    if names == [] then Flattened(config, [], false)
    else
      var f := FlattenAll(config, names[..|names| - 1]);
      var n := names[|names| - 1];
      if IsAxisObject(Lookup(config, n)) then Flattened(Remove(f.rest, n), Put(f.flat, n, Lookup(config, n).value), true)
      else f
  }

  /** The loop moves exactly the named keys holding objects. */
  lemma {:induction false} FlattenAllLookup(config: seq<Field>, names: seq<string>, k: string)
    ensures var f := FlattenAll(config, names);
            Lookup(f.rest, k) == (if k in names && IsAxisObject(Lookup(config, k)) then None else Lookup(config, k))
            && Lookup(f.flat, k) == (if k in names && IsAxisObject(Lookup(config, k)) then Lookup(config, k) else None)
    decreases |names|
  {
    if names != [] {
      var init := names[..|names| - 1];
      var n := names[|names| - 1];
      assert names == init + [n];
      var f := FlattenAll(config, init);
      FlattenAllLookup(config, init, k);
      if IsAxisObject(Lookup(config, n)) {
        LookupRemove(f.rest, n, k);
        LookupPut(f.flat, n, Lookup(config, n).value, k);
      }
    }
  }

  lemma {:induction false} FlattenAllDistinct(config: seq<Field>, names: seq<string>)
    ensures DistinctKeys(FlattenAll(config, names).flat)
    decreases |names|
  {
    if names != [] {
      var init := names[..|names| - 1];
      var n := names[|names| - 1];
      FlattenAllDistinct(config, init);
      if IsAxisObject(Lookup(config, n)) {
        DistinctPut(FlattenAll(config, init).flat, n, Lookup(config, n).value);
      }
    }
  }

  /** `hasAxes` is set exactly when some named key holds an object; when it
      is not, the copy is untouched. */
  lemma {:induction false} FlattenAllMoved(config: seq<Field>, names: seq<string>)
    ensures FlattenAll(config, names).moved <==> exists n :: n in names && IsAxisObject(Lookup(config, n))
    ensures !FlattenAll(config, names).moved ==> FlattenAll(config, names).rest == config
    decreases |names|
  {
    if names != [] {
      var init := names[..|names| - 1];
      var last := names[|names| - 1];
      assert names == init + [last];
      FlattenAllMoved(config, init);
      if FlattenAll(config, init).moved {
        var w :| w in init && IsAxisObject(Lookup(config, w));
        assert w in names;
      }
      if n :| n in names && IsAxisObject(Lookup(config, n)) {
        if n != last {
          assert n in init;
        }
      }
    }
  }

  const ConvertedNote: Suggestion :=
    Suggestion(Info, "Converted flat axis configuration to nested axes structure",
               Some("Flat axis fields (x, y, z) have been moved to axes.x, axes.y, axes.z"), None)

  /** The result of `ensureAxesStructure` and the suggestions after it. */
  datatype Ensured = Ensured(result: seq<Field>, suggestions: seq<Suggestion>)

  /** After the loop: `result.axes = { ...result.axes, ...flatAxes }` and
      the info suggestion, when `hasAxes`. */
  function Nest(f: Flattened, suggestions: seq<Suggestion>): Ensured
  {
    if f.moved then Ensured(Put(f.rest, "axes", JObj(Merge(SpreadOf(Lookup(f.rest, "axes")), f.flat))), suggestions + [ConvertedNote])
    else Ensured(f.rest, suggestions)
  }

  /** `ensureAxesStructure(config, suggestions)` on the fields of `config`. */
  function EnsureAxes(config: seq<Field>, suggestions: seq<Suggestion>): Ensured
  {
    Nest(FlattenAll(config, AxisNames), suggestions)
  }

  /** Some name holds an object. */
  predicate HasObjectAt(config: seq<Field>, names: seq<string>)
  {
    exists n :: n in names && IsAxisObject(Lookup(config, n))
  }

  /** Some axis name holds an object. */
  predicate HasFlatAxes(config: seq<Field>)
  {
    HasObjectAt(config, AxisNames)
  }

  lemma NestUnchanged(config: seq<Field>, names: seq<string>, suggestions: seq<Suggestion>)
    requires !HasObjectAt(config, names)
    ensures Nest(FlattenAll(config, names), suggestions) == Ensured(config, suggestions)
  {
    FlattenAllMoved(config, names);
  }

  lemma NestKeys(config: seq<Field>, names: seq<string>, suggestions: seq<Suggestion>, k: string)
    requires "axes" !in names && k != "axes"
    ensures Lookup(Nest(FlattenAll(config, names), suggestions).result, k)
            == if k in names && IsAxisObject(Lookup(config, k)) then None else Lookup(config, k)
  {
    var f := FlattenAll(config, names);
    FlattenAllLookup(config, names, k);
    if f.moved {
      LookupPut(f.rest, "axes", JObj(Merge(SpreadOf(Lookup(f.rest, "axes")), f.flat)), k);
    }
  }

  lemma NestAxes(config: seq<Field>, names: seq<string>, suggestions: seq<Suggestion>, k: string)
    requires "axes" !in names && HasObjectAt(config, names)
    ensures var e := Nest(FlattenAll(config, names), suggestions);
            var axes := Lookup(e.result, "axes");
            e.suggestions == suggestions + [ConvertedNote]
            && axes.Some? && axes.value.JObj?
            && Lookup(axes.value.fields, k)
               == if k in names && IsAxisObject(Lookup(config, k)) then Lookup(config, k)
                  else Lookup(SpreadOf(Lookup(config, "axes")), k)
  {
    var f := FlattenAll(config, names);
    FlattenAllMoved(config, names);
    FlattenAllLookup(config, names, k);
    FlattenAllLookup(config, names, "axes");
    FlattenAllDistinct(config, names);
    var merged := Merge(SpreadOf(Lookup(f.rest, "axes")), f.flat);
    LookupPut(f.rest, "axes", JObj(merged), "axes");
    LookupMerge(SpreadOf(Lookup(f.rest, "axes")), f.flat, k);
  }

  /** Without flat axes nothing changes. With them, each is moved under
      `axes`, spread over what `axes` had (the flat axis wins), and one info
      suggestion is added; the other keys keep their values. */
  lemma EnsureAxesMeaning(config: seq<Field>, suggestions: seq<Suggestion>, k: string)
    ensures !HasFlatAxes(config) ==> EnsureAxes(config, suggestions) == Ensured(config, suggestions)
    ensures HasFlatAxes(config) ==> EnsureAxes(config, suggestions).suggestions == suggestions + [ConvertedNote]
    ensures k != "axes" ==>
              Lookup(EnsureAxes(config, suggestions).result, k)
              == if k in AxisNames && IsAxisObject(Lookup(config, k)) then None else Lookup(config, k)
    ensures HasFlatAxes(config) ==>
              var axes := Lookup(EnsureAxes(config, suggestions).result, "axes");
              axes.Some? && axes.value.JObj?
              && Lookup(axes.value.fields, k)
                 == if k in AxisNames && IsAxisObject(Lookup(config, k)) then Lookup(config, k)
                    else Lookup(SpreadOf(Lookup(config, "axes")), k)
  {
    AxesNotAnAxis();
    if HasFlatAxes(config) {
      NestAxes(config, AxisNames, suggestions, k);
    } else {
      NestUnchanged(config, AxisNames, suggestions);
    }
    if k != "axes" {
      NestKeys(config, AxisNames, suggestions, k);
    }
  }

  /** The nested axes object has distinct keys when the input's own axes
      object (or array) had. */
  lemma EnsureAxesDistinct(config: seq<Field>, suggestions: seq<Suggestion>)
    requires HasFlatAxes(config) && DistinctKeys(SpreadOf(Lookup(config, "axes")))
    ensures var axes := Lookup(EnsureAxes(config, suggestions).result, "axes");
            axes.Some? && axes.value.JObj? && DistinctKeys(axes.value.fields)
  {
    EnsureAxesMeaning(config, suggestions, "axes");
    var f := FlattenAll(config, AxisNames);
    AxesNotAnAxis();
    FlattenAllLookup(config, AxisNames, "axes");
    FlattenAllMoved(config, AxisNames);
    var merged := Merge(SpreadOf(Lookup(f.rest, "axes")), f.flat);
    DistinctMerge(SpreadOf(Lookup(f.rest, "axes")), f.flat);
    LookupPut(f.rest, "axes", JObj(merged), "axes");
  }

  /** `ensureAxesStructure` with its loop. */
  method EnsureAxesStructure(config: seq<Field>, suggestions: seq<Suggestion>)
    returns (result: seq<Field>, suggestions': seq<Suggestion>)
    ensures Ensured(result, suggestions') == EnsureAxes(config, suggestions)
  {
    result := config;
    var hasAxes := false;
    var flatAxes: seq<Field> := [];
    for i := 0 to |AxisNames|
      invariant Flattened(result, flatAxes, hasAxes) == FlattenAll(config, AxisNames[..i])
    {
      assert AxisNames[..i + 1][..i] == AxisNames[..i];
      var axisName := AxisNames[i];
      var v := Lookup(config, axisName);
      if Present(v) && TypeOf(v.value) == "object" {
        flatAxes := Put(flatAxes, axisName, v.value);
        result := Remove(result, axisName);
        hasAxes := true;
      }
    }
    assert AxisNames[..|AxisNames|] == AxisNames;
    suggestions' := suggestions;
    if hasAxes {
      result := Put(result, "axes", JObj(Merge(SpreadOf(Lookup(result, "axes")), flatAxes)));
      suggestions' := suggestions' + [ConvertedNote];
    }
  }
}
