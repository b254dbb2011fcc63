/** `transformLegacyConfig` as a whole (ensure the axes structure, rewrite
    every axis, apply the global mappings, add the pattern suggestions) and
    `generateUserFriendlyErrors`. */
module LegacyTransform {
  import opened Wrappers
  import opened Strings
  import opened JsonTree
  import opened JsonPaths
  import opened LegacyMapper

  // ---------------------------------------------------------------------
  // The loop over the axes

  /** `container[k] = x` on the value of `transformed.axes`: an object gets
      the key, an array the element at one of its indices; the loop assigns
      nothing else. */
  function AssignProp(v: Json, k: string, x: Json): Json
  {
    match v
    case JObj(fs) => JObj(Put(fs, k, x))
    case JArr(xs) => if IndexKey(k).Some? && IndexKey(k).value < |xs| then JArr(xs[IndexKey(k).value := x]) else v
    case _ => v
  }

  /** The container of the axes and the journal, during the loop. */
  datatype AxesPass = AxesPass(axes: Json, journal: Journal)

  /** How one axis is rewritten; the model passes `ApplyAxis`. */
  type AxisRewrite = (seq<Field>, Journal) -> Moving

  /** The step `ApplyAxes` takes on one entry. */
  function AxisEntry(p: AxesPass, e: Field, rewrite: AxisRewrite): AxesPass
  {
    if IsObjectLike(e.val) then
      var m := rewrite(SpreadFields(e.val), p.journal);
      AxesPass(AssignProp(p.axes, e.key, JObj(m.obj)), m.journal)
    else p
  }

  /** The loop over `Object.entries(transformed.axes)`: every entry that is
      a non-null object is replaced by its rewritten copy. */
  function ApplyAxes(axes: Json, entries: seq<Field>, j: Journal, rewrite: AxisRewrite): AxesPass
    decreases |entries|
  {
    if entries == [] then AxesPass(axes, j)
    else
      AxisEntry(ApplyAxes(axes, entries[..|entries| - 1], j, rewrite), entries[|entries| - 1], rewrite)
  }

  lemma ApplyAxesSnoc(axes: Json, entries: seq<Field>, n: nat, j: Journal, rewrite: AxisRewrite)
    requires n < |entries|
    ensures ApplyAxes(axes, entries[..n + 1], j, rewrite) == AxisEntry(ApplyAxes(axes, entries[..n], j, rewrite), entries[n], rewrite)
  {
    assert entries[..n + 1][..n] == entries[..n];
  }

  /** The copy after `ensureAxesStructure` and the axes loop, the journal,
      and the input as the axes loop leaves it (`SeenAfter`). */
  datatype AxesStage = AxesStage(fields: seq<Field>, journal: Journal, seen: Json)

  function AxesLoop(config: Json): AxesStage
  {
    var e := EnsureAxes(SpreadFields(config), []);
    var axes := Lookup(e.result, "axes");
    if Present(axes) then
      var p := ApplyAxes(axes.value, SpreadFields(axes.value), Journal([], e.suggestions), ApplyAxis);
      AxesStage(Put(e.result, "axes", p.axes), p.journal, SeenAfter(config, p.axes))
    else AxesStage(e.result, Journal([], e.suggestions), config)
  }

  // ---------------------------------------------------------------------
  // What the axes loop writes into the input

  /** The input after the axes loop, given the container the loop left. The
      copies share objects with the input. Without flat axes the copy's
      `axes` is the input's own `axes` object, so every assignment of a
      converted axis lands in the input. With flat axes `axes` is a fresh
      object, but the axis objects in it are the input's own, and
      `applyAxisLegacyMappings` copies each of them only one level deep
      (`SharedAxis`). */
  function SeenAfter(config: Json, container: Json): Json
  {
    if !config.JObj? then config
    else if HasFlatAxes(config.fields) then JObj(SharedInput(config.fields, SpreadFields(container)))
    else JObj(ReplaceValue(config.fields, "axes", container))
  }

  /** An axis object the loop converted through `{ ...axis }` into `conv`:
      the writes `motor0[f] = …` and `homing[f] = …` went into the axis's
      own `motor0` and `homing` when those were objects, so each of them is
      now the section of the converted axis. A missing or falsy section was
      replaced in the copy only. */
  function SharedAxis(axis: Json, conv: Option<Json>): Json
  {
    if axis.JObj? && conv.Some? && conv.value.JObj? then
      JObj(SharedSection(SharedSection(axis.fields, conv.value.fields, "motor0"), conv.value.fields, "homing"))
    else axis
  }

  function SharedSection(fs: seq<Field>, conv: seq<Field>, section: string): seq<Field>
  {
    var o := Lookup(fs, section);
    if o.Some? && o.value.JObj? && Lookup(conv, section).Some? then ReplaceValue(fs, section, Lookup(conv, section).value)
    else fs
  }

  /** A name `ensureAxesStructure` moves out of the input's top level. */
  predicate IsFlat(fs: seq<Field>, k: string)
  {
    k in AxisNames && IsAxisObject(Lookup(fs, k))
  }

  /** The input with flat axes after the loop, where `conv` holds the
      converted axes: each flat axis, and each entry of the input's `axes`
      that no flat axis overrides, has received the loop's writes. */
  function SharedInput(fs: seq<Field>, conv: seq<Field>): seq<Field>
  {
    var withFlat := SharedFlat(fs, AxisNames, conv);
    var nested := Lookup(fs, "axes");
    if nested.Some? then ReplaceValue(withFlat, "axes", SharedEntries(nested.value, fs, conv)) else withFlat
  }

  function SharedFlat(fs: seq<Field>, names: seq<string>, conv: seq<Field>): seq<Field>
    decreases |names|
  {
    if names == [] then fs
    else
      var n := names[|names| - 1];
      var rest := SharedFlat(fs, names[..|names| - 1], conv);
      if IsAxisObject(Lookup(fs, n)) then ReplaceValue(rest, n, SharedAxis(Lookup(fs, n).value, Lookup(conv, n))) else rest
  }

  /** The input's `axes` value: the object's entries, or the array's
      elements, that the merged `axes` still holds received the writes. */
  function SharedEntries(v: Json, fs: seq<Field>, conv: seq<Field>): Json
  {
    match v
    case JObj(gs) =>
      JObj(seq(|gs|, i requires 0 <= i < |gs| =>
        if IsFlat(fs, gs[i].key) then gs[i] else Field(gs[i].key, SharedAxis(gs[i].val, Lookup(conv, gs[i].key)))))
    case JArr(xs) => JArr(seq(|xs|, i requires 0 <= i < |xs| => SharedAxis(xs[i], Lookup(conv, NatToString(i)))))
    case _ => v
  }

  // ---------------------------------------------------------------------
  // The global mappings

  /** The mappings the global loop skips: those of the axis loops. */
  predicate AxisLevel(m: LegacyMapping)
  {
    StartsWith(m.newPath, "motor0.") || StartsWith(m.newPath, "homing.")
  }

  function GlobalNote(m: LegacyMapping): Suggestion
  {
    Suggestion(Info, m.description, None, Some(Split(m.newPath, '.')))
  }

  /** One iteration of the global loop: a value defined at `oldPath` of the
      input is removed from the copy and set at `newPath`. */
  function GlobalStep(st: Moving, config: Json, m: LegacyMapping): Moving
  {
    if AxisLevel(m) then st
    else
      var v := GetNestedValue(config, m.oldPath);
      if v.None? then st
      else
        Moving(SetPath(RemovePath(st.obj, Split(m.oldPath, '.')), Split(m.newPath, '.'), v.value, NestedValue),
               Journal(st.journal.mappings + [m], st.journal.suggestions + [GlobalNote(m)]))
  }

  function GlobalAll(st: Moving, config: Json, ms: seq<LegacyMapping>): Moving
    decreases |ms|
  {
    if ms == [] then st else GlobalStep(GlobalAll(st, config, ms[..|ms| - 1]), config, ms[|ms| - 1])
  }

  // ---------------------------------------------------------------------
  // The pattern suggestions

  const FlatAxesWarning: Suggestion :=
    Suggestion(Warning, "Detected flat axis configuration. Converting to nested axes structure.",
               Some("Modern FluidNC uses axes.x, axes.y, axes.z structure instead of flat x, y, z fields."), None)

  const OldDrivers: seq<string> := ["A4988", "DRV8825", "LV8729", "TMC2100"]

  const UpgradeHint: string := "Consider upgrading to TMC2209 or TMC2130 for better performance and features."

  function DriverNote(d: string): Suggestion
  {
    Suggestion(Info, "Detected legacy stepper driver: " + d, Some(UpgradeHint), None)
  }

  const NoBoardWarning: Suggestion :=
    Suggestion(Warning, "No board type specified", Some("Add board: \"ESP32\" or appropriate board type for your hardware."), None)

  const NoNameNote: Suggestion :=
    Suggestion(Info, "No machine name specified", Some("Add a descriptive name for your machine configuration."), None)

  /** One note per driver whose name occurs in `text`, in the order of `drivers`. */
  function DriverNotes(text: string, drivers: seq<string>): seq<Suggestion>
    decreases |drivers|
  {
    if drivers == [] then []
    else
      var d := drivers[|drivers| - 1];
      DriverNotes(text, drivers[..|drivers| - 1]) + (if Contains(text, d) then [DriverNote(d)] else [])
  }

  /** What `addLegacyPatternSuggestions(config, ...)` appends, where `text`
      is `JSON.stringify(config)`. */
  function PatternSuggestions(config: Json, text: string): seq<Suggestion>
  {
    FlatPart(config) + DriverNotes(text, OldDrivers) + BoardPart(config) + NamePart(config)
  }

  predicate HasFlatFields(config: Json)
  {
    Present(Prop(config, "x")) || Present(Prop(config, "y")) || Present(Prop(config, "z"))
  }

  function FlatPart(config: Json): seq<Suggestion>
  {
    if HasFlatFields(config) then [FlatAxesWarning] else []
  }

  function BoardPart(config: Json): seq<Suggestion>
  {
    if Present(Prop(config, "board")) then [] else [NoBoardWarning]
  }

  function NamePart(config: Json): seq<Suggestion>
  {
    if Present(Prop(config, "name")) then [] else [NoNameNote]
  }

  /** The loop over the old driver names. */
  method DetectDrivers(config: Json, stringify: Json -> string, drivers: seq<string>, suggestions: seq<Suggestion>)
    returns (suggestions': seq<Suggestion>)
    ensures suggestions' == suggestions + DriverNotes(stringify(config), drivers)
  {
    suggestions' := suggestions;
    for i := 0 to |drivers|
      invariant suggestions' == suggestions + DriverNotes(stringify(config), drivers[..i])
    {
      assert drivers[..i + 1][..i] == drivers[..i];
      var driver := drivers[i];
      if Contains(stringify(config), driver) {
        suggestions' := suggestions' + [DriverNote(driver)];
      }
    }
    assert drivers[..|drivers|] == drivers;
  }

  lemma PatternAssoc(s: seq<Suggestion>, a: seq<Suggestion>, b: seq<Suggestion>, c: seq<Suggestion>, d: seq<Suggestion>)
    ensures s + a + b + c + d == s + (a + b + c + d)
  {
  }

  /** `addLegacyPatternSuggestions(config, suggestions)`, with `JSON.stringify`
      as the parameter `stringify`; None when `config.x` throws, on null. */
  method AddLegacyPatternSuggestions(config: Json, stringify: Json -> string, suggestions: seq<Suggestion>)
    returns (r: Option<seq<Suggestion>>)
    ensures r == if config.JNull? then None else Some(suggestions + PatternSuggestions(config, stringify(config)))
  {
    if config.JNull? {
      return None;
    }
    var s := suggestions;
    if Present(Prop(config, "x")) || Present(Prop(config, "y")) || Present(Prop(config, "z")) {
      s := s + [FlatAxesWarning];
    }
    ghost var s1 := s;
    assert s1 == suggestions + FlatPart(config);
    s := DetectDrivers(config, stringify, OldDrivers, s);
    ghost var s2 := s;
    if !Present(Prop(config, "board")) {
      s := s + [NoBoardWarning];
    }
    ghost var s3 := s;
    assert s3 == s2 + BoardPart(config);
    if !Present(Prop(config, "name")) {
      s := s + [NoNameNote];
    }
    assert s == s3 + NamePart(config);
    PatternAssoc(suggestions, FlatPart(config), DriverNotes(stringify(config), OldDrivers), BoardPart(config), NamePart(config));
    return Some(s);
  }

  // ---------------------------------------------------------------------
  // transformLegacyConfig

  /** The import result; None when the pattern check throws on a null input. */
  function Transform(config: Json, stringify: Json -> string): (r: Option<ImportResult>)
    ensures r.None? <==> config.JNull?
    ensures r.Some? ==> r.value.success && r.value.errors.None?
  {
    if config.JNull? then None
    else
      var a := AxesLoop(config);
      var g := GlobalAll(Moving(a.fields, a.journal), a.seen, LegacyMappings);
      Some(ImportResult(true, JObj(g.obj), g.journal.mappings,
                        g.journal.suggestions + PatternSuggestions(a.seen, stringify(a.seen)), None))
  }

  /** One iteration of the loop over the axes. */
  method RewriteEntry(container: Json, e: Field, mappings: seq<LegacyMapping>, suggestions: seq<Suggestion>)
    returns (container': Json, mappings': seq<LegacyMapping>, suggestions': seq<Suggestion>)
    ensures AxesPass(container', Journal(mappings', suggestions')) == AxisEntry(AxesPass(container, Journal(mappings, suggestions)), e, ApplyAxis)
  {
    container', mappings', suggestions' := container, mappings, suggestions;
    var axisConfig := e.val;
    if IsObjectLike(axisConfig) {
      var t;
      t, mappings', suggestions' := ApplyAxisLegacyMappings(axisConfig, mappings, suggestions);
      container' := AssignProp(container, e.key, JObj(t));
    }
  }

  /** The loop over `Object.entries(container)`. */
  method RewriteAxes(container: Json, mappings: seq<LegacyMapping>, suggestions: seq<Suggestion>)
    returns (container': Json, mappings': seq<LegacyMapping>, suggestions': seq<Suggestion>)
    ensures AxesPass(container', Journal(mappings', suggestions'))
            == ApplyAxes(container, SpreadFields(container), Journal(mappings, suggestions), ApplyAxis)
  {
    var entries := SpreadFields(container);
    container', mappings', suggestions' := container, mappings, suggestions;
    for i := 0 to |entries|
      invariant AxesPass(container', Journal(mappings', suggestions'))
                == ApplyAxes(container, entries[..i], Journal(mappings, suggestions), ApplyAxis)
    {
      ApplyAxesSnoc(container, entries, i, Journal(mappings, suggestions), ApplyAxis);
      container', mappings', suggestions' := RewriteEntry(container', entries[i], mappings', suggestions');
    }
    assert entries[..|entries|] == entries;
  }

  /** The loop over the mappings `ms`, reading the input `config`. */
  method ApplyGlobalMappings(transformed: seq<Field>, mappings: seq<LegacyMapping>, suggestions: seq<Suggestion>,
                             config: Json, ms: seq<LegacyMapping>)
    returns (transformed': seq<Field>, mappings': seq<LegacyMapping>, suggestions': seq<Suggestion>)
    ensures Moving(transformed', Journal(mappings', suggestions'))
            == GlobalAll(Moving(transformed, Journal(mappings, suggestions)), config, ms)
  {
    transformed', mappings', suggestions' := transformed, mappings, suggestions;
    for i := 0 to |ms|
      invariant Moving(transformed', Journal(mappings', suggestions'))
                == GlobalAll(Moving(transformed, Journal(mappings, suggestions)), config, ms[..i])
    {
      assert ms[..i + 1][..i] == ms[..i];
      var mapping := ms[i];
      if StartsWith(mapping.newPath, "motor0.") || StartsWith(mapping.newPath, "homing.") {
        continue;
      }
      var value := GetNestedValue(config, mapping.oldPath);
      if value.Some? {
        var o := RemoveNestedValue(JObj(transformed'), mapping.oldPath);
        o := SetNestedValue(o, mapping.newPath, value.value);
        transformed' := o.fields;
        mappings' := mappings' + [mapping];
        suggestions' := suggestions' + [Suggestion(Info, mapping.description, None, Some(Split(mapping.newPath, '.')))];
      }
    }
    assert ms[..|ms|] == ms;
  }

  /** `transformLegacyConfig(config)`. */
  method TransformLegacyConfig(config: Json, stringify: Json -> string) returns (r: Option<ImportResult>)
    ensures r == Transform(config, stringify)
  {
    var mappings: seq<LegacyMapping> := [];
    var suggestions: seq<Suggestion> := [];
    var transformed := SpreadFields(config);
    transformed, suggestions := EnsureAxesStructure(transformed, suggestions);
    var seen := config;
    var axes := Lookup(transformed, "axes");
    if Present(axes) {
      var container;
      container, mappings, suggestions := RewriteAxes(axes.value, mappings, suggestions);
      transformed := Put(transformed, "axes", container);
      seen := SeenAfter(config, container);
    }
    transformed, mappings, suggestions := ApplyGlobalMappings(transformed, mappings, suggestions, seen, LegacyMappings);
    var patterns := AddLegacyPatternSuggestions(seen, stringify, suggestions);
    if patterns.None? {
      return None;
    }
    r := Some(ImportResult(true, JObj(transformed), mappings, patterns.value, None));
  }

  // ---------------------------------------------------------------------
  // What the axes loop does to each axis

  /** The rewritten copy of an axis; the journal does not affect it. */
  function AxisResult(axis: seq<Field>): seq<Field>
  {
    ApplyAxis(axis, Journal([], [])).obj
  }

  lemma {:induction false} MoveAllObj(a: Moving, b: Moving, ms: seq<LegacyMapping>, section: string)
    requires a.obj == b.obj
    ensures MoveAll(a, ms, section).obj == MoveAll(b, ms, section).obj
    decreases |ms|
  {
    if ms != [] {
      MoveAllObj(a, b, ms[..|ms| - 1], section);
    }
  }

  lemma TmcFallbackObj(a: Moving, b: Moving, key: string, field: string, m: LegacyMapping)
    requires a.obj == b.obj
    ensures TmcFallback(a, key, field, m).obj == TmcFallback(b, key, field, m).obj
  {
  }

  lemma ApplyAxisObj(axis: seq<Field>, j: Journal)
    ensures ApplyAxis(axis, j).obj == AxisResult(axis)
  {
    var j0 := Journal([], []);
    var a := MoveAll(Moving(axis, j), MotorLegacyMappings, "motor0");
    var b := MoveAll(Moving(axis, j0), MotorLegacyMappings, "motor0");
    MoveAllObj(Moving(axis, j), Moving(axis, j0), MotorLegacyMappings, "motor0");
    var a2 := MoveAll(a, HomingLegacyMappings, "homing");
    var b2 := MoveAll(b, HomingLegacyMappings, "homing");
    MoveAllObj(a, b, HomingLegacyMappings, "homing");
    assert SectionLoops(axis, j) == a2 && SectionLoops(axis, j0) == b2;
    TmcFallbackObj(a2, b2, "tmc2130", "tmc_2130", Tmc2130Fallback);
    var a3 := TmcFallback(a2, "tmc2130", "tmc_2130", Tmc2130Fallback);
    var b3 := TmcFallback(b2, "tmc2130", "tmc_2130", Tmc2130Fallback);
    TmcFallbackObj(a3, b3, "tmc2209", "tmc_2209", Tmc2209Fallback);
  }

  /** A loop over old fields the copy does not have changes nothing. */
  lemma {:induction false} MoveAllAbsent(st: Moving, ms: seq<LegacyMapping>, section: string)
    requires forall i :: 0 <= i < |ms| ==> !HasKey(st.obj, ms[i].oldPath)
    ensures MoveAll(st, ms, section) == st
    decreases |ms|
  {
    if ms != [] {
      MoveAllAbsent(st, ms[..|ms| - 1], section);
    }
  }

  /** An axis without legacy fields is left exactly as it is. */
  lemma AxisWithoutLegacyFields(axis: seq<Field>)
    requires forall k :: k in MotorOldFields || k in HomingOldFields ==> !HasKey(axis, k)
    ensures AxisResult(axis) == axis
  {
    SectionTables();
    var st := Moving(axis, Journal([], []));
    forall i | 0 <= i < |MotorLegacyMappings| ensures !HasKey(st.obj, MotorLegacyMappings[i].oldPath) {
      assert MotorLegacyMappings[i].oldPath == OldPaths(MotorLegacyMappings)[i];
    }
    MoveAllAbsent(st, MotorLegacyMappings, "motor0");
    forall i | 0 <= i < |HomingLegacyMappings| ensures !HasKey(st.obj, HomingLegacyMappings[i].oldPath) {
      assert HomingLegacyMappings[i].oldPath == OldPaths(HomingLegacyMappings)[i];
    }
    MoveAllAbsent(st, HomingLegacyMappings, "homing");
    TmcBranchesAreDead(axis, Journal([], []));
  }

  /** A rewrite whose copy does not depend on the journal. */
  ghost predicate JournalFree(rewrite: AxisRewrite)
  {
    forall a, j :: rewrite(a, j).obj == rewrite(a, Journal([], [])).obj
  }

  /** What an entry of the container becomes: an object or array is
      replaced by its rewritten copy, anything else stays. */
  function ConvertedBy(o: Option<Json>, rewrite: AxisRewrite): Option<Json>
  {
    if o.Some? && IsObjectLike(o.value) then Some(JObj(rewrite(SpreadFields(o.value), Journal([], [])).obj)) else o
  }

  /** The same, for `applyAxisLegacyMappings`. */
  function Converted(o: Option<Json>): Option<Json>
  {
    if o.Some? && IsObjectLike(o.value) then Some(JObj(AxisResult(SpreadFields(o.value)))) else o
  }

  lemma ApplyAxisJournalFree()
    ensures JournalFree(ApplyAxis)
  {
    forall a, j ensures ApplyAxis(a, j).obj == ApplyAxis(a, Journal([], [])).obj {
      ApplyAxisObj(a, j);
    }
  }

  lemma {:induction false} LookupDistinctAt(fs: seq<Field>, i: nat)
    requires DistinctKeys(fs) && i < |fs|
    ensures Lookup(fs, fs[i].key) == Some(fs[i].val)
    decreases i
  {
    if i > 0 {
      assert fs[0].key != fs[i].key;
      assert DistinctKeys(fs[1..]) by {
        forall a, b | 0 <= a < b < |fs| - 1 ensures fs[1..][a].key != fs[1..][b].key {
          assert fs[1..][a] == fs[a + 1] && fs[1..][b] == fs[b + 1];
        }
      }
      LookupDistinctAt(fs[1..], i - 1);
    }
  }

  /** One entry on an object container: its key gets the rewritten copy. */
  lemma AxisEntryLookup(p: AxesPass, e: Field, rewrite: AxisRewrite, k: string)
    requires p.axes.JObj? && JournalFree(rewrite)
    ensures AxisEntry(p, e, rewrite).axes.JObj?
    ensures Lookup(AxisEntry(p, e, rewrite).axes.fields, k)
            == if k == e.key && IsObjectLike(e.val) then ConvertedBy(Some(e.val), rewrite) else Lookup(p.axes.fields, k)
  {
    if IsObjectLike(e.val) {
      var x := rewrite(SpreadFields(e.val), p.journal).obj;
      assert x == rewrite(SpreadFields(e.val), Journal([], [])).obj;
      LookupPut(p.axes.fields, e.key, JObj(x), k);
    }
  }

  /** Some of the first `n` fields has key `k`. */
  predicate KeyAmong(fs: seq<Field>, n: nat, k: string)
  {
    exists i :: 0 <= i < n && i < |fs| && fs[i].key == k
  }

  /** Over an object container, after `n` entries: each key among the
      first `n` holds its converted value, the others their old one. */
  lemma {:induction false} ApplyAxesObject(fs: seq<Field>, n: nat, j: Journal, rewrite: AxisRewrite, k: string)
    requires DistinctKeys(fs) && n <= |fs| && JournalFree(rewrite)
    ensures ApplyAxes(JObj(fs), fs[..n], j, rewrite).axes.JObj?
    ensures Lookup(ApplyAxes(JObj(fs), fs[..n], j, rewrite).axes.fields, k)
            == if KeyAmong(fs, n, k) then ConvertedBy(Lookup(fs, k), rewrite) else Lookup(fs, k)
    decreases n
  {
    if n > 0 {
      var p := ApplyAxes(JObj(fs), fs[..n - 1], j, rewrite);
      ApplyAxesSnoc(JObj(fs), fs, n - 1, j, rewrite);
      assert ApplyAxes(JObj(fs), fs[..n], j, rewrite) == AxisEntry(p, fs[n - 1], rewrite);
      ApplyAxesObject(fs, n - 1, j, rewrite, k);
      ObjectEntryStep(fs, n, p, rewrite, k);
    }
  }

  /** One turn of the object walk: the `n`-th entry moves `k` from the
      first `n - 1` keys' lookup to the first `n` keys'. */
  lemma ObjectEntryStep(fs: seq<Field>, n: nat, p: AxesPass, rewrite: AxisRewrite, k: string)
    requires DistinctKeys(fs) && 0 < n <= |fs| && JournalFree(rewrite) && p.axes.JObj?
    requires Lookup(p.axes.fields, k)
             == if KeyAmong(fs, n - 1, k) then ConvertedBy(Lookup(fs, k), rewrite) else Lookup(fs, k)
    ensures AxisEntry(p, fs[n - 1], rewrite).axes.JObj?
    ensures Lookup(AxisEntry(p, fs[n - 1], rewrite).axes.fields, k)
            == if KeyAmong(fs, n, k) then ConvertedBy(Lookup(fs, k), rewrite) else Lookup(fs, k)
  {
    AxisEntryLookup(p, fs[n - 1], rewrite, k);
    LookupDistinctAt(fs, n - 1);
    KeyAmongSnoc(fs, n, k);
  }

  /** The keys among the first `n` are those among the first `n - 1` and
      the `n`-th, which is not among the earlier ones. */
  lemma KeyAmongSnoc(fs: seq<Field>, n: nat, k: string)
    requires DistinctKeys(fs) && 0 < n <= |fs|
    ensures KeyAmong(fs, n, k) <==> KeyAmong(fs, n - 1, k) || fs[n - 1].key == k
    ensures !KeyAmong(fs, n - 1, fs[n - 1].key)
  {
    if KeyAmong(fs, n, k) {
      var i :| 0 <= i < n && i < |fs| && fs[i].key == k;
      if i < n - 1 {
        assert KeyAmong(fs, n - 1, k);
      }
    }
    if KeyAmong(fs, n - 1, k) {
      var i :| 0 <= i < n - 1 && i < |fs| && fs[i].key == k;
      assert 0 <= i < n && i < |fs| && fs[i].key == k;
    }
    if fs[n - 1].key == k {
      assert 0 <= n - 1 < n && n - 1 < |fs| && fs[n - 1].key == k;
    }
    assert forall i :: 0 <= i < n - 1 && i < |fs| ==> fs[i].key != fs[n - 1].key;
  }

  /** Over an object container with distinct keys, every entry is replaced
      by its converted value. */
  lemma ApplyAxesEntries(fs: seq<Field>, j: Journal, k: string)
    requires DistinctKeys(fs)
    ensures ApplyAxes(JObj(fs), fs, j, ApplyAxis).axes.JObj?
    ensures Lookup(ApplyAxes(JObj(fs), fs, j, ApplyAxis).axes.fields, k) == Converted(Lookup(fs, k))
  {
    assert fs[..|fs|] == fs;
    ApplyAxisJournalFree();
    ApplyAxesObject(fs, |fs|, j, ApplyAxis, k);
    if Lookup(fs, k).Some? {
      assert k in Keys(fs);
      var i :| 0 <= i < |fs| && Keys(fs)[i] == k;
      assert fs[i].key == k;
      assert KeyAmong(fs, |fs|, k);
    }
  }

  // ---------------------------------------------------------------------
  // The journal and the pattern suggestions are told apart

  /** The suggestions the mapping loops record: info notes with a path,
      and the note of `ensureAxesStructure`. */
  predicate JournalNote(s: Suggestion)
  {
    s.kind == Info && (s.path.Some? || s == ConvertedNote)
  }

  predicate AllJournalNotes(ss: seq<Suggestion>)
  {
    forall i :: 0 <= i < |ss| ==> JournalNote(ss[i])
  }

  lemma NotesAreJournal(ms: seq<LegacyMapping>, section: string)
    ensures AllJournalNotes(Notes(ms, section))
  {
  }

  /** A rewrite that only records journal notes. */
  ghost predicate KeepsNotes(rewrite: AxisRewrite)
  {
    forall a: seq<Field>, j: Journal :: AllJournalNotes(j.suggestions) ==> AllJournalNotes(rewrite(a, j).journal.suggestions)
  }

  lemma NotesAfter(s: seq<Suggestion>, a: seq<LegacyMapping>, b: seq<LegacyMapping>, sa: string, sb: string)
    requires AllJournalNotes(s)
    ensures AllJournalNotes(s + Notes(a, sa) + Notes(b, sb))
  {
    NotesAreJournal(a, sa);
    NotesAreJournal(b, sb);
  }

  lemma ApplyAxisKeepsNotes()
    ensures KeepsNotes(ApplyAxis)
  {
    forall a: seq<Field>, j: Journal | AllJournalNotes(j.suggestions) ensures AllJournalNotes(ApplyAxis(a, j).journal.suggestions) {
      ApplyAxisJournal(a, j);
      NotesAfter(j.suggestions, Defined(a, MotorLegacyMappings), Defined(a, HomingLegacyMappings), "motor0", "homing");
    }
  }

  lemma {:induction false} ApplyAxesNotes(axes: Json, entries: seq<Field>, j: Journal, rewrite: AxisRewrite)
    requires AllJournalNotes(j.suggestions) && KeepsNotes(rewrite)
    ensures AllJournalNotes(ApplyAxes(axes, entries, j, rewrite).journal.suggestions)
    decreases |entries|
  {
    if entries != [] {
      ApplyAxesNotes(axes, entries[..|entries| - 1], j, rewrite);
    }
  }

  lemma {:induction false} GlobalAllNotes(st: Moving, config: Json, ms: seq<LegacyMapping>)
    requires AllJournalNotes(st.journal.suggestions)
    ensures AllJournalNotes(GlobalAll(st, config, ms).journal.suggestions)
    decreases |ms|
  {
    if ms != [] {
      GlobalAllNotes(st, config, ms[..|ms| - 1]);
    }
  }

  /** Every suggestion recorded before the pattern check is a journal note. */
  lemma TransformJournal(config: Json)
    ensures AllJournalNotes(AxesLoop(config).journal.suggestions)
    ensures var a := AxesLoop(config);
            AllJournalNotes(GlobalAll(Moving(a.fields, a.journal), a.seen, LegacyMappings).journal.suggestions)
  {
    var e := EnsureAxes(SpreadFields(config), []);
    EnsureAxesMeaning(SpreadFields(config), [], "");
    assert AllJournalNotes(e.suggestions);
    var axes := Lookup(e.result, "axes");
    if Present(axes) {
      ApplyAxisKeepsNotes();
      ApplyAxesNotes(axes.value, SpreadFields(axes.value), Journal([], e.suggestions), ApplyAxis);
    }
    var a := AxesLoop(config);
    GlobalAllNotes(Moving(a.fields, a.journal), a.seen, LegacyMappings);
  }

  lemma {:induction false} DriverNotesMeaning(text: string, drivers: seq<string>, s: Suggestion)
    ensures s in DriverNotes(text, drivers)
            <==> exists i :: 0 <= i < |drivers| && Contains(text, drivers[i]) && s == DriverNote(drivers[i])
    decreases |drivers|
  {
    if drivers != [] {
      var init := drivers[..|drivers| - 1];
      var d := drivers[|drivers| - 1];
      DriverNotesMeaning(text, init, s);
      assert DriverNotes(text, drivers) == DriverNotes(text, init) + (if Contains(text, d) then [DriverNote(d)] else []);
      if s in DriverNotes(text, drivers) {
        if s in DriverNotes(text, init) {
          var i :| 0 <= i < |init| && Contains(text, init[i]) && s == DriverNote(init[i]);
          assert drivers[i] == init[i];
        } else {
          assert Contains(text, drivers[|drivers| - 1]) && s == DriverNote(drivers[|drivers| - 1]);
        }
      } else {
        forall i | 0 <= i < |drivers|
          ensures !(Contains(text, drivers[i]) && s == DriverNote(drivers[i]))
        {
          if i < |init| {
            assert init[i] == drivers[i];
          }
        }
      }
    }
  }

  lemma DriverNoteInjective(d: string, d': string)
    requires DriverNote(d) == DriverNote(d')
    ensures d == d'
  {
    var prefix := "Detected legacy stepper driver: ";
    assert (prefix + d)[|prefix|..] == d;
    assert (prefix + d')[|prefix|..] == d';
  }

  /** The driver notes are info notes without a path. */
  lemma DriverNotesShape(text: string, drivers: seq<string>, s: Suggestion)
    requires s in DriverNotes(text, drivers)
    ensures s.kind == Info && s.hint == Some(UpgradeHint) && s.path.None?
  {
    DriverNotesMeaning(text, drivers, s);
  }

  /** A suggestion without the upgrade hint is no driver note. */
  lemma NotADriverNote(text: string, s: Suggestion)
    requires s.hint != Some(UpgradeHint)
    ensures s !in DriverNotes(text, OldDrivers)
  {
    if s in DriverNotes(text, OldDrivers) {
      DriverNotesShape(text, OldDrivers, s);
    }
  }

  /** The driver note for `d` is there exactly when `d` is an old driver
      named in the text. */
  lemma DriverNoteMember(text: string, d: string)
    ensures DriverNote(d) in DriverNotes(text, OldDrivers) <==> d in OldDrivers && Contains(text, d)
  {
    DriverNotesMeaning(text, OldDrivers, DriverNote(d));
    if DriverNote(d) in DriverNotes(text, OldDrivers) {
      var i :| 0 <= i < |OldDrivers| && Contains(text, OldDrivers[i]) && DriverNote(d) == DriverNote(OldDrivers[i]);
      DriverNoteInjective(d, OldDrivers[i]);
    }
    if d in OldDrivers && Contains(text, d) {
      var i :| 0 <= i < |OldDrivers| && OldDrivers[i] == d;
    }
  }

  /** Membership in the four parts of the pattern suggestions. */
  lemma InParts(x: Suggestion, a: seq<Suggestion>, b: seq<Suggestion>, c: seq<Suggestion>, d: seq<Suggestion>)
    ensures x in a + b + c + d <==> x in a || x in b || x in c || x in d
  {
  }

  /** Each pattern suggestion is there exactly when its condition holds,
      and none of them is a journal note. */
  lemma PatternSuggestionsMeaning(config: Json, text: string, d: string)
    ensures var r := PatternSuggestions(config, text);
            (FlatAxesWarning in r <==> HasFlatFields(config))
            && (NoBoardWarning in r <==> !Present(Prop(config, "board")))
            && (NoNameNote in r <==> !Present(Prop(config, "name")))
            && (DriverNote(d) in r <==> d in OldDrivers && Contains(text, d))
            && forall i :: 0 <= i < |r| ==> !JournalNote(r[i])
  {
    var notes := DriverNotes(text, OldDrivers);
    var f, b, n := FlatPart(config), BoardPart(config), NamePart(config);
    var r := PatternSuggestions(config, text);
    assert r == f + notes + b + n;
    NotADriverNote(text, FlatAxesWarning);
    NotADriverNote(text, NoBoardWarning);
    NotADriverNote(text, NoNameNote);
    DriverNoteMember(text, d);
    InParts(FlatAxesWarning, f, notes, b, n);
    InParts(NoBoardWarning, f, notes, b, n);
    InParts(NoNameNote, f, notes, b, n);
    InParts(DriverNote(d), f, notes, b, n);
    forall i | 0 <= i < |r| ensures !JournalNote(r[i]) {
      InParts(r[i], f, notes, b, n);
      if r[i] in notes {
        DriverNotesShape(text, OldDrivers, r[i]);
      }
    }
  }

  /** Reading a top-level key of the input after the flat axes received
      the loop's writes. */
  lemma {:induction false} LookupSharedFlat(fs: seq<Field>, names: seq<string>, conv: seq<Field>, k: string)
    ensures Lookup(SharedFlat(fs, names, conv), k)
            == if k in names && IsAxisObject(Lookup(fs, k)) then Some(SharedAxis(Lookup(fs, k).value, Lookup(conv, k))) else Lookup(fs, k)
    ensures Keys(SharedFlat(fs, names, conv)) == Keys(fs)
    decreases |names|
  {
    if names != [] {
      var n := names[|names| - 1];
      var front := names[..|names| - 1];
      LookupSharedFlat(fs, front, conv, k);
      LookupSharedFlat(fs, front, conv, n);
      if IsAxisObject(Lookup(fs, n)) {
        LookupReplace(SharedFlat(fs, front, conv), n, SharedAxis(Lookup(fs, n).value, Lookup(conv, n)), k);
      }
      assert k in names <==> k in front || k == n;
    }
  }

  /** With flat axes, the loop leaves the input as `SharedInput` says, over
      the converted `axes` of the copy. */
  lemma SeenFlat(config: Json)
    requires config.JObj? && HasFlatAxes(config.fields)
    ensures var a := AxesLoop(config);
            Lookup(a.fields, "axes").Some?
            && a.seen == JObj(SharedInput(config.fields, SpreadFields(Lookup(a.fields, "axes").value)))
  {
    EnsureAxesMeaning(config.fields, [], "x");
    var e := EnsureAxes(config.fields, []);
    var axes := Lookup(e.result, "axes").value;
    var p := ApplyAxes(axes, SpreadFields(axes), Journal([], e.suggestions), ApplyAxis);
    LookupPut(e.result, "axes", p.axes, "axes");
  }

  /** The input as the pattern check sees it has the input's top-level
      keys with the same truthiness. Outside "axes" and the axis names it is
      the input itself. */
  lemma SeenProp(config: Json, k: string)
    requires k != "axes"
    ensures Present(Prop(AxesLoop(config).seen, k)) == Present(Prop(config, k))
    ensures k !in AxisNames ==> Prop(AxesLoop(config).seen, k) == Prop(config, k)
  {
    if config.JObj? {
      var fs := config.fields;
      if HasFlatAxes(fs) {
        SeenFlat(config);
        SharedInputKeeps(fs, SpreadFields(Lookup(AxesLoop(config).fields, "axes").value), k);
      } else {
        SeenNoFlat(config, k);
      }
    }
  }

  /** A top-level key other than "axes" of the input with flat axes after
      the loop's writes. */
  lemma SharedInputOther(fs: seq<Field>, conv: seq<Field>, k: string)
    requires k != "axes"
    ensures Lookup(SharedInput(fs, conv), k)
            == if k in AxisNames && IsAxisObject(Lookup(fs, k)) then Some(SharedAxis(Lookup(fs, k).value, Lookup(conv, k))) else Lookup(fs, k)
  {
    LookupSharedFlat(fs, AxisNames, conv, k);
    var nested := Lookup(fs, "axes");
    if nested.Some? {
      LookupReplace(SharedFlat(fs, AxisNames, conv), "axes", SharedEntries(nested.value, fs, conv), k);
    }
  }

  /** The writes keep every top-level key but "axes" as truthy as it was,
      and change none but the flat axes. */
  lemma SharedInputKeeps(fs: seq<Field>, conv: seq<Field>, k: string)
    requires k != "axes"
    ensures Present(Lookup(SharedInput(fs, conv), k)) == Present(Lookup(fs, k))
    ensures k !in AxisNames ==> Lookup(SharedInput(fs, conv), k) == Lookup(fs, k)
  {
    SharedInputOther(fs, conv, k);
    if k in AxisNames && IsAxisObject(Lookup(fs, k)) {
      assert Truthy(SharedAxis(Lookup(fs, k).value, Lookup(conv, k)));
    }
  }

  /** A flat axis of the input after the loop's writes. */
  lemma SharedInputAxis(fs: seq<Field>, conv: seq<Field>, k: string, ax: seq<Field>)
    requires k in AxisNames && Lookup(fs, k) == Some(JObj(ax))
    ensures Lookup(SharedInput(fs, conv), k) == Some(SharedAxis(JObj(ax), Lookup(conv, k)))
  {
    AxesNotAnAxis();
    assert IsAxisObject(Lookup(fs, k));
    SharedInputOther(fs, conv, k);
  }

  /** Without flat axes the loop writes only into the input's `axes`. */
  lemma SeenNoFlat(config: Json, k: string)
    requires config.JObj? && !HasFlatAxes(config.fields) && k != "axes"
    ensures Prop(AxesLoop(config).seen, k) == Prop(config, k)
  {
    var fs := config.fields;
    var e := EnsureAxes(SpreadFields(config), []);
    var axes := Lookup(e.result, "axes");
    if Present(axes) {
      var p := ApplyAxes(axes.value, SpreadFields(axes.value), Journal([], e.suggestions), ApplyAxis);
      LookupReplace(fs, "axes", p.axes, k);
    }
  }

  /** A section that was an object in the axis is, after the loop's writes,
      the converted axis's section: the writes land in the axis's own
      `motor0` and `homing` objects. */
  lemma SharedSectionOf(ax: seq<Field>, conv: seq<Field>, section: string)
    requires section == "motor0" || section == "homing"
    requires Lookup(ax, section).Some? && Lookup(ax, section).value.JObj? && Lookup(conv, section).Some?
    ensures var s := SharedAxis(JObj(ax), Some(JObj(conv)));
            s.JObj? && Lookup(s.fields, section) == Lookup(conv, section)
  {
    var m := SharedSection(ax, conv, "motor0");
    LookupSharedSection(ax, conv, "motor0", section);
    LookupSharedSection(m, conv, "homing", section);
  }

  lemma LookupSharedSection(fs: seq<Field>, conv: seq<Field>, section: string, k: string)
    ensures Lookup(SharedSection(fs, conv, section), k)
            == if k == section && Lookup(fs, section).Some? && Lookup(fs, section).value.JObj? && Lookup(conv, section).Some?
               then Lookup(conv, section) else Lookup(fs, k)
  {
    var o := Lookup(fs, section);
    if o.Some? && o.value.JObj? && Lookup(conv, section).Some? {
      LookupReplace(fs, section, Lookup(conv, section).value, k);
    }
  }

  /** Behind a run of journal notes, a suggestion that is no journal note
      is found exactly when it is in the tail. */
  lemma BehindJournal(x: Suggestion, g: seq<Suggestion>, p: seq<Suggestion>)
    requires AllJournalNotes(g) && !JournalNote(x)
    ensures x in g + p <==> x in p
  {
  }

  /** The keys the pattern check tests are as truthy in the input as the
      loop leaves it as in the input itself. */
  lemma SeenPresence(config: Json)
    ensures var seen := AxesLoop(config).seen;
            && Present(Prop(seen, "board")) == Present(Prop(config, "board"))
            && Present(Prop(seen, "name")) == Present(Prop(config, "name"))
            && Present(Prop(seen, "x")) == Present(Prop(config, "x"))
            && Present(Prop(seen, "y")) == Present(Prop(config, "y"))
            && Present(Prop(seen, "z")) == Present(Prop(config, "z"))
  {
    SeenProp(config, "board");
    SeenProp(config, "name");
    SeenProp(config, "x");
    SeenProp(config, "y");
    SeenProp(config, "z");
  }

  /** The suggestions of a transformed input: the board and name warnings
      are there exactly when the input lacks a truthy `board` or `name`,
      the flat-axis warning exactly when it has a truthy `x`, `y` or `z`,
      and a driver note exactly when that old driver's name occurs in the
      serialised input. */
  lemma TransformPatterns(config: Json, stringify: Json -> string, d: string)
    requires !config.JNull?
    ensures var r := Transform(config, stringify).value.suggestions;
            (NoBoardWarning in r <==> !Present(Prop(config, "board")))
            && (NoNameNote in r <==> !Present(Prop(config, "name")))
            && (FlatAxesWarning in r <==> Present(Prop(config, "x")) || Present(Prop(config, "y")) || Present(Prop(config, "z")))
            && (DriverNote(d) in r <==> d in OldDrivers && Contains(stringify(AxesLoop(config).seen), d))
  {
    var a := AxesLoop(config);
    var g := GlobalAll(Moving(a.fields, a.journal), a.seen, LegacyMappings);
    var text := stringify(a.seen);
    var ps := PatternSuggestions(a.seen, text);
    assert Transform(config, stringify).value.suggestions == g.journal.suggestions + ps;
    TransformJournal(config);
    PatternSuggestionsMeaning(a.seen, text, d);
    SeenPresence(config);
    BehindJournal(NoBoardWarning, g.journal.suggestions, ps);
    BehindJournal(NoNameNote, g.journal.suggestions, ps);
    BehindJournal(FlatAxesWarning, g.journal.suggestions, ps);
    BehindJournal(DriverNote(d), g.journal.suggestions, ps);
  }
}
