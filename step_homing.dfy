/** The homing step: the global homing cycle list, and the homing section
    of each axis the user has enabled for homing. */
module HomingStep {
  import opened Wrappers
  import opened Strings
  import opened JsonTree
  import opened StepCommon

  const EmptyCycles: string := "At least one homing cycle must be defined if homing is enabled"

  function CycleError(name: string): string { name + " axis: homing cycle must be between 0 and 10" }
  function FeedError(name: string): string { name + " axis: homing feed rate must be positive" }
  function SeekError(name: string): string { name + " axis: homing seek rate must be positive" }

  /** `config.homing?.cycle && config.homing.cycle.length === 0`: a truthy
      cycle list (an empty array is truthy) whose length is zero. */
  predicate CyclesEmpty(config: Json)
  {
    var cycle := Get(Prop(config, "homing"), "cycle");
    Present(cycle) && Prop(cycle.value, "length") == Some(JNum(0.0))
  }

  /** `cycle === undefined || cycle < 0 || cycle > 10`. */
  predicate CycleOutOfRange(cycle: Option<Json>)
  {
    cycle.None? || Below(cycle, 0.0) || Above(cycle, 10.0)
  }

  /** The errors of one axis entry. Only an enabled axis with a truthy
      homing section is checked: its cycle, a set but non-positive feed or
      seek rate, then the message of the cross-field rate check, if any,
      under the axis name. `rates` stands for that check on the axis. */
  function AxisHomingErrors(enabled: seq<string>, rates: Json -> Option<string>, e: Field): seq<string>
  {
    var h := Prop(e.val, "homing");
    if e.key in enabled && Present(h) then
      (if CycleOutOfRange(Prop(h.value, "cycle")) then [CycleError(e.key)] else [])
      + (if SetButNotPositive(Prop(h.value, "feed_mm_per_min")) then [FeedError(e.key)] else [])
      + (if SetButNotPositive(Prop(h.value, "seek_mm_per_min")) then [SeekError(e.key)] else [])
      + (if rates(e.val).Some? && rates(e.val).value != "" then [e.key + " axis: " + rates(e.val).value] else [])
    else []
  }

  function AxisHomingRule(enabled: seq<string>, rates: Json -> Option<string>): Field -> seq<string>
  {
    e => AxisHomingErrors(enabled, rates, e)
  }

  /** `validateStep`'s errors. */
  function HomingErrors(config: Json, enabled: seq<string>, rates: Json -> Option<string>): seq<string>
  {
    if NoAxes(config) then [NoAxesError]
    else
      (if CyclesEmpty(config) then [EmptyCycles] else [])
      + FlatMap(EntriesOf(Prop(config, "axes")), AxisHomingRule(enabled, rates))
  }

  /** `validateStep`: without axes a single error and an invalid step;
      otherwise valid exactly when nothing was reported. */
  method ValidateStep(config: Json, enabled: seq<string>, rates: Json -> Option<string>)
    returns (errors: seq<string>, isValid: bool)
    ensures errors == HomingErrors(config, enabled, rates)
    ensures isValid <==> errors == []
  {
    var axes := Prop(config, "axes");
    if !Present(axes) || |KeysOf(axes.value)| == 0 {
      return [NoAxesError], false;
    }
    errors := [];
    var cycle := Get(Prop(config, "homing"), "cycle");
    if Present(cycle) && Prop(cycle.value, "length") == Some(JNum(0.0)) {
      errors := errors + [EmptyCycles];
    }
    assert errors == if CyclesEmpty(config) then [EmptyCycles] else [];
    errors := ForEachPush(errors, SpreadFields(axes.value), AxisHomingRule(enabled, rates));
    isValid := |errors| == 0;
  }

  /** An axis that is not enabled, or has no homing section, is never
      checked; in particular, with nothing enabled (the state the step
      starts in) only the global cycle list can be reported. */
  lemma UncheckedAxes(config: Json, enabled: seq<string>, rates: Json -> Option<string>)
    requires !NoAxes(config)
    ensures var entries := EntriesOf(Prop(config, "axes"));
            (forall i :: 0 <= i < |entries| ==> entries[i].key !in enabled || !Present(Prop(entries[i].val, "homing")))
            ==> HomingErrors(config, enabled, rates) == (if CyclesEmpty(config) then [EmptyCycles] else [])
  {
    var entries := EntriesOf(Prop(config, "axes"));
    FlatMapEmpty(entries, AxisHomingRule(enabled, rates));
  }

  /** An enabled axis whose homing cycle is missing or outside 0..10 is
      named in the errors. */
  lemma BadCycleReported(config: Json, enabled: seq<string>, rates: Json -> Option<string>, i: nat)
    requires !NoAxes(config) && i < |EntriesOf(Prop(config, "axes"))|
    requires var e := EntriesOf(Prop(config, "axes"))[i];
             e.key in enabled && Present(Prop(e.val, "homing")) && CycleOutOfRange(Prop(Prop(e.val, "homing").value, "cycle"))
    ensures CycleError(EntriesOf(Prop(config, "axes"))[i].key) in HomingErrors(config, enabled, rates)
  {
    var entries := EntriesOf(Prop(config, "axes"));
    FlatMapHas(entries, AxisHomingRule(enabled, rates), CycleError(entries[i].key));
  }

  /** A cycle given as text is out of range exactly when the number the
      text reads as is outside 0..10 (`"1e2"` and `"0x10"` are). */
  lemma CycleText(u: string, x: real)
    requires StringToNumber(u) == Finite(x)
    ensures CycleOutOfRange(Some(JStr(u))) <==> x < 0.0 || x > 10.0
  {
    ComparesAs(Some(JStr(u)), x, 0.0);
    ComparesAs(Some(JStr(u)), x, 10.0);
  }

  /** A cycle wrapped in a one-item array is checked as the number inside. */
  lemma CycleArray(x: real)
    ensures CycleOutOfRange(Some(JArr([JNum(x)]))) <==> x < 0.0 || x > 10.0
  {
    SingleItem(JNum(x));
  }

  // ---------------------------------------------------------------------
  // Handlers

  /** `handleGlobalHomingChange(field, value)`. */
  function HandleGlobalHomingChange(config: Json, field: string, value: Json): (update: seq<Field>)
  {
    [Field("homing", JObj(SpreadSet(Prop(config, "homing"), field, value)))]
  }

  /** The update carries only `homing`, with the one field set and the
      other global homing fields copied. */
  lemma GlobalHomingChangeOnly(config: Json, field: string, value: Json, f: string)
    ensures var update := HandleGlobalHomingChange(config, field, value);
            |update| == 1 && update[0].key == "homing" && update[0].val.JObj?
            && Lookup(update[0].val.fields, field) == Some(value)
            && (f != field ==> Lookup(update[0].val.fields, f) == Lookup(SpreadOf(Prop(config, "homing")), f))
  {
    SpreadSetLookup(Prop(config, "homing"), field, value, f);
    SpreadSetLookup(Prop(config, "homing"), field, value, field);
  }

  /** The homing installed when an axis is enabled. */
  const DefaultHoming: Json := JObj([
    Field("cycle", JNum(1.0)),
    Field("positive_direction", JBool(false)),
    Field("mpos_mm", JNum(0.0)),
    Field("feed_mm_per_min", JNum(100.0)),
    Field("seek_mm_per_min", JNum(1000.0)),
    Field("debounce_ms", JNum(500.0)),
    Field("seek_scaler", JNum(1.1)),
    Field("feed_scaler", JNum(1.1))
  ])

  /** The default homing cycle is 1, inside the accepted range. */
  lemma DefaultCycleInRange()
    ensures Prop(DefaultHoming, "cycle") == Some(JNum(1.0)) && !CycleOutOfRange(Prop(DefaultHoming, "cycle"))
  {
  }

  lemma DefaultFeedField()
    ensures Lookup(DefaultHoming.fields, "feed_mm_per_min") == Some(JNum(100.0))
  {
    var fs := DefaultHoming.fields;
    assert "feed_mm_per_min"[0] != "cycle"[0] && "feed_mm_per_min"[0] != "positive_direction"[0]
           && "feed_mm_per_min"[0] != "mpos_mm"[0];
    assert fs[1..][1..][1..][0] == Field("feed_mm_per_min", JNum(100.0));
    assert Lookup(fs, "feed_mm_per_min") == Lookup(fs[1..], "feed_mm_per_min")
           == Lookup(fs[1..][1..], "feed_mm_per_min") == Lookup(fs[1..][1..][1..], "feed_mm_per_min");
  }

  /** The default feed rate is 100 mm/min, so it is not reported. */
  lemma DefaultFeedPositive()
    ensures var feed := Prop(DefaultHoming, "feed_mm_per_min");
            feed == Some(JNum(100.0)) && !SetButNotPositive(feed)
  {
    DefaultFeedField();
    NumberTests(100.0);
  }

  lemma DefaultSeekField()
    ensures Lookup(DefaultHoming.fields, "seek_mm_per_min") == Some(JNum(1000.0))
  {
    var fs := DefaultHoming.fields;
    assert "seek_mm_per_min"[0] != "cycle"[0] && "seek_mm_per_min"[0] != "positive_direction"[0]
           && "seek_mm_per_min"[0] != "mpos_mm"[0] && "seek_mm_per_min"[0] != "feed_mm_per_min"[0];
    assert fs[1..][1..][1..][1..][0] == Field("seek_mm_per_min", JNum(1000.0));
    assert Lookup(fs, "seek_mm_per_min") == Lookup(fs[1..], "seek_mm_per_min")
           == Lookup(fs[1..][1..], "seek_mm_per_min") == Lookup(fs[1..][1..][1..], "seek_mm_per_min")
           == Lookup(fs[1..][1..][1..][1..], "seek_mm_per_min");
  }

  /** The default seek rate is 1000 mm/min, so it is not reported. */
  lemma DefaultSeekPositive()
    ensures var seek := Prop(DefaultHoming, "seek_mm_per_min");
            seek == Some(JNum(1000.0)) && !SetButNotPositive(seek)
  {
    DefaultSeekField();
    NumberTests(1000.0);
  }

  /** `delete axis.homing`: an object loses the key, other values are left
      as they are. */
  function WithoutHoming(axis: Json): Json
  {
    if axis.JObj? then JObj(Remove(axis.fields, "homing")) else axis
  }

  /** The copied axes after the toggle: an axis now enabled gets the
      default homing over its other fields; an axis no longer enabled loses
      its homing, if it is truthy. */
  function HomingToggledAxes(axes: Option<Json>, enabled: seq<string>, name: string): seq<Field>
  {
    var newAxes := SpreadOf(axes);
    if name in enabled then Put(newAxes, name, JObj(SpreadSet(Lookup(newAxes, name), "homing", DefaultHoming)))
    else if Present(Lookup(newAxes, name)) then Put(newAxes, name, WithoutHoming(Lookup(newAxes, name).value))
    else newAxes
  }

  datatype Toggled = Toggled(enabled: seq<string>, update: seq<Field>)

  /** `handleAxisHomingToggle(name)`. */
  function HandleAxisHomingToggle(config: Json, enabled: seq<string>, name: string): (r: Toggled)
    ensures r.enabled == Toggle(enabled, name)
    ensures r.update == [Field("axes", JObj(HomingToggledAxes(Prop(config, "axes"), r.enabled, name)))]
  {
    var enabled' := Toggle(enabled, name);
    Toggled(enabled', [Field("axes", JObj(HomingToggledAxes(Prop(config, "axes"), enabled', name)))])
  }

  /** Enabling installs the default homing and keeps the axis's other
      fields; disabling an axis object removes its homing; other axes are
      copied. */
  lemma AxisHomingToggleEffect(config: Json, enabled: seq<string>, name: string, k: string, f: string)
    ensures var before := SpreadOf(Prop(config, "axes"));
            var r := HandleAxisHomingToggle(config, enabled, name);
            var axes := r.update[0].val.fields;
            (name in r.enabled <==> name !in enabled)
            && (name !in enabled ==>
                  Lookup(axes, name).Some? && Lookup(axes, name).value.JObj?
                  && Lookup(Lookup(axes, name).value.fields, "homing") == Some(DefaultHoming)
                  && (f != "homing" ==> Lookup(Lookup(axes, name).value.fields, f) == Lookup(SpreadOf(Lookup(before, name)), f)))
            && (name in enabled && Lookup(before, name).Some? && Lookup(before, name).value.JObj? ==>
                  Lookup(axes, name) == Some(JObj(Remove(Lookup(before, name).value.fields, "homing")))
                  && Lookup(Lookup(axes, name).value.fields, "homing").None?)
            && (k != name ==> Lookup(axes, k) == Lookup(before, k))
  {
    var before := SpreadOf(Prop(config, "axes"));
    ToggleFlips(enabled, name, name);
    var installed := JObj(SpreadSet(Lookup(before, name), "homing", DefaultHoming));
    LookupPut(before, name, installed, k);
    LookupPut(before, name, installed, name);
    SpreadSetLookup(Lookup(before, name), "homing", DefaultHoming, f);
    SpreadSetLookup(Lookup(before, name), "homing", DefaultHoming, "homing");
    if Present(Lookup(before, name)) {
      var stripped := WithoutHoming(Lookup(before, name).value);
      LookupPut(before, name, stripped, k);
      LookupPut(before, name, stripped, name);
      if Lookup(before, name).value.JObj? {
        LookupRemove(Lookup(before, name).value.fields, "homing", "homing");
      }
    }
  }

  /** `handleAxisHomingChange(name, field, value)`. */
  function HandleAxisHomingChange(config: Json, name: string, field: string, value: Json): seq<Field>
  {
    var axes := Prop(config, "axes");
    [Field("axes", JObj(SetIn(axes, name, "homing", JObj(SpreadSet(Get(Get(axes, name), "homing"), field, value)))))]
  }

  /** Only one homing field of one axis changes. */
  lemma AxisHomingChangeOnly(config: Json, name: string, field: string, value: Json, k: string, f: string)
    ensures var axes := Prop(config, "axes");
            var homing := SpreadSet(Get(Get(axes, name), "homing"), field, value);
            var axes' := HandleAxisHomingChange(config, name, field, value)[0].val.fields;
            Lookup(axes', name) == Some(JObj(SpreadSet(Get(axes, name), "homing", JObj(homing))))
            && Lookup(homing, field) == Some(value)
            && (f != field ==> Lookup(homing, f) == Lookup(SpreadOf(Get(Get(axes, name), "homing")), f))
            && (k != name ==> Lookup(axes', k) == Lookup(SpreadOf(axes), k))
  {
    var axes := Prop(config, "axes");
    var homing := SpreadSet(Get(Get(axes, name), "homing"), field, value);
    SetInLookup(axes, name, "homing", JObj(homing), k, f);
    SpreadSetLookup(Get(Get(axes, name), "homing"), field, value, f);
    SpreadSetLookup(Get(Get(axes, name), "homing"), field, value, field);
  }
}
