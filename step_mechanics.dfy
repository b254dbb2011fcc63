/** The mechanics step: which axes are configured, their basic motion
    settings, and the errors that keep the step from being valid. */
module MechanicsStep {
  import opened Wrappers
  import opened Strings
  import opened JsonTree
  import opened PinUtils
  import opened StepCommon

  const NoAxisSelected: string := "At least one axis must be configured"

  function StepsError(name: string): string
  {
    name + " axis: steps_per_mm is required and must be positive"
  }

  function RateError(name: string): string
  {
    name + " axis: max_rate_mm_per_min is required and must be positive"
  }

  /** The errors of one axis entry: the schema's issues for the axis, each
      under the axis name, then a missing or non-positive `steps_per_mm`,
      then a missing or non-positive `max_rate_mm_per_min`. `schema` gives
      the issue messages of the axis schema, none when it accepts. */
  function AxisErrors(schema: Json -> seq<string>, e: Field): seq<string>
  {
    Prefixed(e.key + " axis: ", schema(e.val))
    + (if NotPositive(Prop(e.val, "steps_per_mm")) then [StepsError(e.key)] else [])
    + (if NotPositive(Prop(e.val, "max_rate_mm_per_min")) then [RateError(e.key)] else [])
  }

  function AxisRule(schema: Json -> seq<string>): Field -> seq<string>
  {
    e => AxisErrors(schema, e)
  }

  /** `validateStep`'s errors: the empty selection first, then every axis
      entry of a truthy `axes`, in order. */
  function MechanicsErrors(config: Json, selected: seq<string>, schema: Json -> seq<string>): seq<string>
  {
    (if selected == [] then [NoAxisSelected] else []) + FlatMap(EntriesOf(Prop(config, "axes")), AxisRule(schema))
  }

  /** An axis entry is accepted by the schema and has positive steps and
      rate. */
  predicate AxisOk(schema: Json -> seq<string>, e: Field)
  {
    schema(e.val) == [] && !NotPositive(Prop(e.val, "steps_per_mm")) && !NotPositive(Prop(e.val, "max_rate_mm_per_min"))
  }

  /** `validateStep`: the errors, and validity, which also needs a
      non-empty selection. */
  method ValidateStep(config: Json, selected: seq<string>, schema: Json -> seq<string>)
    returns (errors: seq<string>, isValid: bool)
    ensures errors == MechanicsErrors(config, selected, schema)
    ensures isValid <==> errors == [] && selected != []
  {
    errors := [];
    if |selected| == 0 {
      errors := errors + [NoAxisSelected];
    }
    var head := errors;
    assert head == if selected == [] then [NoAxisSelected] else [];
    var axes := Prop(config, "axes");
    ghost var all := EntriesOf(axes);
    if Present(axes) {
      errors := ForEachPush(errors, SpreadFields(axes.value), AxisRule(schema));
    } else {
      assert all == [];
    }
    isValid := |errors| == 0 && |selected| > 0;
  }

  /** There is no error exactly when some axis is selected and every axis
      entry is accepted with positive steps and rate. */
  lemma ErrorsEmptyIff(config: Json, selected: seq<string>, schema: Json -> seq<string>)
    ensures var entries := EntriesOf(Prop(config, "axes"));
            MechanicsErrors(config, selected, schema) == []
            <==> selected != [] && forall i :: 0 <= i < |entries| ==> AxisOk(schema, entries[i])
  {
    var entries := EntriesOf(Prop(config, "axes"));
    FlatMapEmpty(entries, AxisRule(schema));
  }

  /** An empty selection reports its error first and the step is invalid
      whatever the axes hold. */
  lemma EmptySelectionFirst(config: Json, schema: Json -> seq<string>)
    ensures |MechanicsErrors(config, [], schema)| > 0 && MechanicsErrors(config, [], schema)[0] == NoAxisSelected
  {
  }

  /** An axis with missing or non-positive steps, or rate, is named in an
      error. */
  lemma BadAxisReported(config: Json, selected: seq<string>, schema: Json -> seq<string>, i: nat)
    requires i < |EntriesOf(Prop(config, "axes"))|
    ensures var e := EntriesOf(Prop(config, "axes"))[i];
            (NotPositive(Prop(e.val, "steps_per_mm")) ==> StepsError(e.key) in MechanicsErrors(config, selected, schema))
            && (NotPositive(Prop(e.val, "max_rate_mm_per_min")) ==> RateError(e.key) in MechanicsErrors(config, selected, schema))
  {
    var entries := EntriesOf(Prop(config, "axes"));
    var e := entries[i];
    FlatMapHas(entries, AxisRule(schema), StepsError(e.key));
    FlatMapHas(entries, AxisRule(schema), RateError(e.key));
  }

  // ---------------------------------------------------------------------
  // Handlers

  /** The axis installed when an absent axis is switched on. */
  const DefaultAxis: Json := JObj([
    Field("steps_per_mm", JNum(80.0)),
    Field("max_rate_mm_per_min", JNum(5000.0)),
    Field("acceleration_mm_per_sec2", JNum(100.0)),
    Field("max_travel_mm", JNum(300.0)),
    Field("soft_limits", JBool(true))
  ])

  /** The default axis has the step's required settings, so switching an
      axis on adds no steps or rate error. */
  lemma DefaultAxisIsComplete()
    ensures Prop(DefaultAxis, "steps_per_mm") == Some(JNum(80.0))
    ensures Prop(DefaultAxis, "max_rate_mm_per_min") == Some(JNum(5000.0))
    ensures !NotPositive(Prop(DefaultAxis, "steps_per_mm")) && !NotPositive(Prop(DefaultAxis, "max_rate_mm_per_min"))
  {
  }

  /** A selection change and the configuration update it sends. */
  datatype Toggled = Toggled(selected: seq<string>, update: seq<Field>)

  /** The copied axes after the toggle: an axis now selected gets the
      default only when its entry is falsy, an axis no longer selected is
      deleted. */
  function ToggledAxes(axes: Option<Json>, selected: seq<string>, name: string): seq<Field>
  {
    var newAxes := SpreadOf(axes);
    if name in selected then
      if !Present(Lookup(newAxes, name)) then Put(newAxes, name, DefaultAxis) else newAxes
    else Remove(newAxes, name)
  }

  /** `handleAxisToggle(name)`. */
  function HandleAxisToggle(config: Json, selected: seq<string>, name: string): (r: Toggled)
    ensures r.selected == Toggle(selected, name)
    ensures r.update == [Field("axes", JObj(ToggledAxes(Prop(config, "axes"), r.selected, name)))]
  {
    var selected' := Toggle(selected, name);
    Toggled(selected', [Field("axes", JObj(ToggledAxes(Prop(config, "axes"), selected', name)))])
  }

  /** What the toggle does to the axes: switching on keeps an axis already
      configured and installs the default for a falsy one; switching off
      deletes it; other axes are copied. */
  lemma AxisToggleEffect(config: Json, selected: seq<string>, name: string, k: string)
    ensures var before := SpreadOf(Prop(config, "axes"));
            var r := HandleAxisToggle(config, selected, name);
            var axes := r.update[0].val.fields;
            (name in r.selected <==> name !in selected)
            && (name !in selected && Present(Lookup(before, name)) ==> Lookup(axes, name) == Lookup(before, name))
            && (name !in selected && !Present(Lookup(before, name)) ==> Lookup(axes, name) == Some(DefaultAxis))
            && (name in selected ==> Lookup(axes, name).None?)
            && (k != name ==> Lookup(axes, k) == Lookup(before, k))
  {
    var before := SpreadOf(Prop(config, "axes"));
    ToggleFlips(selected, name, name);
    LookupPut(before, name, DefaultAxis, k);
    LookupPut(before, name, DefaultAxis, name);
    LookupRemove(before, name, k);
    LookupRemove(before, name, name);
  }

  /** `handleAxisConfigChange(name, field, value)`. */
  function HandleAxisConfigChange(config: Json, name: string, field: string, value: Json): (update: seq<Field>)
    ensures update == [Field("axes", JObj(SetIn(Prop(config, "axes"), name, field, value)))]
  {
    [Field("axes", JObj(SetIn(Prop(config, "axes"), name, field, value)))]
  }

  /** Only the named field of the named axis changes. */
  lemma AxisConfigChangeOnly(config: Json, name: string, field: string, value: Json, k: string, f: string)
    requires config.JObj? && Prop(config, "axes").Some? && Prop(config, "axes").value.JObj?
    ensures var axes := Prop(config, "axes").value.fields;
            var axes' := HandleAxisConfigChange(config, name, field, value)[0].val.fields;
            Lookup(axes', name).Some? && Lookup(axes', name).value.JObj?
            && Lookup(Lookup(axes', name).value.fields, field) == Some(value)
            && (f != field ==> Lookup(Lookup(axes', name).value.fields, f) == Lookup(SpreadOf(Lookup(axes, name)), f))
            && (k != name ==> Lookup(axes', k) == Lookup(axes, k))
  {
    var o := Prop(config, "axes");
    SetInLookup(o, name, field, value, k, f);
    SetInLookup(o, name, field, value, k, field);
  }
}
