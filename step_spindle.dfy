/** The spindle step: an optional spindle section, checked only while the
    user has the spindle switched on. */
module SpindleStep {
  import opened Wrappers
  import opened Strings
  import opened JsonTree
  import opened StepCommon
  import Wizard

  const SpindleRequired: string := "Spindle configuration is required when spindle is enabled"
  const PwmNotPositive: string := "PWM frequency must be positive"
  const OutputPinRequired: string := "Output pin is required for spindle control"

  /** The speed map is checked when it is a string with something other
      than white space in it. */
  predicate SpeedMapGiven(s: Json)
  {
    var m := Prop(s, "speed_map");
    m.Some? && m.value.JStr? && !IsBlank(m.value.s)
  }

  /** The speed-map error, if the map is given and its check rejects it.
      `speedMap` stands for `validateSpeedMap`: the error, none when valid. */
  function SpeedMapErrors(s: Json, speedMap: string -> Option<string>): seq<string>
  {
    if SpeedMapGiven(s) && speedMap(Prop(s, "speed_map").value.s).Some? then
      ["Speed map: " + speedMap(Prop(s, "speed_map").value.s).value]
    else []
  }

  /** The checks of a present spindle section: the schema's issues, a set
      but non-positive PWM frequency, a falsy output pin, then the speed
      map. `schema` gives the issue messages of the spindle schema. */
  function SectionErrors(s: Json, schema: Json -> seq<string>, speedMap: string -> Option<string>): seq<string>
  {
    Prefixed("Spindle: ", schema(s)) + PwmErrors(s) + OutputPinErrors(s) + SpeedMapErrors(s, speedMap)
  }

  function PwmErrors(s: Json): seq<string>
  {
    if SetButNotPositive(Prop(s, "pwm_hz")) then [PwmNotPositive] else []
  }

  function OutputPinErrors(s: Json): seq<string>
  {
    if !Present(Prop(s, "output_pin")) then [OutputPinRequired] else []
  }

  /** `validateStep`'s errors. */
  function SpindleErrors(config: Json, enabled: bool, schema: Json -> seq<string>, speedMap: string -> Option<string>): seq<string>
  {
    var s := Prop(config, "spindle");
    if !enabled then []
    else if !Present(s) then [SpindleRequired]
    else SectionErrors(s.value, schema, speedMap)
  }

  /** `validateStep`: a switched-off spindle is always valid; a switched-on
      one is valid exactly when nothing was reported. */
  method ValidateStep(config: Json, enabled: bool, schema: Json -> seq<string>, speedMap: string -> Option<string>)
    returns (errors: seq<string>, isValid: bool)
    ensures errors == SpindleErrors(config, enabled, schema, speedMap)
    ensures isValid <==> !enabled || errors == []
  {
    errors := [];
    var s := Prop(config, "spindle");
    if enabled {
      if !Present(s) {
        errors := errors + [SpindleRequired];
      } else {
        errors := CheckSection(errors, s.value, schema, speedMap);
      }
    }
    isValid := !enabled || |errors| == 0;
  }

  /** The checks of a present section, pushed in order. */
  method CheckSection(errors: seq<string>, spindle: Json, schema: Json -> seq<string>, speedMap: string -> Option<string>)
    returns (errors': seq<string>)
    ensures errors' == errors + SectionErrors(spindle, schema, speedMap)
  {
    errors' := PushPrefixed(errors, "Spindle: ", schema(spindle));
    ghost var p := Prefixed("Spindle: ", schema(spindle));
    ghost var e1 := errors';
    if SetButNotPositive(Prop(spindle, "pwm_hz")) {
      errors' := errors' + [PwmNotPositive];
    }
    assert errors' == e1 + PwmErrors(spindle);
    ghost var e2 := errors';
    if !Present(Prop(spindle, "output_pin")) {
      errors' := errors' + [OutputPinRequired];
    }
    assert errors' == e2 + OutputPinErrors(spindle);
    ghost var e3 := errors';
    var m := Prop(spindle, "speed_map");
    if m.Some? && m.value.JStr? && JsTrim(m.value.s) != "" {
      BlankIffTrimEmpty(m.value.s);
      var check := speedMap(m.value.s);
      if check.Some? {
        errors' := errors' + ["Speed map: " + check.value];
      }
    } else if m.Some? && m.value.JStr? {
      BlankIffTrimEmpty(m.value.s);
    }
    assert errors' == e3 + SpeedMapErrors(spindle, speedMap);
    Associate(errors, p, PwmErrors(spindle), OutputPinErrors(spindle), SpeedMapErrors(spindle, speedMap));
  }

  lemma Associate(a: seq<string>, b: seq<string>, c: seq<string>, d: seq<string>, e: seq<string>)
    ensures a + b + c + d + e == a + (b + c + d + e)
  {
  }

  /** A switched-on spindle section passes exactly when the schema accepts
      it, its PWM frequency is not set to a non-positive value, it has an
      output pin, and a given speed map passes its check. */
  lemma SectionIff(s: Json, schema: Json -> seq<string>, speedMap: string -> Option<string>)
    ensures SectionErrors(s, schema, speedMap) == [] <==>
              schema(s) == [] && !SetButNotPositive(Prop(s, "pwm_hz")) && Present(Prop(s, "output_pin"))
              && (SpeedMapGiven(s) ==> speedMap(Prop(s, "speed_map").value.s).None?)
  {
    assert |Prefixed("Spindle: ", schema(s))| == |schema(s)|;
  }

  /** With the spindle switched on, a missing section is the one error. */
  lemma MissingSectionAlone(config: Json, schema: Json -> seq<string>, speedMap: string -> Option<string>)
    requires !Present(Prop(config, "spindle"))
    ensures SpindleErrors(config, true, schema, speedMap) == [SpindleRequired]
    ensures SpindleErrors(config, false, schema, speedMap) == []
  {
  }

  // ---------------------------------------------------------------------
  // Handlers

  /** The section installed when the spindle is switched on. */
  const DefaultSpindle: Json := JObj([
    Field("type", JStr("PWM")),
    Field("pwm_hz", JNum(1000.0)),
    Field("output_pin", JStr("")),
    Field("enable_pin", JStr("")),
    Field("direction_pin", JStr("")),
    Field("speed_map", JStr("")),
    Field("spinup_ms", JNum(1000.0)),
    Field("spindown_ms", JNum(1000.0)),
    Field("tool_num", JNum(0.0)),
    Field("off_on_alarm", JBool(true))
  ])

  lemma DefaultOutputPinField()
    ensures Lookup(DefaultSpindle.fields, "output_pin") == Some(JStr(""))
  {
    var fs := DefaultSpindle.fields;
    assert "output_pin"[0] != "type"[0] && "output_pin"[0] != "pwm_hz"[0];
    assert fs[1..][1..][0] == Field("output_pin", JStr(""));
    assert Lookup(fs, "output_pin") == Lookup(fs[1..], "output_pin") == Lookup(fs[1..][1..], "output_pin");
  }

  /** The default section has a blank output pin, so switching the spindle
      on reports the missing pin (`MissingOutputPinReported`) until one is
      chosen. */
  lemma DefaultNeedsOutputPin()
    ensures Prop(DefaultSpindle, "output_pin") == Some(JStr("")) && !Present(Prop(DefaultSpindle, "output_pin"))
  {
    DefaultOutputPinField();
  }

  /** A section without a truthy output pin is reported. */
  lemma MissingOutputPinReported(s: Json, schema: Json -> seq<string>, speedMap: string -> Option<string>)
    requires !Present(Prop(s, "output_pin"))
    ensures OutputPinRequired in SectionErrors(s, schema, speedMap)
  {
    var head := Prefixed("Spindle: ", schema(s)) + PwmErrors(s);
    assert SectionErrors(s, schema, speedMap) == head + [OutputPinRequired] + SpeedMapErrors(s, speedMap);
  }

  /** A switch of the spindle and the configuration update it sends. */
  datatype Switched = Switched(enabled: bool, update: seq<Field>)

  /** `handleSpindleToggle(enabled)` as written: switching on sends the
      default section; switching off sends a copy of the whole
      configuration with the spindle deleted. */
  function HandleSpindleToggleAsWritten(config: Json, enabled: bool): (r: Switched)
    ensures r.enabled == enabled
    ensures enabled ==> r.update == [Field("spindle", DefaultSpindle)]
    ensures !enabled ==> !HasKey(r.update, "spindle")
  {
    if enabled then Switched(true, [Field("spindle", DefaultSpindle)])
    else
      HasKeyRemove(SpreadFields(config), "spindle", "spindle");
      Switched(false, Remove(SpreadFields(config), "spindle"))
  }

  /** The wizard merges updates into its configuration, and a merge cannot
      delete a key: after switching the spindle off the old section is still
      there. */
  lemma SwitchOffKeepsSection(config: seq<Field>)
    ensures var update := HandleSpindleToggleAsWritten(JObj(config), false).update;
            Lookup(Merge(config, update), "spindle") == Lookup(config, "spindle")
  {
    var update := HandleSpindleToggleAsWritten(JObj(config), false).update;
    Wizard.UpdateKeepsOthers(config, update, "spindle");
  }

  /** A concrete configuration the switch-off leaves with its spindle. */
  lemma SwitchOffCounterexample()
    ensures var config := [Field("spindle", DefaultSpindle)];
            Lookup(Merge(config, HandleSpindleToggleAsWritten(JObj(config), false).update), "spindle")
              == Some(DefaultSpindle)
  {
    SwitchOffKeepsSection([Field("spindle", DefaultSpindle)]);
  }

  /** `handleSpindleToggle(enabled)` with switching off corrected to send
      `{ spindle: undefined }`, written here as `null`, which the merge does
      store. */
  function HandleSpindleToggle(enabled: bool): (r: Switched)
    ensures r.enabled == enabled
  {
    if enabled then Switched(true, [Field("spindle", DefaultSpindle)])
    else Switched(false, [Field("spindle", JNull)])
  }

  /** After the corrected switch the merged configuration has the default
      section when switched on and no truthy section when switched off;
      every other key is kept. */
  lemma SwitchEffect(config: seq<Field>, enabled: bool, k: string)
    ensures var merged := Merge(config, HandleSpindleToggle(enabled).update);
            (enabled ==> Lookup(merged, "spindle") == Some(DefaultSpindle))
            && (!enabled ==> !Present(Lookup(merged, "spindle")))
            && (k != "spindle" ==> Lookup(merged, k) == Lookup(config, k))
  {
    var update := HandleSpindleToggle(enabled).update;
    assert DistinctKeys(update) && HasKey(update, "spindle");
    Wizard.UpdateReplaces(config, update, "spindle");
    if k != "spindle" {
      Wizard.UpdateKeepsOthers(config, update, k);
    }
  }

  /** `handleSpindleConfigChange(field, value)`. */
  function HandleSpindleConfigChange(config: Json, field: string, value: Json): seq<Field>
  {
    [Field("spindle", JObj(SpreadSet(Prop(config, "spindle"), field, value)))]
  }

  /** One field of the section is set; its other fields are copied. */
  lemma SpindleConfigChangeOnly(config: Json, field: string, value: Json, f: string)
    ensures var s := HandleSpindleConfigChange(config, field, value)[0].val.fields;
            Lookup(s, field) == Some(value)
            && (f != field ==> Lookup(s, f) == Lookup(SpreadOf(Prop(config, "spindle")), f))
  {
    SpreadSetLookup(Prop(config, "spindle"), field, value, f);
    SpreadSetLookup(Prop(config, "spindle"), field, value, field);
  }
}
