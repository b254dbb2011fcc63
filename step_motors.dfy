/** The motors step: every configured axis needs a first motor with step
    and direction pins and a TMC driver section; the handlers edit one
    motor field, one driver field, or switch the driver type. */
module MotorsStep {
  import opened Wrappers
  import opened Strings
  import opened JsonTree
  import opened StepCommon

  function MotorMissing(name: string): string { name + " axis: motor configuration is required" }
  function StepPinMissing(name: string): string { name + " axis motor: step_pin is required" }
  function DirectionPinMissing(name: string): string { name + " axis motor: direction_pin is required" }
  function DriverMissing(name: string): string { name + " axis motor: TMC driver configuration is required" }
  function CsPinMissing(name: string): string { name + " axis TMC2130: cs_pin is required" }
  function Amps2130(name: string): string { name + " axis TMC2130: run_amps must be positive" }
  function Amps2209(name: string): string { name + " axis TMC2209: run_amps must be positive" }

  /** The errors of one axis entry: a falsy `motor0` is one error and ends
      the checks; otherwise the step pin, the direction pin, the presence of
      a driver section, then the TMC2130 section's chip-select pin and
      current, then the TMC2209 section's current. */
  function MotorErrors(e: Field): seq<string>
  {
    var name := e.key;
    var m := Prop(e.val, "motor0");
    if !Present(m) then [MotorMissing(name)]
    else
      var t1 := Prop(m.value, "tmc_2130");
      var t2 := Prop(m.value, "tmc_2209");
      (if !Present(Prop(m.value, "step_pin")) then [StepPinMissing(name)] else [])
      + (if !Present(Prop(m.value, "direction_pin")) then [DirectionPinMissing(name)] else [])
      + (if !Present(t1) && !Present(t2) then [DriverMissing(name)] else [])
      + (if Present(t1) && !Present(Get(t1, "cs_pin")) then [CsPinMissing(name)] else [])
      + (if Present(t1) && NotPositive(Get(t1, "run_amps")) then [Amps2130(name)] else [])
      + (if Present(t2) && NotPositive(Get(t2, "run_amps")) then [Amps2209(name)] else [])
  }

  /** `validateStep`'s errors. */
  function MotorsErrors(config: Json): seq<string>
  {
    if NoAxes(config) then [NoAxesError] else FlatMap(EntriesOf(Prop(config, "axes")), MotorErrors)
  }

  /** `validateStep`: without axes a single error and an invalid step;
      otherwise every axis entry is checked, and the step is valid exactly
      when nothing was reported. */
  method ValidateStep(config: Json) returns (errors: seq<string>, isValid: bool)
    ensures errors == MotorsErrors(config)
    ensures isValid <==> errors == []
  {
    var axes := Prop(config, "axes");
    if !Present(axes) || |KeysOf(axes.value)| == 0 {
      return [NoAxesError], false;
    }
    errors := ForEachPush([], SpreadFields(axes.value), MotorErrors);
    isValid := |errors| == 0;
  }

  /** A motor the step accepts. */
  predicate MotorComplete(e: Field)
  {
    var m := Prop(e.val, "motor0");
    Present(m)
    && Present(Prop(m.value, "step_pin")) && Present(Prop(m.value, "direction_pin"))
    && (Present(Prop(m.value, "tmc_2130")) || Present(Prop(m.value, "tmc_2209")))
    && (Present(Prop(m.value, "tmc_2130")) ==>
          Present(Get(Prop(m.value, "tmc_2130"), "cs_pin")) && !NotPositive(Get(Prop(m.value, "tmc_2130"), "run_amps")))
    && (Present(Prop(m.value, "tmc_2209")) ==> !NotPositive(Get(Prop(m.value, "tmc_2209"), "run_amps")))
  }

  lemma MotorErrorsEmptyIff(e: Field)
    ensures MotorErrors(e) == [] <==> MotorComplete(e)
  {
  }

  /** Without axes there is exactly one error; with axes the step is valid
      exactly when every axis has a complete motor. */
  lemma ValidIff(config: Json)
    ensures NoAxes(config) ==> MotorsErrors(config) == [NoAxesError]
    ensures !NoAxes(config) ==>
              var entries := EntriesOf(Prop(config, "axes"));
              (MotorsErrors(config) == [] <==> forall i :: 0 <= i < |entries| ==> MotorComplete(entries[i]))
  {
    if !NoAxes(config) {
      var entries := EntriesOf(Prop(config, "axes"));
      FlatMapEmpty(entries, MotorErrors);
      forall i | 0 <= i < |entries| {
        MotorErrorsEmptyIff(entries[i]);
      }
    }
  }

  /** An axis without a motor gets that one error and no other. */
  lemma MissingMotorAlone(e: Field)
    requires !Present(Prop(e.val, "motor0"))
    ensures MotorErrors(e) == [MotorMissing(e.key)]
  {
  }

  // ---------------------------------------------------------------------
  // Handlers

  /** `{ ...config.axes, [name]: { ...config.axes?.[name], motor0: motor } }`. */
  function WithMotor(config: Json, name: string, motor: Json): seq<Field>
  {
    SetIn(Prop(config, "axes"), name, "motor0", motor)
  }

  /** `handleMotorConfigChange(name, field, value)`. */
  function HandleMotorConfigChange(config: Json, name: string, field: string, value: Json): seq<Field>
  {
    var axes := Prop(config, "axes");
    [Field("axes", JObj(WithMotor(config, name, JObj(SpreadSet(Get(Get(axes, name), "motor0"), field, value)))))]
  }

  /** `config.axes?.[name]?.motor0 || {}`. */
  function CurrentMotor(config: Json, name: string): Json
  {
    Or(Get(Get(Prop(config, "axes"), name), "motor0"), EmptyObj)
  }

  /** `handleTMCConfigChange(name, driver, field, value)`. */
  function HandleTMCConfigChange(config: Json, name: string, driver: string, field: string, value: Json): seq<Field>
  {
    [Field("axes", JObj(WithMotor(config, name, JObj(SetIn(Some(CurrentMotor(config, name)), driver, field, value)))))]
  }

  /** The section installed for a newly chosen driver. */
  function DriverDefault(driver: string): Json
  {
    JObj([Field("run_amps", JNum(1.0)), Field("microsteps", JNum(16.0))]
         + (if driver == "tmc_2130" then [Field("cs_pin", JStr(""))] else []))
  }

  /** The copied motor with both driver sections dropped and the chosen one
      set to its default. */
  function SwitchedMotor(motor: Json, driver: string): seq<Field>
  {
    Put(Remove(Remove(SpreadFields(motor), "tmc_2130"), "tmc_2209"), driver, DriverDefault(driver))
  }

  /** `handleDriverTypeChange(name, driver)`. */
  function HandleDriverTypeChange(config: Json, name: string, driver: string): seq<Field>
    requires driver == "tmc_2130" || driver == "tmc_2209"
  {
    [Field("axes", JObj(WithMotor(config, name, JObj(SwitchedMotor(CurrentMotor(config, name), driver)))))]
  }

  /** The new default has a current of 1 A and 16 microsteps, and a blank
      chip-select pin exactly for the TMC2130. */
  lemma DriverDefaultFields(driver: string)
    ensures Prop(DriverDefault(driver), "run_amps") == Some(JNum(1.0))
    ensures Prop(DriverDefault(driver), "microsteps") == Some(JNum(16.0))
    ensures Prop(DriverDefault(driver), "cs_pin").Some? <==> driver == "tmc_2130"
  {
    var fs := DriverDefault(driver).fields;
    assert "microsteps"[0] != "run_amps"[0] && "cs_pin"[0] != "run_amps"[0] && "cs_pin"[0] != "microsteps"[0];
    assert fs[0].key == "run_amps" && fs[1].key == "microsteps";
    var tail := if driver == "tmc_2130" then [Field("cs_pin", JStr(""))] else [];
    assert fs[1..][1..] == tail;
    assert Lookup(fs, "microsteps") == Lookup(fs[1..], "microsteps") == Some(JNum(16.0));
    assert Lookup(fs, "cs_pin") == Lookup(fs[1..], "cs_pin") == Lookup(tail, "cs_pin");
  }

  /** Switching the driver leaves exactly the chosen section, at its
      default, and keeps every other motor field. */
  lemma SwitchedMotorEffect(motor: Json, driver: string, k: string)
    requires driver == "tmc_2130" || driver == "tmc_2209"
    ensures Lookup(SwitchedMotor(motor, driver), driver) == Some(DriverDefault(driver))
    ensures var other := if driver == "tmc_2130" then "tmc_2209" else "tmc_2130";
            Lookup(SwitchedMotor(motor, driver), other).None?
    ensures k != "tmc_2130" && k != "tmc_2209" ==> Lookup(SwitchedMotor(motor, driver), k) == Lookup(SpreadFields(motor), k)
  {
    var fs := SpreadFields(motor);
    var once := Remove(fs, "tmc_2130");
    var twice := Remove(once, "tmc_2209");
    var other := if driver == "tmc_2130" then "tmc_2209" else "tmc_2130";
    LookupPut(twice, driver, DriverDefault(driver), driver);
    LookupPut(twice, driver, DriverDefault(driver), other);
    LookupPut(twice, driver, DriverDefault(driver), k);
    LookupRemove(once, "tmc_2209", other);
    LookupRemove(fs, "tmc_2130", other);
    LookupRemove(once, "tmc_2209", k);
    LookupRemove(fs, "tmc_2130", k);
  }

  /** The motor is installed under the named axis: the axis's other fields
      and the other axes are copied. */
  lemma WithMotorEffect(config: Json, name: string, motor: Json, k: string, f: string)
    ensures var axes := Prop(config, "axes");
            var axes' := WithMotor(config, name, motor);
            Lookup(axes', name) == Some(JObj(SpreadSet(Get(axes, name), "motor0", motor)))
            && Lookup(SpreadSet(Get(axes, name), "motor0", motor), "motor0") == Some(motor)
            && (f != "motor0" ==> Lookup(SpreadSet(Get(axes, name), "motor0", motor), f) == Lookup(SpreadOf(Get(axes, name)), f))
            && (k != name ==> Lookup(axes', k) == Lookup(SpreadOf(axes), k))
  {
    var axes := Prop(config, "axes");
    SetInLookup(axes, name, "motor0", motor, k, f);
    SpreadSetLookup(Get(axes, name), "motor0", motor, "motor0");
  }

  /** `handleMotorConfigChange` sets the one motor field, copying the
      motor's other fields. */
  lemma MotorConfigChangeOnly(config: Json, name: string, field: string, value: Json, f: string)
    ensures var old0 := Get(Get(Prop(config, "axes"), name), "motor0");
            var motor := SpreadSet(old0, field, value);
            HandleMotorConfigChange(config, name, field, value)
              == [Field("axes", JObj(WithMotor(config, name, JObj(motor))))]
            && Lookup(motor, field) == Some(value)
            && (f != field ==> Lookup(motor, f) == Lookup(SpreadOf(old0), f))
  {
    var old0 := Get(Get(Prop(config, "axes"), name), "motor0");
    SpreadSetLookup(old0, field, value, f);
    SpreadSetLookup(old0, field, value, field);
  }

  /** `handleTMCConfigChange` sets the one field of the one driver
      section, copying the section's other fields and the motor's other
      fields. */
  lemma TMCConfigChangeOnly(config: Json, name: string, driver: string, field: string, value: Json, k: string, f: string)
    ensures var current := Some(CurrentMotor(config, name));
            var motor := SetIn(current, driver, field, value);
            Lookup(motor, driver) == Some(JObj(SpreadSet(Get(current, driver), field, value)))
            && Lookup(SpreadSet(Get(current, driver), field, value), field) == Some(value)
            && (f != field ==> Lookup(SpreadSet(Get(current, driver), field, value), f) == Lookup(SpreadOf(Get(current, driver)), f))
            && (k != driver ==> Lookup(motor, k) == Lookup(SpreadOf(current), k))
  {
    var current := Some(CurrentMotor(config, name));
    SetInLookup(current, driver, field, value, k, f);
    SetInLookup(current, driver, field, value, k, field);
  }
}
