/** The SD card step: pin conflicts across the whole configuration, then the
    five SD card pins. */
module SdStep {
  import opened Wrappers
  import opened Strings
  import opened JsonTree
  import opened PinUtils
  import opened PinManager
  import opened StepCommon

  const SdFields: seq<string> := ["card_detect_pin", "miso_pin", "mosi_pin", "sck_pin", "cs_pin"]

  /** `field.replace('_', ' ')`: the first underscore becomes a space. */
  function Label(field: string): string
  {
    ReplaceFirst(field, "_", " ")
  }

  /** Only the first underscore is replaced. */
  lemma {:induction false} LabelOf(a: string, b: string)
    requires '_' !in a
    ensures Label(a + "_" + b) == a + " " + b
    decreases |a|
  {
    if a == [] {
      assert a + "_" + b == "_" + b;
      ReplaceFirstOfPrefix("_", b, " ");
    } else {
      assert (a + "_" + b)[..1] == [a[0]] && a[0] != '_';
      assert !StartsWith(a + "_" + b, "_");
      assert (a + "_" + b)[1..] == a[1..] + "_" + b;
      LabelOf(a[1..], b);
      assert [a[0]] + (a[1..] + " " + b) == a + " " + b;
    }
  }

  /** The card-detect pin is shown as "card detect_pin". */
  lemma CardDetectLabel()
    ensures Label("card_detect_pin") == "card detect_pin"
  {
    assert "card_detect_pin" == "card" + "_" + "detect_pin";
    assert "card" + " " + "detect_pin" == "card detect_pin";
    LabelOf("card", "detect_pin");
  }

  /** A pin that is checked: a non-empty string with something other than
      white space in it. */
  predicate PinGiven(pin: Option<Json>)
  {
    pin.Some? && pin.value.JStr? && pin.value.s != "" && !IsBlank(pin.value.s)
  }

  /** The error of one SD pin: a given pin that the pin editor's validation
      rejects, with the validator's first message. */
  function PinErrors(config: Json, sd: Json, field: string): seq<string>
  {
    var pin := Prop(sd, field);
    if PinGiven(pin) then
      var v := ValidatePinAssignment(pin.value.s, "sd." + field, config);
      if !v.isValid then [Label(field) + ": " + v.errors[0]] else []
    else []
  }

  function PinRule(config: Json, sd: Json): string -> seq<string>
  {
    field => PinErrors(config, sd, field)
  }

  /** `validateStep`'s errors: the conflicts, then the pins of a truthy
      `sd`. */
  function SdErrors(config: Json): seq<string>
  {
    var sd := Prop(config, "sd");
    (if HasPinConflicts(config) then ConflictMessages(config) else [])
    + (if Present(sd) then FlatMap(SdFields, PinRule(config, sd.value)) else [])
  }

  /** `validateStep`: valid exactly when nothing was reported. */
  method ValidateStep(config: Json) returns (errors: seq<string>, isValid: bool)
    ensures errors == SdErrors(config)
    ensures isValid <==> errors == []
  {
    errors := PushConflicts(config);
    var sd := Prop(config, "sd");
    if Present(sd) {
      errors := ForEachPush(errors, SdFields, PinRule(config, sd.value));
    }
    isValid := |errors| == 0;
  }

  /** An SD pin the step accepts. */
  predicate PinOk(config: Json, sd: Json, field: string)
  {
    var pin := Prop(sd, field);
    PinGiven(pin) ==> ValidatePinAssignment(pin.value.s, "sd." + field, config).isValid
  }

  /** The step is valid exactly when no pin is used twice and every given
      SD pin is accepted. */
  lemma ValidIff(config: Json)
    ensures var sd := Prop(config, "sd");
            SdErrors(config) == [] <==>
              !HasPinConflicts(config)
              && (Present(sd) ==> forall i :: 0 <= i < |SdFields| ==> PinOk(config, sd.value, SdFields[i]))
  {
    var sd := Prop(config, "sd");
    if Present(sd) {
      FlatMapEmpty(SdFields, PinRule(config, sd.value));
    }
    if HasPinConflicts(config) {
      assert |ConflictMessages(config)| > 0;
    }
  }

  /** `handleSDConfigChange(field, value)`. */
  function HandleSDConfigChange(config: Json, field: string, value: string): seq<Field>
  {
    FieldEdit(config, "sd", field, JStr(value))
  }

  /** Clearing the only SD pin sends the empty update, and the merge keeps
      the pin. */
  lemma ClearingLastPinKept(config: seq<Field>, field: string, v: Json)
    requires Lookup(config, "sd") == Some(JObj([Field(field, v)]))
    ensures HandleSDConfigChange(JObj(config), field, "") == []
    ensures Merge(config, HandleSDConfigChange(JObj(config), field, "")) == config
  {
    ClearingLastFieldKept(config, "sd", field, v);
  }
}
