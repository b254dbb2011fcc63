/** The IO step: probe, coolant and macro-button pins, all optional; a pin
    that is given must have the pin format. */
module IoStep {
  import opened Wrappers
  import opened Strings
  import opened JsonTree
  import opened PinUtils
  import opened StepCommon

  const PinFields: seq<string> :=
    ["probe_pin", "flood_pin", "mist_pin", "macro0_pin", "macro1_pin", "macro2_pin", "macro3_pin"]

  function FormatError(field: string): string
  {
    field + ": Invalid GPIO pin format. Use format like 'gpio.25'"
  }

  /** A pin that is checked: a non-empty string with something other than
      white space in it. */
  predicate PinGiven(pin: Option<Json>)
  {
    pin.Some? && pin.value.JStr? && pin.value.s != "" && !IsBlank(pin.value.s)
  }

  /** The error of one pin field: a given pin without the pin format. */
  function PinFieldErrors(io: Json, field: string): seq<string>
  {
    var pin := Prop(io, field);
    if PinGiven(pin) && !IsPinFormat(pin.value.s) then [FormatError(field)] else []
  }

  function PinFieldRule(io: Json): string -> seq<string>
  {
    field => PinFieldErrors(io, field)
  }

  /** `validateStep`'s errors: the pin fields of a truthy `io`, in order. */
  function IoErrors(config: Json): seq<string>
  {
    var io := Prop(config, "io");
    if Present(io) then FlatMap(PinFields, PinFieldRule(io.value)) else []
  }

  /** `validateStep`: valid exactly when no pin was reported. */
  method ValidateStep(config: Json) returns (errors: seq<string>, isValid: bool)
    ensures errors == IoErrors(config)
    ensures isValid <==> errors == []
  {
    errors := [];
    var io := Prop(config, "io");
    if Present(io) {
      errors := ForEachPush(errors, PinFields, PinFieldRule(io.value));
    }
    isValid := |errors| == 0;
  }

  /** The step is valid exactly when every given pin of a truthy `io` has
      the pin format; a blank or missing pin is never an error. */
  lemma ValidIff(config: Json)
    ensures var io := Prop(config, "io");
            IoErrors(config) == [] <==>
              (Present(io) ==> forall i :: 0 <= i < |PinFields| ==>
                 PinGiven(Prop(io.value, PinFields[i])) ==> IsPinFormat(Prop(io.value, PinFields[i]).value.s))
  {
    var io := Prop(config, "io");
    if Present(io) {
      FlatMapEmpty(PinFields, PinFieldRule(io.value));
    }
  }

  /** A string pin that is blank is skipped, whatever it holds. */
  lemma BlankPinSkipped(io: Json, field: string)
    requires Prop(io, field).Some? && Prop(io, field).value.JStr? && JsTrim(Prop(io, field).value.s) == ""
    ensures PinFieldErrors(io, field) == []
  {
    BlankIffTrimEmpty(Prop(io, field).value.s);
  }

  // ---------------------------------------------------------------------
  // The edit handler

  /** The fields of `fs` except those whose key is in `done` and whose value
      is falsy. */
  function KeepTruthy(fs: seq<Field>, done: set<string>): (r: seq<Field>)
    ensures |r| <= |fs|
  {
    if fs == [] then []
    else (if fs[0].key in done && !Truthy(fs[0].val) then [] else [fs[0]]) + KeepTruthy(fs[1..], done)
  }

  /** A key outside `done` reads as before. */
  lemma {:induction false} LookupKeepOutside(fs: seq<Field>, done: set<string>, k: string)
    requires k !in done
    ensures Lookup(KeepTruthy(fs, done), k) == Lookup(fs, k)
  {
    if fs != [] {
      var rest := KeepTruthy(fs[1..], done);
      LookupKeepOutside(fs[1..], done, k);
      if fs[0].key in done && !Truthy(fs[0].val) {
        assert KeepTruthy(fs, done) == rest;
      } else {
        assert KeepTruthy(fs, done) == [fs[0]] + rest;
        assert ([fs[0]] + rest)[1..] == rest;
      }
    }
  }

  /** Dropping a key whose value is falsy takes it into `done`. */
  lemma {:induction false} RemoveFalsy(fs: seq<Field>, done: set<string>, k: string)
    requires DistinctKeys(fs) && k !in done && HasKey(fs, k) && !Present(Lookup(fs, k))
    ensures Remove(KeepTruthy(fs, done), k) == KeepTruthy(fs, done + {k})
  {
    if fs[0].key == k {
      assert !HasKey(fs[1..], k);
      KeepAbsent(fs[1..], done, k);
      RemoveAbsent(KeepTruthy(fs[1..], done), k);
      KeepSame(fs[1..], done, k);
    } else {
      RemoveFalsy(fs[1..], done, k);
      var rest := KeepTruthy(fs[1..], done);
      if fs[0].key in done && !Truthy(fs[0].val) {
        assert KeepTruthy(fs, done) == rest;
        assert KeepTruthy(fs, done + {k}) == KeepTruthy(fs[1..], done + {k});
      } else {
        assert KeepTruthy(fs, done) == [fs[0]] + rest;
        assert KeepTruthy(fs, done + {k}) == [fs[0]] + KeepTruthy(fs[1..], done + {k});
        assert ([fs[0]] + rest)[1..] == rest;
        assert Remove([fs[0]] + rest, k) == [fs[0]] + Remove(rest, k);
      }
    }
  }

  /** Adding a key the fields do not hold to `done` changes nothing. */
  lemma {:induction false} KeepSame(fs: seq<Field>, done: set<string>, k: string)
    requires !HasKey(fs, k)
    ensures KeepTruthy(fs, done + {k}) == KeepTruthy(fs, done)
  {
    if fs != [] {
      KeepSame(fs[1..], done, k);
    }
  }

  /** The kept fields hold no key the fields do not hold. */
  lemma {:induction false} KeepAbsent(fs: seq<Field>, done: set<string>, k: string)
    requires !HasKey(fs, k)
    ensures !HasKey(KeepTruthy(fs, done), k)
  {
    if fs != [] {
      KeepAbsent(fs[1..], done, k);
    }
  }

  /** Adding a key whose (only) value is truthy to `done` changes nothing. */
  lemma {:induction false} KeepTruthyKey(fs: seq<Field>, done: set<string>, k: string)
    requires DistinctKeys(fs) && Present(Lookup(fs, k))
    ensures KeepTruthy(fs, done + {k}) == KeepTruthy(fs, done)
  {
    if fs[0].key == k {
      assert !HasKey(fs[1..], k);
      KeepSame(fs[1..], done, k);
    } else {
      KeepTruthyKey(fs[1..], done, k);
    }
  }

  /** `Object.keys(fs).forEach(key => { if (!fs[key]) delete fs[key]; })`. */
  method DropFalsy(fs: seq<Field>) returns (r: seq<Field>)
    requires DistinctKeys(fs)
    ensures r == KeepTruthy(fs, set i | 0 <= i < |fs| :: fs[i].key)
  {
    var keys := Keys(fs);
    r := fs;
    ghost var done: set<string> := {};
    KeepNone(fs);
    for i := 0 to |keys|
      invariant done == set j | 0 <= j < i :: fs[j].key
      invariant r == KeepTruthy(fs, done)
    {
      var key := keys[i];
      assert key !in done;
      assert HasKey(fs, key) by { assert Keys(fs)[i] == key; }
      LookupKeepOutside(fs, done, key);
      if !Present(Lookup(r, key)) {
        RemoveFalsy(fs, done, key);
        r := Remove(r, key);
      } else {
        KeepTruthyKey(fs, done, key);
      }
      done := done + {key};
    }
  }

  /** With nothing done, everything is kept. */
  lemma {:induction false} KeepNone(fs: seq<Field>)
    ensures KeepTruthy(fs, {}) == fs
  {
    if fs != [] {
      KeepNone(fs[1..]);
    }
  }

  /** With every key done, what is kept is exactly the truthy values. */
  lemma {:induction false} KeepAllLookup(fs: seq<Field>, all: set<string>, k: string)
    requires DistinctKeys(fs) && forall i :: 0 <= i < |fs| ==> fs[i].key in all
    ensures Lookup(KeepTruthy(fs, all), k) == if Present(Lookup(fs, k)) then Lookup(fs, k) else None
  {
    if fs != [] {
      var rest := KeepTruthy(fs[1..], all);
      KeepAllLookup(fs[1..], all, k);
      assert fs[0].key in all;
      if !Truthy(fs[0].val) {
        assert KeepTruthy(fs, all) == rest;
        if fs[0].key == k {
          assert !HasKey(fs[1..], k);
          KeepAbsent(fs[1..], all, k);
        }
      } else {
        assert KeepTruthy(fs, all) == [fs[0]] + rest;
        assert ([fs[0]] + rest)[1..] == rest;
      }
    }
  }

  /** `{ ...config.io, [field]: value || undefined }`, with `null` standing
      for `undefined`: both are falsy and are dropped next. */
  function EditedIo(config: Json, field: string, value: string): seq<Field>
  {
    SpreadSet(Prop(config, "io"), field, if value == "" then JNull else JStr(value))
  }

  /** `handleIOConfigChange(field, value)`: the update always carries `io`,
      the edited block with its falsy values dropped. An object's keys are
      distinct, which is why the copied block is required to have distinct
      keys. */
  method HandleIOConfigChange(config: Json, field: string, value: string) returns (update: seq<Field>)
    requires DistinctKeys(SpreadOf(Prop(config, "io")))
    ensures |update| == 1 && update[0].key == "io" && update[0].val.JObj?
    ensures forall k :: Lookup(update[0].val.fields, k) ==
              if k == field then (if value == "" then None else Some(JStr(value)))
              else if Present(Lookup(SpreadOf(Prop(config, "io")), k)) then Lookup(SpreadOf(Prop(config, "io")), k)
              else None
  {
    var newIO := EditedIo(config, field, value);
    DistinctPut(SpreadOf(Prop(config, "io")), field, if value == "" then JNull else JStr(value));
    var kept := DropFalsy(newIO);
    forall k
      ensures Lookup(kept, k) ==
              if k == field then (if value == "" then None else Some(JStr(value)))
              else if Present(Lookup(SpreadOf(Prop(config, "io")), k)) then Lookup(SpreadOf(Prop(config, "io")), k)
              else None
    {
      KeepAllLookup(newIO, set i | 0 <= i < |newIO| :: newIO[i].key, k);
      SpreadSetLookup(Prop(config, "io"), field, if value == "" then JNull else JStr(value), k);
    }
    update := [Field("io", JObj(kept))];
  }
}
