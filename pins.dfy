/** Pin bookkeeping over a configuration tree: which configuration fields
    name which pin, which pins are named more than once, and the status of
    one pin against the configuration and an optional board. */
module PinUtils {
  import opened Wrappers
  import opened Strings
  import opened JsonTree
  import opened Boards

  // -----------------------------------------------------------------------
  // Pin names

  /** The number in `pin` when it is `prefix` in any letter case, a dot and
      one or more decimal digits (the pattern `^prefix\.(\d+)$` with the `i`
      flag), read exactly as a natural number. `parseInt(…, 10)` gives a
      double instead, which agrees with this value below 2^53 only. */
  function PinNumber(pin: string, prefix: string): Option<nat>
  {
    var n := |prefix|;
    if |pin| > n + 1 && AsciiLower(pin[..n]) == prefix && pin[n] == '.' && AllDigits(pin[n + 1..])
    then Some(DigitsValue(pin[n + 1..]))
    else None
  }

  /** `extractGpioNumber(pin)`. */
  function ExtractGpioNumber(pin: string): Option<nat>
  {
    PinNumber(pin, "gpio")
  }

  /** Any letter case of `prefix`, a dot and digits gives the digits' value... */
  lemma PinNumberOf(head: string, digits: string, prefix: string)
    requires |head| == |prefix| && AsciiLower(head) == prefix && |digits| > 0 && AllDigits(digits)
    ensures PinNumber(head + "." + digits, prefix) == Some(DigitsValue(digits))
  {
    var pin := head + "." + digits;
    var n := |prefix|;
    assert pin[..n] == head;
    assert pin[n] == '.';
    assert pin[n + 1..] == digits;
  }

  /** ... and nothing else gives a number. */
  lemma GpioNumberForm(pin: string)
    requires ExtractGpioNumber(pin).Some?
    ensures pin == pin[..4] + "." + pin[5..]
    ensures AsciiLower(pin[..4]) == "gpio" && |pin[5..]| > 0 && AllDigits(pin[5..])
    ensures ExtractGpioNumber(pin).value == DigitsValue(pin[5..])
  {
  }

  /** `"gpio." + n` is read back as `n`, whatever the digits of `n`. */
  lemma GpioRoundTrip(n: nat)
    ensures ExtractGpioNumber("gpio." + NatToString(n)) == Some(n)
  {
    assert AsciiLower("gpio") == "gpio";
    PinNumberOf("gpio", NatToString(n), "gpio");
    NatToStringRoundTrip(n);
  }

  /** The three accepted forms: gpio.N, i2so.N and i2si.N. */
  predicate IsPinFormat(pin: string)
  {
    ExtractGpioNumber(pin).Some? || PinNumber(pin, "i2so").Some? || PinNumber(pin, "i2si").Some?
  }

  // -----------------------------------------------------------------------
  // The fields that name pins, in the order they are visited

  /** A configuration value and the dotted field name it was read from. */
  datatype Candidate = Candidate(value: Option<Json>, source: string)

  const IoPinFields: seq<string> := [
    "probe_pin", "flood_pin", "mist_pin", "macro0_pin", "macro1_pin", "macro2_pin", "macro3_pin",
    "user_output_0_pin", "user_output_1_pin", "user_output_2_pin", "user_output_3_pin",
    "user_pwm_0_pin", "user_pwm_1_pin", "user_pwm_2_pin", "user_pwm_3_pin"]

  const MotorPinFields: seq<string> := [
    "step_pin", "direction_pin", "disable_pin", "limit_neg_pin", "limit_pos_pin", "limit_all_pin"]

  const SpindlePinFields: seq<string> := ["output_pin", "enable_pin", "direction_pin"]

  const ControlPinFields: seq<string> := [
    "safety_door_pin", "reset_pin", "feed_hold_pin", "cycle_start_pin", "fro_pin", "sro_pin"]

  const UartPinFields: seq<string> := ["txd_pin", "rxd_pin", "rts_pin"]

  /** `obj.f` for each listed field `f`, named `prefix + f`. */
  function FieldCandidates(obj: Option<Json>, prefix: string, fields: seq<string>): (cs: seq<Candidate>)
    ensures |cs| == |fields|
    ensures forall i :: 0 <= i < |fields| ==> cs[i] == Candidate(Get(obj, fields[i]), prefix + fields[i])
  {
    seq(|fields|, i requires 0 <= i < |fields| => Candidate(Get(obj, fields[i]), prefix + fields[i]))
  }

  /** The pins of one axis: its motor0 pins, then the TMC2130 chip select and
      the TMC2209 UART pin when those sections are present. */
  function MotorCandidates(axisName: string, axisConfig: Json): seq<Candidate>
  {
    var motor := Prop(axisConfig, "motor0");
    var prefix := "axes." + axisName + ".motor0.";
    if !Present(motor) then []
    else
      var tmc2130 := Get(motor, "tmc_2130");
      var tmc2209 := Get(motor, "tmc_2209");
      FieldCandidates(motor, prefix, MotorPinFields)
      + (if Present(tmc2130) then [Candidate(Get(tmc2130, "cs_pin"), prefix + "tmc_2130.cs_pin")] else [])
      + (if Present(tmc2209) && Present(Get(tmc2209, "uart_pin"))
         then [Candidate(Get(tmc2209, "uart_pin"), prefix + "tmc_2209.uart_pin")] else [])
  }

  /** The pins of one UART channel that hold strings, when the channel is an object. */
  function UartCandidates(channelName: string, channel: Json): seq<Candidate>
  {
    var prefix := "uart." + channelName + ".";
    if !(Truthy(channel) && TypeOf(channel) == "object") then []
    else
      (if IsString(Prop(channel, "txd_pin")) then [Candidate(Prop(channel, "txd_pin"), prefix + "txd_pin")] else [])
      + (if IsString(Prop(channel, "rxd_pin")) then [Candidate(Prop(channel, "rxd_pin"), prefix + "rxd_pin")] else [])
      + (if IsString(Prop(channel, "rts_pin")) then [Candidate(Prop(channel, "rts_pin"), prefix + "rts_pin")] else [])
  }

  function AxesCandidates(entries: seq<Field>): seq<Candidate>
  {
    if entries == [] then []
    else AxesCandidates(entries[..|entries| - 1]) + MotorCandidates(entries[|entries| - 1].key, entries[|entries| - 1].val)
  }

  function UartsCandidates(entries: seq<Field>): seq<Candidate>
  {
    if entries == [] then []
    else UartsCandidates(entries[..|entries| - 1]) + UartCandidates(entries[|entries| - 1].key, entries[|entries| - 1].val)
  }

  function BlockCandidates(block: Option<Json>, prefix: string, fields: seq<string>): seq<Candidate>
  {
    if Present(block) then FieldCandidates(block, prefix, fields) else []
  }

  function IoCandidates(config: Json): seq<Candidate>
  {
    BlockCandidates(Prop(config, "io"), "io.", IoPinFields)
  }

  function MotorsCandidates(config: Json): seq<Candidate>
  {
    AxesCandidates(EntriesOf(Prop(config, "axes")))
  }

  function SpindleCandidates(config: Json): seq<Candidate>
  {
    BlockCandidates(Prop(config, "spindle"), "spindle.", SpindlePinFields)
  }

  function ControlCandidates(config: Json): seq<Candidate>
  {
    BlockCandidates(Prop(config, "control"), "control.", ControlPinFields)
  }

  function UartCandidatesOf(config: Json): seq<Candidate>
  {
    UartsCandidates(EntriesOf(Prop(config, "uart")))
  }

  /** Every pin-naming field of `config`, in the order it is visited: io,
      the axes' motors, spindle, control, then the UART channels. */
  function Candidates(config: Json): seq<Candidate>
  {
    IoCandidates(config) + MotorsCandidates(config) + SpindleCandidates(config)
    + ControlCandidates(config) + UartCandidatesOf(config)
  }

  // -----------------------------------------------------------------------
  // The pin → sources record

  /** A record from pin to the fields that use it, with its key order. */
  datatype Assignments = Assignments(order: seq<string>, sources: map<string, seq<string>>)

  const NoAssignments := Assignments([], map[])

  /** The record is well formed: its keys are listed once each, in order,
      and every key has at least one source. */
  ghost predicate Wellformed(a: Assignments)
  {
    (forall p :: p in a.order <==> p in a.sources)
    && (forall i, j :: 0 <= i < j < |a.order| ==> a.order[i] != a.order[j])
    && (forall p :: p in a.sources ==> a.sources[p] != [])
  }

  /** `assignments[pin] || []`. */
  function SourcesOf(a: Assignments, pin: string): seq<string>
  {
    if pin in a.sources then a.sources[pin] else []
  }

  /** `addPin` records a value only if it is a string with some non-blank character. */
  predicate Recordable(value: Option<Json>)
  {
    value.Some? && value.value.JStr? && !IsBlank(value.value.s)
  }

  /** `assignments[pin].push(source)`, creating the entry when it is missing:
      `pin` gains `source` at the end and no other pin changes. */
  function AddSource(a: Assignments, pin: string, source: string): (r: Assignments)
    ensures SourcesOf(r, pin) == SourcesOf(a, pin) + [source]
    ensures forall q :: q != pin ==> SourcesOf(r, q) == SourcesOf(a, q)
  {
    if pin in a.sources then Assignments(a.order, a.sources[pin := a.sources[pin] + [source]])
    else Assignments(a.order + [pin], a.sources[pin := [source]])
  }

  /** `addPin(value, source)`. */
  function AddPin(a: Assignments, c: Candidate): Assignments
  {
    if Recordable(c.value) then AddSource(a, c.value.value.s, c.source) else a
  }

  /** Adding each candidate in turn. */
  function AddAll(a: Assignments, cs: seq<Candidate>): Assignments
    decreases |cs|
  {
    if cs == [] then a else AddAll(AddPin(a, cs[0]), cs[1..])
  }

  /** The independent reading: the sources of the candidates naming `pin`. */
  function SourcesIn(cs: seq<Candidate>, pin: string): seq<string>
  {
    if cs == [] then [] else SourceFor(cs[0], pin) + SourcesIn(cs[1..], pin)
  }

  /** The source of `c` when it names `pin`. */
  function SourceFor(c: Candidate, pin: string): seq<string>
  {
    if Recordable(c.value) && c.value.value.s == pin then [c.source] else []
  }

  /** `extractAllPinAssignments(config)`, as a value. */
  function AssignmentsOf(config: Json): Assignments
  {
    AddAll(NoAssignments, Candidates(config))
  }

  lemma AddPinWellformed(a: Assignments, c: Candidate)
    requires Wellformed(a)
    ensures Wellformed(AddPin(a, c))
  {
    if Recordable(c.value) {
      if c.value.value.s in a.sources {
        AddSourceWellformed(a, c.value.value.s, c.source);
      } else {
        AddKeyWellformed(a, c.value.value.s, c.source);
      }
    }
  }

  lemma AddSourceWellformed(a: Assignments, pin: string, source: string)
    requires Wellformed(a) && pin in a.sources
    ensures Wellformed(Assignments(a.order, a.sources[pin := a.sources[pin] + [source]]))
  {
  }

  lemma AddKeyWellformed(a: Assignments, pin: string, source: string)
    requires Wellformed(a) && pin !in a.sources
    ensures Wellformed(Assignments(a.order + [pin], a.sources[pin := [source]]))
  {
    var r := Assignments(a.order + [pin], a.sources[pin := [source]]);
    forall i, j | 0 <= i < j < |r.order| ensures r.order[i] != r.order[j] {
      if j == |a.order| {
        assert r.order[i] == a.order[i];
        assert a.order[i] in a.order;
      } else {
        assert r.order[i] == a.order[i] && r.order[j] == a.order[j];
      }
    }
    forall p ensures p in r.order <==> p in r.sources {
      assert p in r.order <==> p in a.order || p == pin;
    }
  }

  lemma {:induction false} AddAllWellformed(a: Assignments, cs: seq<Candidate>)
    requires Wellformed(a)
    ensures Wellformed(AddAll(a, cs))
    decreases |cs|
  {
    if cs != [] {
      AddPinWellformed(a, cs[0]);
      AddAllWellformed(AddPin(a, cs[0]), cs[1..]);
    }
  }

  lemma SourcesOfAddPin(a: Assignments, c: Candidate, pin: string)
    ensures SourcesOf(AddPin(a, c), pin) == SourcesOf(a, pin) + SourceFor(c, pin)
  {
  }

  /** Each pin's sources grow by exactly the candidates that name it, in order. */
  lemma {:induction false} SourcesOfAddAll(a: Assignments, cs: seq<Candidate>, pin: string)
    ensures SourcesOf(AddAll(a, cs), pin) == SourcesOf(a, pin) + SourcesIn(cs, pin)
    decreases |cs|
  {
    if cs != [] {
      SourcesOfAddPin(a, cs[0], pin);
      SourcesOfAddAll(AddPin(a, cs[0]), cs[1..], pin);
      assert SourcesIn(cs, pin) == SourceFor(cs[0], pin) + SourcesIn(cs[1..], pin);
      assert SourcesOf(a, pin) + SourceFor(cs[0], pin) + SourcesIn(cs[1..], pin)
          == SourcesOf(a, pin) + (SourceFor(cs[0], pin) + SourcesIn(cs[1..], pin));
    }
  }

  lemma {:induction false} AddAllConcat(a: Assignments, cs: seq<Candidate>, ds: seq<Candidate>)
    ensures AddAll(a, cs + ds) == AddAll(AddAll(a, cs), ds)
    decreases |cs|
  {
    if cs == [] {
      assert cs + ds == ds;
    } else {
      assert (cs + ds)[1..] == cs[1..] + ds;
      AddAllConcat(AddPin(a, cs[0]), cs[1..], ds);
    }
  }

  /** The record names every pin used by some visited field, with the
      fields that use it in visiting order, and nothing else; every recorded
      pin has at least one source. */
  lemma AssignmentsMeaning(config: Json, pin: string)
    ensures SourcesOf(AssignmentsOf(config), pin) == SourcesIn(Candidates(config), pin)
    ensures pin in AssignmentsOf(config).sources <==> SourcesIn(Candidates(config), pin) != []
    ensures Wellformed(AssignmentsOf(config))
  {
    SourcesOfAddAll(NoAssignments, Candidates(config), pin);
    AddAllWellformed(NoAssignments, Candidates(config));
  }

  /** A pin's sources are listed block by block: io first, then the axes'
      motors, spindle, control and the UART channels. */
  lemma SourcesInVisitingOrder(config: Json, pin: string)
    ensures SourcesOf(AssignmentsOf(config), pin)
            == SourcesIn(IoCandidates(config), pin) + SourcesIn(MotorsCandidates(config), pin)
               + SourcesIn(SpindleCandidates(config), pin) + SourcesIn(ControlCandidates(config), pin)
               + SourcesIn(UartCandidatesOf(config), pin)
  {
    var io, axes, spindle, control, uart :=
      IoCandidates(config), MotorsCandidates(config), SpindleCandidates(config),
      ControlCandidates(config), UartCandidatesOf(config);
    AssignmentsMeaning(config, pin);
    SourcesInConcat(io + axes + spindle + control, uart, pin);
    SourcesInConcat(io + axes + spindle, control, pin);
    SourcesInConcat(io + axes, spindle, pin);
    SourcesInConcat(io, axes, pin);
  }

  /** Blank strings are never recorded. */
  lemma {:induction false} UnrecordableIgnored(cs: seq<Candidate>, pin: string)
    requires IsBlank(pin)
    ensures SourcesIn(cs, pin) == []
  {
    if cs != [] {
      UnrecordableIgnored(cs[1..], pin);
    }
  }

  lemma {:induction false} SourcesInConcat(cs: seq<Candidate>, ds: seq<Candidate>, pin: string)
    ensures SourcesIn(cs + ds, pin) == SourcesIn(cs, pin) + SourcesIn(ds, pin)
  {
    if cs == [] {
      assert cs + ds == ds;
    } else {
      assert (cs + ds)[1..] == cs[1..] + ds;
      SourcesInConcat(cs[1..], ds, pin);
    }
  }

  lemma AxesStep(entries: seq<Field>, i: nat)
    requires i < |entries|
    ensures AxesCandidates(entries[..i + 1]) == AxesCandidates(entries[..i]) + MotorCandidates(entries[i].key, entries[i].val)
  {
    assert entries[..i + 1][..i] == entries[..i];
  }

  lemma UartsStep(entries: seq<Field>, i: nat)
    requires i < |entries|
    ensures UartsCandidates(entries[..i + 1]) == UartsCandidates(entries[..i]) + UartCandidates(entries[i].key, entries[i].val)
  {
    assert entries[..i + 1][..i] == entries[..i];
  }

  /** The `forEach` over the axes' entries. */
  method AddAxes(start: Assignments, entries: seq<Field>) returns (assignments: Assignments)
    ensures assignments == AddAll(start, AxesCandidates(entries))
  {
    assignments := start;
    var i := 0;
    while i < |entries|
      invariant 0 <= i <= |entries|
      invariant assignments == AddAll(start, AxesCandidates(entries[..i]))
    {
      var entry := entries[i];
      AxesStep(entries, i);
      AddAllConcat(start, AxesCandidates(entries[..i]), MotorCandidates(entry.key, entry.val));
      assignments := AddAll(assignments, MotorCandidates(entry.key, entry.val));
      i := i + 1;
    }
    assert entries[..i] == entries;
  }

  /** The `forEach` over the UART channels. */
  method AddUarts(start: Assignments, entries: seq<Field>) returns (assignments: Assignments)
    ensures assignments == AddAll(start, UartsCandidates(entries))
  {
    assignments := start;
    var i := 0;
    while i < |entries|
      invariant 0 <= i <= |entries|
      invariant assignments == AddAll(start, UartsCandidates(entries[..i]))
    {
      var entry := entries[i];
      UartsStep(entries, i);
      AddAllConcat(start, UartsCandidates(entries[..i]), UartCandidates(entry.key, entry.val));
      assignments := AddAll(assignments, UartCandidates(entry.key, entry.val));
      i := i + 1;
    }
    assert entries[..i] == entries;
  }

  /** `extractAllPinAssignments`: the fixed runs of `addPin` become `AddAll`,
      the two `forEach` walks over `axes` and `uart` are loops. */
  method ExtractAllPinAssignments(config: Json) returns (assignments: Assignments)
    ensures assignments == AssignmentsOf(config)
  {
    var ioPart := IoCandidates(config);
    var axesPart := MotorsCandidates(config);
    var spindlePart := SpindleCandidates(config);
    var controlPart := ControlCandidates(config);
    var uartPart := UartCandidatesOf(config);

    assignments := AddAll(NoAssignments, ioPart);
    assignments := AddAxes(assignments, EntriesOf(Prop(config, "axes")));
    AddAllConcat(NoAssignments, ioPart, axesPart);
    assignments := AddAll(assignments, spindlePart);
    AddAllConcat(NoAssignments, ioPart + axesPart, spindlePart);
    assignments := AddAll(assignments, controlPart);
    AddAllConcat(NoAssignments, ioPart + axesPart + spindlePart, controlPart);
    assignments := AddUarts(assignments, EntriesOf(Prop(config, "uart")));
    AddAllConcat(NoAssignments, ioPart + axesPart + spindlePart + controlPart, uartPart);
  }

  // -----------------------------------------------------------------------
  // Conflicts

  /** The entries of `a` with more than one source, in key order. */
  function ConflictsIn(a: Assignments, keys: seq<string>): (r: Assignments)
    ensures forall p :: p in r.sources ==> p in keys
    ensures forall p :: p in r.order <==> p in r.sources
  {
    if keys == [] then NoAssignments
    else
      var r := ConflictsIn(a, keys[..|keys| - 1]);
      var p := keys[|keys| - 1];
      if |SourcesOf(a, p)| > 1 then Assignments(r.order + [p], r.sources[p := SourcesOf(a, p)]) else r
  }

  /** `getPinConflicts(config)` as a value. */
  function ConflictsOf(config: Json): Assignments
  {
    var a := AssignmentsOf(config);
    ConflictsIn(a, a.order)
  }

  lemma {:induction false} ConflictsInMeaning(a: Assignments, keys: seq<string>, p: string)
    ensures p in ConflictsIn(a, keys).sources <==> p in keys && |SourcesOf(a, p)| > 1
    ensures p in ConflictsIn(a, keys).sources ==> ConflictsIn(a, keys).sources[p] == SourcesOf(a, p)
  {
    if keys != [] {
      ConflictsInMeaning(a, keys[..|keys| - 1], p);
      assert keys == keys[..|keys| - 1] + [keys[|keys| - 1]];
    }
  }

  /** The conflicts are exactly the recorded pins with more than one source,
      with their source lists unchanged. */
  lemma ConflictsMeaning(config: Json, p: string)
    ensures p in ConflictsOf(config).sources <==> |SourcesOf(AssignmentsOf(config), p)| > 1
    ensures p in ConflictsOf(config).sources ==> ConflictsOf(config).sources[p] == SourcesOf(AssignmentsOf(config), p)
  {
    var a := AssignmentsOf(config);
    AssignmentsMeaning(config, p);
    ConflictsInMeaning(a, a.order, p);
  }

  /** `getPinConflicts`. */
  method GetPinConflicts(config: Json) returns (conflicts: Assignments)
    ensures conflicts == ConflictsOf(config)
  {
    var assignments := ExtractAllPinAssignments(config);
    conflicts := KeepConflicts(assignments);
  }

  /** The `forEach` over the record's entries that keeps those with more
      than one source. */
  method KeepConflicts(assignments: Assignments) returns (conflicts: Assignments)
    ensures conflicts == ConflictsIn(assignments, assignments.order)
  {
    conflicts := NoAssignments;
    var i := 0;
    while i < |assignments.order|
      invariant 0 <= i <= |assignments.order|
      invariant conflicts == ConflictsIn(assignments, assignments.order[..i])
    {
      var pin := assignments.order[i];
      var usedBy := SourcesOf(assignments, pin);
      assert assignments.order[..i + 1][..i] == assignments.order[..i];
      if |usedBy| > 1 {
        conflicts := Assignments(conflicts.order + [pin], conflicts.sources[pin := usedBy]);
      }
      i := i + 1;
    }
    assert assignments.order[..i] == assignments.order;
  }

  // -----------------------------------------------------------------------
  // The status of one pin

  datatype PinStatus = PinStatus(
    pin: string, isValid: bool, isUsed: bool, usedBy: seq<string>, boardPin: Option<BoardPin>, errors: seq<string>)

  const FormatError := "Invalid pin format. Use gpio.XX, i2so.XX, or i2si.XX"

  function FindPin(pins: seq<BoardPin>, gpio: nat): (r: Option<BoardPin>)
    ensures r.None? <==> forall i :: 0 <= i < |pins| ==> pins[i].gpio != gpio
    ensures r.Some? ==> r.value in pins && r.value.gpio == gpio
  {
    if pins == [] then None else if pins[0].gpio == gpio then Some(pins[0]) else FindPin(pins[1..], gpio)
  }

  function NotAvailableError(gpio: nat, board: BoardDescriptor): string
  {
    "GPIO " + NatToString(gpio) + " is not available on " + board.name
  }

  function ConflictError(usedBy: seq<string>): string
  {
    "Pin conflict: used by " + Join(usedBy, ", ")
  }

  /** The status of a well-formed pin available on the board: it is used
      when some field names it, and valid unless more than one does. */
  function UsageStatus(pin: string, usedBy: seq<string>, boardPin: Option<BoardPin>): (r: PinStatus)
    ensures r.pin == pin && r.usedBy == usedBy && r.boardPin == boardPin
    ensures r.isUsed <==> usedBy != []
    ensures r.isValid <==> |usedBy| <= 1
    ensures r.isValid <==> r.errors == []
    ensures !r.isValid ==> r.errors == [ConflictError(usedBy)]
  {
    var errors := if |usedBy| > 1 then [ConflictError(usedBy)] else [];
    PinStatus(pin, errors == [], |usedBy| > 0, usedBy, boardPin, errors)
  }

  /** The board pin `getPinStatus` reports: the one with the pin's GPIO
      number, when there is a board and the pin is a GPIO pin. */
  function BoardPinOf(pin: string, board: Option<BoardDescriptor>): Option<BoardPin>
  {
    if board.Some? && ExtractGpioNumber(pin).Some? then FindPin(board.value.pins, ExtractGpioNumber(pin).value) else None
  }

  /** `getPinStatus(pin, config, board)` as a value. */
  function PinStatusOf(pin: string, config: Json, board: Option<BoardDescriptor>): (r: PinStatus)
    ensures r.pin == pin
    ensures r.isValid <==> r.errors == []
    ensures r.isUsed <==> r.usedBy != []
    ensures !IsPinFormat(pin) ==> r == PinStatus(pin, false, false, [], None, [FormatError])
    ensures IsPinFormat(pin) && board.Some? && ExtractGpioNumber(pin).Some?
              && FindPin(board.value.pins, ExtractGpioNumber(pin).value).None? ==>
              r == PinStatus(pin, false, false, [], None, [NotAvailableError(ExtractGpioNumber(pin).value, board.value)])
  {
    var gpio := ExtractGpioNumber(pin);
    if !IsPinFormat(pin) then PinStatus(pin, false, false, [], None, [FormatError])
    else if board.Some? && gpio.Some? && FindPin(board.value.pins, gpio.value).None? then
      PinStatus(pin, false, false, [], None, [NotAvailableError(gpio.value, board.value)])
    else UsageStatus(pin, SourcesOf(AssignmentsOf(config), pin), BoardPinOf(pin, board))
  }

  /** Past the format and board checks, the status lists every field that
      names the pin, in visiting order, and reports the board's pin. */
  lemma PinStatusUsage(pin: string, config: Json, board: Option<BoardDescriptor>)
    requires IsPinFormat(pin)
    requires !(board.Some? && ExtractGpioNumber(pin).Some? && FindPin(board.value.pins, ExtractGpioNumber(pin).value).None?)
    ensures PinStatusOf(pin, config, board) == UsageStatus(pin, SourcesIn(Candidates(config), pin), BoardPinOf(pin, board))
    ensures board.Some? && ExtractGpioNumber(pin).Some? ==>
              PinStatusOf(pin, config, board).boardPin.Some?
              && PinStatusOf(pin, config, board).boardPin.value in board.value.pins
              && PinStatusOf(pin, config, board).boardPin.value.gpio == ExtractGpioNumber(pin).value
  {
    AssignmentsMeaning(config, pin);
  }

  /** `getPinStatus`, updating the status record step by step. */
  method GetPinStatus(pin: string, config: Json, board: Option<BoardDescriptor>) returns (status: PinStatus)
    ensures status == PinStatusOf(pin, config, board)
  {
    status := PinStatus(pin, false, false, [], None, []);
    var gpio := ExtractGpioNumber(pin);
    if gpio.None? {
      if PinNumber(pin, "i2so").None? && PinNumber(pin, "i2si").None? {
        status := status.(errors := status.errors + [FormatError]);
        return;
      }
    }
    if board.Some? && gpio.Some? {
      var boardPin := FindPin(board.value.pins, gpio.value);
      if boardPin.None? {
        status := status.(errors := status.errors + [NotAvailableError(gpio.value, board.value)]);
        return;
      }
      status := status.(boardPin := boardPin);
    }
    var assignments := ExtractAllPinAssignments(config);
    var usedBy := SourcesOf(assignments, pin);
    status := status.(isUsed := |usedBy| > 0, usedBy := usedBy);
    if |usedBy| > 1 {
      status := status.(errors := status.errors + [ConflictError(usedBy)]);
    }
    status := status.(isValid := |status.errors| == 0);
    assert status == UsageStatus(pin, usedBy, BoardPinOf(pin, board));
  }

  // -----------------------------------------------------------------------
  // Would an assignment be valid?

  function Without(xs: seq<string>, x: string): (r: seq<string>)
    ensures forall y :: y in r <==> y in xs && y != x
  {
    if xs == [] then [] else (if xs[0] != x then [xs[0]] else []) + Without(xs[1..], x)
  }

  datatype Validation = Validation(isValid: bool, errors: seq<string>)

  function WouldConflictError(others: seq<string>): string
  {
    "Pin conflict: would conflict with " + Join(others, ", ")
  }

  /** The status errors, plus one conflict error naming the users other than
      `sourceField`, when there are any. */
  function ValidationOf(status: PinStatus, sourceField: string): (r: Validation)
    ensures r.isValid <==> r.errors == []
    ensures |r.errors| >= |status.errors| && r.errors[..|status.errors|] == status.errors
    ensures r.isValid <==> status.errors == [] && forall u :: u in status.usedBy ==> u == sourceField
  {
    var others := Without(status.usedBy, sourceField);
    var errors := status.errors + (if others != [] then [WouldConflictError(others)] else []);
    assert others == [] <==> forall u :: u in status.usedBy ==> u == sourceField by {
      if others != [] { assert others[0] in others; }
    }
    Validation(errors == [], errors)
  }

  /** `isValidPinAssignment(pin, sourceField, config, board)`. */
  function IsValidPinAssignment(pin: string, sourceField: string, config: Json, board: Option<BoardDescriptor>): (r: Validation)
    ensures IsBlank(pin) ==> r == Validation(true, [])
    ensures !IsBlank(pin) ==>
              (r.isValid <==> PinStatusOf(pin, config, board).errors == []
                              && forall u :: u in PinStatusOf(pin, config, board).usedBy ==> u == sourceField)
  {
    if IsBlank(pin) then Validation(true, [])
    else ValidationOf(PinStatusOf(pin, config, board), sourceField)
  }
}
