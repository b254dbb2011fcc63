/** The pin manager the configuration editor builds over one configuration:
    the board it validates against, per-pin statuses, the validity of an
    assignment to one field, the style class of a pin input, and the board's
    pins as choices. */
module PinManager {
  import opened Wrappers
  import opened Strings
  import opened JsonTree
  import opened Boards
  import opened PinUtils

  /** `config.board ? getBoardDescriptor(config.board) : undefined`: a
      truthy string naming a board id; any other value gives no board. */
  function BoardFor(config: Json): (r: Option<BoardDescriptor>)
    ensures r.Some? ==> Prop(config, "board") == Some(JStr(r.value.id)) && r.value in GetAllBoardDescriptors()
    ensures (Prop(config, "board").Some? && Prop(config, "board").value.JStr?
             && Prop(config, "board").value.s in GetBoardIds()) ==> r.Some?
  {
    var b := Prop(config, "board");
    if Present(b) && b.value.JStr? then GetBoardDescriptor(b.value.s) else None
  }

  /** Board ids are lower case, so a configuration naming its board "ESP32"
      is validated against no board at all. */
  lemma UpperCaseBoardNameFindsNoBoard(config: Json)
    requires Prop(config, "board") == Some(JStr("ESP32"))
    ensures BoardFor(config).None?
  {
    BoardIdExamples();
  }

  /** The status every blank pin gets. */
  const BlankStatus := PinStatus("", true, false, [], None, [])

  /** `getPinStatusFor(pin)`. */
  function GetPinStatusFor(pin: string, config: Json): (r: PinStatus)
    ensures IsBlank(pin) ==> r == BlankStatus
    ensures !IsBlank(pin) ==> r == PinStatusOf(pin, config, BoardFor(config))
  {
    if IsBlank(pin) then BlankStatus else PinStatusOf(pin, config, BoardFor(config))
  }

  /** `validatePinAssignment(pin, sourceField)`. */
  function ValidatePinAssignment(pin: string, sourceField: string, config: Json): (r: Validation)
    ensures IsBlank(pin) ==> r == Validation(true, [])
    ensures r.isValid <==> r.errors == []
  {
    if IsBlank(pin) then Validation(true, []) else ValidationOf(GetPinStatusFor(pin, config), sourceField)
  }

  /** The editor's check agrees with `isValidPinAssignment` against the
      configuration's own board, and it is valid exactly when the pin's
      status has no errors and no field other than `sourceField` uses it. */
  lemma ValidateAgreesWithCore(pin: string, sourceField: string, config: Json)
    ensures ValidatePinAssignment(pin, sourceField, config) == IsValidPinAssignment(pin, sourceField, config, BoardFor(config))
    ensures !IsBlank(pin) ==>
              (ValidatePinAssignment(pin, sourceField, config).isValid <==>
                 GetPinStatusFor(pin, config).errors == []
                 && forall u :: u in GetPinStatusFor(pin, config).usedBy ==> u == sourceField)
  {
  }

  /** The other users, when there are any, are named in one extra error
      after the status errors. */
  lemma ValidateNamesOtherUsers(pin: string, sourceField: string, config: Json)
    requires !IsBlank(pin)
    requires exists u :: u in GetPinStatusFor(pin, config).usedBy && u != sourceField
    ensures var status := GetPinStatusFor(pin, config);
            ValidatePinAssignment(pin, sourceField, config).errors
            == status.errors + [WouldConflictError(Without(status.usedBy, sourceField))]
  {
    var status := GetPinStatusFor(pin, config);
    var u :| u in status.usedBy && u != sourceField;
    assert u in Without(status.usedBy, sourceField);
  }

  /** `getPinStatusClass(pin, sourceField)`. */
  function GetPinStatusClass(pin: string, sourceField: string, config: Json): string
  {
    if IsBlank(pin) then "pin-status-empty"
    else if !ValidatePinAssignment(pin, sourceField, config).isValid then "pin-status-invalid"
    else
      var status := GetPinStatusFor(pin, config);
      if |status.usedBy| > 0 && status.usedBy[0] != sourceField then "pin-status-conflict"
      else if status.isUsed then "pin-status-used"
      else "pin-status-available"
  }

  /** The class is "empty" for a blank pin, "invalid" when the assignment
      would not be valid, else "used" when some field uses the pin, else
      "available"; the "conflict" class is never produced, because a valid
      assignment has no user but `sourceField`. */
  lemma StatusClassCases(pin: string, sourceField: string, config: Json)
    ensures GetPinStatusClass(pin, sourceField, config) != "pin-status-conflict"
    ensures GetPinStatusClass(pin, sourceField, config) == "pin-status-empty" <==> IsBlank(pin)
    ensures GetPinStatusClass(pin, sourceField, config) == "pin-status-invalid"
            <==> !IsBlank(pin) && !ValidatePinAssignment(pin, sourceField, config).isValid
    ensures GetPinStatusClass(pin, sourceField, config) == "pin-status-used"
            <==> !IsBlank(pin) && ValidatePinAssignment(pin, sourceField, config).isValid
                 && GetPinStatusFor(pin, config).isUsed
  {
    if !IsBlank(pin) && ValidatePinAssignment(pin, sourceField, config).isValid {
      var status := GetPinStatusFor(pin, config);
      ValidateAgreesWithCore(pin, sourceField, config);
      if |status.usedBy| > 0 {
        assert status.usedBy[0] in status.usedBy;
      }
    }
  }

  /** One choice of `getAvailablePins`. Pin capabilities are not part of
      this model. */
  datatype PinChoice = PinChoice(value: string, title: string)

  /** `getAvailablePins()`: one "gpio.<n>" choice per board pin, in order. */
  function GetAvailablePins(board: Option<BoardDescriptor>): (r: seq<PinChoice>)
    ensures board.None? ==> r == []
    ensures board.Some? ==> |r| == |board.value.pins|
    ensures board.Some? ==> forall i :: 0 <= i < |r| ==>
              ExtractGpioNumber(r[i].value) == Some(board.value.pins[i].gpio)
              && r[i].title == "GPIO " + NatToString(board.value.pins[i].gpio)
  {
    if board.None? then []
    else
      var pins := board.value.pins;
      var r := seq(|pins|, i requires 0 <= i < |pins| =>
        PinChoice("gpio." + NatToString(pins[i].gpio), "GPIO " + NatToString(pins[i].gpio)));
      assert forall i :: 0 <= i < |r| ==> ExtractGpioNumber(r[i].value) == Some(pins[i].gpio) by {
        forall i | 0 <= i < |r| ensures ExtractGpioNumber(r[i].value) == Some(pins[i].gpio) {
          GpioRoundTrip(pins[i].gpio);
        }
      }
      r
  }

  /** Every offered choice passes the format and board checks of
      `getPinStatus`, and the status reports the board pin it came from. */
  lemma AvailablePinsPassBoardCheck(board: BoardDescriptor, config: Json, i: nat)
    requires i < |board.pins|
    ensures var pin := GetAvailablePins(Some(board))[i].value;
            IsPinFormat(pin)
            && PinStatusOf(pin, config, Some(board)).boardPin.Some?
            && PinStatusOf(pin, config, Some(board)).boardPin.value.gpio == board.pins[i].gpio
  {
    var pin := GetAvailablePins(Some(board))[i].value;
    assert ExtractGpioNumber(pin) == Some(board.pins[i].gpio);
    assert FindPin(board.pins, board.pins[i].gpio).Some?;
    PinStatusUsage(pin, config, Some(board));
  }

  /** The choices whose value is not a key of the assignments, in order. */
  function Unassigned(choices: seq<PinChoice>, assignments: Assignments): (r: seq<PinChoice>)
    ensures |r| <= |choices|
    ensures forall c :: c in r <==> c in choices && c.value !in assignments.sources
  {
    if choices == [] then []
    else
      var rest := Unassigned(choices[..|choices| - 1], assignments);
      var last := choices[|choices| - 1];
      assert choices == choices[..|choices| - 1] + [last];
      if last.value in assignments.sources then rest else rest + [last]
  }

  /** `getUnassignedPins()`. */
  function GetUnassignedPins(config: Json): seq<PinChoice>
  {
    Unassigned(GetAvailablePins(BoardFor(config)), AssignmentsOf(config))
  }

  /** Filtering keeps the choices' order: a run of choices splits into the
      unassigned ones of its halves. */
  lemma {:induction false} UnassignedConcat(xs: seq<PinChoice>, ys: seq<PinChoice>, a: Assignments)
    ensures Unassigned(xs + ys, a) == Unassigned(xs, a) + Unassigned(ys, a)
    decreases |ys|
  {
    if ys == [] {
      assert xs + ys == xs;
    } else {
      var init := ys[..|ys| - 1];
      assert (xs + ys)[..|xs + ys| - 1] == xs + init;
      assert (xs + ys)[|xs + ys| - 1] == ys[|ys| - 1];
      UnassignedConcat(xs, init, a);
    }
  }

  /** An unassigned choice is used by no field of the configuration. */
  lemma UnassignedPinsAreUnused(config: Json, c: PinChoice)
    requires c in GetUnassignedPins(config)
    ensures SourcesIn(Candidates(config), c.value) == []
  {
    AssignmentsMeaning(config, c.value);
  }

  /** With no pin assigned, every choice is unassigned. */
  lemma {:induction false} NothingAssigned(choices: seq<PinChoice>, a: Assignments)
    requires a.sources == map[]
    ensures Unassigned(choices, a) == choices
    decreases |choices|
  {
    if choices != [] {
      NothingAssigned(choices[..|choices| - 1], a);
      assert choices == choices[..|choices| - 1] + [choices[|choices| - 1]];
    }
  }

  /** `hasPinConflicts`: some pin is named by more than one field. */
  predicate HasPinConflicts(config: Json)
  {
    |ConflictsOf(config).order| > 0
  }

  /** There is a conflict exactly when some pin has more than one source. */
  lemma HasPinConflictsMeaning(config: Json)
    ensures HasPinConflicts(config) <==> exists p :: |SourcesOf(AssignmentsOf(config), p)| > 1
  {
    var c := ConflictsOf(config);
    if HasPinConflicts(config) {
      var p := c.order[0];
      assert p in c.order;
      ConflictsMeaning(config, p);
    }
    if p :| |SourcesOf(AssignmentsOf(config), p)| > 1 {
      ConflictsMeaning(config, p);
      assert p in c.order;
    }
  }
}
