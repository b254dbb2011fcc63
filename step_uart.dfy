/** The UART step: pin conflicts across the whole configuration, then the
    pins and baud rate of every UART channel. */
module UartStep {
  import opened Wrappers
  import opened Strings
  import opened JsonTree
  import opened PinUtils
  import opened PinManager
  import opened StepCommon

  const MaxBaud: real := 921600.0

  /** The error of one pin of a channel: a truthy string pin that the pin
      editor's validation rejects, with the validator's first message. */
  function PinErrors(config: Json, ch: string, channel: Json, field: string, tag: string): seq<string>
  {
    var pin := Prop(channel, field);
    if Present(pin) && pin.value.JStr? then
      var v := ValidatePinAssignment(pin.value.s, "uart." + ch + "." + field, config);
      if !v.isValid then [ch + " " + tag + ": " + v.errors[0]] else []
    else []
  }

  /** `baud && (baud <= 0 || baud > 921600)`. */
  predicate BadBaud(baud: Option<Json>)
  {
    Present(baud) && (AtMost(baud, 0.0) || Above(baud, MaxBaud))
  }

  function BaudErrors(ch: string, channel: Json): seq<string>
  {
    if BadBaud(Prop(channel, "baud")) then [ch + ": Baud rate must be between 1 and 921600"] else []
  }

  /** The errors of one channel entry; an entry that is not an object (or
      array) is skipped. */
  function ChannelErrors(config: Json, e: Field): seq<string>
  {
    if IsObjectLike(e.val) then
      PinErrors(config, e.key, e.val, "txd_pin", "TXD") + PinErrors(config, e.key, e.val, "rxd_pin", "RXD")
      + PinErrors(config, e.key, e.val, "rts_pin", "RTS") + BaudErrors(e.key, e.val)
    else []
  }

  function ChannelRule(config: Json): Field -> seq<string>
  {
    e => ChannelErrors(config, e)
  }

  /** `validateStep`'s errors: the conflicts, then the channels of a truthy
      `uart`. */
  function UartErrors(config: Json): seq<string>
  {
    (if HasPinConflicts(config) then ConflictMessages(config) else [])
    + FlatMap(EntriesOf(Prop(config, "uart")), ChannelRule(config))
  }

  /** `validateStep`: valid exactly when nothing was reported. */
  method ValidateStep(config: Json) returns (errors: seq<string>, isValid: bool)
    ensures errors == UartErrors(config)
    ensures isValid <==> errors == []
  {
    errors := PushConflicts(config);
    var uart := Prop(config, "uart");
    ghost var all := EntriesOf(uart);
    if Present(uart) {
      errors := ForEachPush(errors, SpreadFields(uart.value), ChannelRule(config));
    } else {
      assert all == [];
    }
    isValid := |errors| == 0;
  }

  /** A pin of a channel that pin validation accepts. */
  predicate PinOk(config: Json, ch: string, channel: Json, field: string)
  {
    var pin := Prop(channel, field);
    Present(pin) && pin.value.JStr? ==> ValidatePinAssignment(pin.value.s, "uart." + ch + "." + field, config).isValid
  }

  /** A channel the step accepts. */
  predicate ChannelOk(config: Json, e: Field)
  {
    IsObjectLike(e.val) ==>
      PinOk(config, e.key, e.val, "txd_pin") && PinOk(config, e.key, e.val, "rxd_pin")
      && PinOk(config, e.key, e.val, "rts_pin") && !BadBaud(Prop(e.val, "baud"))
  }

  lemma ChannelErrorsEmptyIff(config: Json, e: Field)
    ensures ChannelErrors(config, e) == [] <==> ChannelOk(config, e)
  {
  }

  /** The step is valid exactly when no pin is used twice and every channel
      is accepted. */
  lemma ValidIff(config: Json)
    ensures var entries := EntriesOf(Prop(config, "uart"));
            UartErrors(config) == [] <==>
              !HasPinConflicts(config) && forall i :: 0 <= i < |entries| ==> ChannelOk(config, entries[i])
  {
    var entries := EntriesOf(Prop(config, "uart"));
    FlatMapEmpty(entries, ChannelRule(config));
    forall i | 0 <= i < |entries| {
      ChannelErrorsEmptyIff(config, entries[i]);
    }
    if HasPinConflicts(config) {
      assert |ConflictMessages(config)| > 0;
    }
  }

  /** A numeric baud rate is accepted exactly when it is zero (falsy, so
      not checked) or in the range (0, 921600]. */
  lemma BaudRange(x: real)
    ensures !BadBaud(Some(JNum(x))) <==> x == 0.0 || (0.0 < x && x <= MaxBaud)
  {
  }

  /** A baud rate given as non-empty text is accepted exactly when the
      number the text reads as lies in (0, 921600] (`"1e7"` does not). */
  lemma BaudText(u: string, x: real)
    requires u != "" && StringToNumber(u) == Finite(x)
    ensures !BadBaud(Some(JStr(u))) <==> 0.0 < x <= MaxBaud
  {
    var o := Some(JStr(u));
    assert Present(o) by {
      assert Truthy(JStr(u));
    }
    assert AtMost(o, 0.0) <==> x <= 0.0 by {
      ComparesAs(o, x, 0.0);
    }
    assert Above(o, MaxBaud) <==> x > MaxBaud by {
      ComparesAs(o, x, MaxBaud);
    }
  }

  // ---------------------------------------------------------------------
  // The edit handler

  /** The copied channel map after the edit: the channel with its field set
      or cleared, dropped when nothing is left in it. */
  function UpdatedUart(config: Json, ch: string, field: string, value: Json): seq<Field>
  {
    var currentUart := Or(Prop(config, "uart"), EmptyObj);
    var channel := SetOrDelete(SpreadFields(Or(Prop(currentUart, ch), EmptyObj)), field, value);
    if |Keys(channel)| > 0 then Put(SpreadFields(currentUart), ch, JObj(channel))
    else Remove(SpreadFields(currentUart), ch)
  }

  /** `handleUARTConfigChange(channelKey, field, value)`: the update
      carries `uart` only when a channel is left. */
  function HandleUARTConfigChange(config: Json, ch: string, field: string, value: Json): seq<Field>
  {
    UpdateIfAny("uart", UpdatedUart(config, ch, field, value))
  }

  /** The edited channel holds the new value (none when cleared), keeps its
      other fields, and is present exactly when something is left in it;
      other channels are copied. */
  lemma UartEditEffect(config: Json, ch: string, field: string, value: Json, k: string, f: string)
    ensures var currentUart := Or(Prop(config, "uart"), EmptyObj);
            var before := SpreadFields(Or(Prop(currentUart, ch), EmptyObj));
            var channel := SetOrDelete(before, field, value);
            var uart := UpdatedUart(config, ch, field, value);
            (Lookup(channel, f) == if f != field then Lookup(before, f)
                                  else if value == JStr("") then None else Some(value))
            && (Lookup(uart, ch) == if channel == [] then None else Some(JObj(channel)))
            && (k != ch ==> Lookup(uart, k) == Lookup(SpreadFields(currentUart), k))
  {
    var currentUart := Or(Prop(config, "uart"), EmptyObj);
    var before := SpreadFields(Or(Prop(currentUart, ch), EmptyObj));
    var channel := SetOrDelete(before, field, value);
    SetOrDeleteLookup(before, field, value, f);
    LookupPut(SpreadFields(currentUart), ch, JObj(channel), k);
    LookupPut(SpreadFields(currentUart), ch, JObj(channel), ch);
    LookupRemove(SpreadFields(currentUart), ch, k);
    LookupRemove(SpreadFields(currentUart), ch, ch);
  }

  /** Clearing the only field of the only channel sends the empty update,
      so the wizard's merge keeps the old channel. */
  lemma ClearingLastChannelKept(config: seq<Field>, ch: string, field: string, v: Json)
    requires Lookup(config, "uart") == Some(JObj([Field(ch, JObj([Field(field, v)]))]))
    ensures HandleUARTConfigChange(JObj(config), ch, field, JStr("")) == []
    ensures Merge(config, HandleUARTConfigChange(JObj(config), ch, field, JStr(""))) == config
  {
    var fs := [Field(field, v)];
    var uart := [Field(ch, JObj(fs))];
    assert Prop(JObj(config), "uart") == Some(JObj(uart));
    assert Present(Some(JObj(uart)));
    assert Prop(JObj(uart), ch) == Some(JObj(fs));
    assert Present(Some(JObj(fs)));
    assert Remove(fs, field) == Remove(fs[1..], field) == [];
    assert Remove(uart, ch) == Remove(uart[1..], ch) == [];
  }
}
