/** On-device validation: the validation messages the controller sends back
    after a configuration upload are filtered, parsed into errors and
    warnings, and folded into a status. */
module DeviceValidation {
  import opened Strings

  datatype Status = Pass | Warn | Fail | Pending

  /** The validation result without its timestamp. */
  datatype ValidationResult = ValidationResult(status: Status, errors: seq<string>, warnings: seq<string>)

  const ErrTag: string := "MSG:ERR:"
  const WarnTag: string := "MSG:WARN:"

  const Reset: ValidationResult := ValidationResult(Pending, [], [])

  /** The listener keeps only the controller's error and warning messages. */
  predicate IsValidationMessage(data: string)
  {
    StartsWith(data, ErrTag) || StartsWith(data, WarnTag)
  }

  /** The recorded text of a tagged message is what follows the tag,
      trimmed. */
  lemma ContentAfterTag(s: string)
    ensures Content(ErrTag + s) == JsTrim(s)
    ensures Content(WarnTag + s) == JsTrim(s)
  {
    assert (ErrTag + s)[..|ErrTag|] == ErrTag && (ErrTag + s)[|ErrTag|..] == s;
    assert (WarnTag + s)[..|WarnTag|] == WarnTag && (WarnTag + s)[|WarnTag|..] == s;
    TagsExclusive(WarnTag + s);
  }

  /** No message carries both tags. */
  lemma TagsExclusive(message: string)
    ensures !(StartsWith(message, ErrTag) && StartsWith(message, WarnTag))
  {
    assert ErrTag[4] == 'E' && WarnTag[4] == 'W';
  }

  /** `message.replace(/^MSG:(ERR|WARN):/, '')`: the leading tag, if any, is
      cut off. */
  function StripTag(message: string): (r: string)
    ensures StartsWith(message, ErrTag) ==> message == ErrTag + r
    ensures StartsWith(message, WarnTag) ==> message == WarnTag + r
    ensures !IsValidationMessage(message) ==> r == message
  {
    TagsExclusive(message);
    if StartsWith(message, ErrTag) then message[|ErrTag|..]
    else if StartsWith(message, WarnTag) then message[|WarnTag|..]
    else message
  }

  /** The text recorded for a message: the tag cut off, then trimmed. */
  function Content(message: string): string
  {
    JsTrim(StripTag(message))
  }

  /** `parseValidationMessage(message)` on the result: an error is appended
      and fails the validation, a warning is appended and turns a pending
      validation into a warning; anything else leaves the lists alone. */
  function Parse(r: ValidationResult, message: string): (r': ValidationResult)
    ensures StartsWith(message, ErrTag) ==>
              r'.errors == r.errors + [Content(message)] && r'.warnings == r.warnings && r'.status == Fail
    ensures StartsWith(message, WarnTag) ==>
              r'.warnings == r.warnings + [Content(message)] && r'.errors == r.errors
              && r'.status == (if r.status == Pending then Warn else r.status)
    ensures !IsValidationMessage(message) ==> r' == r
  {
    TagsExclusive(message);
    var content := Content(message);
    if StartsWith(message, ErrTag) then ValidationResult(Fail, r.errors + [content], r.warnings)
    else if StartsWith(message, WarnTag) then
      ValidationResult(if r.status == Pending then Warn else r.status, r.errors, r.warnings + [content])
    else r
  }

  /** The results a run of messages passes through, folded from `r`. */
  function ParseAll(r: ValidationResult, messages: seq<string>): ValidationResult
    decreases |messages|
  {
    if messages == [] then r else Parse(ParseAll(r, messages[..|messages| - 1]), messages[|messages| - 1])
  }

  /** The status says what the lists hold: pending with neither, a warning
      with warnings only, failed once there is an error. */
  predicate Consistent(r: ValidationResult)
  {
    (r.status == Pending <==> r.errors == [] && r.warnings == [])
    && (r.status == Warn <==> r.errors == [] && r.warnings != [])
    && (r.status == Fail <==> r.errors != [])
  }

  /** A failed validation stays failed whatever message comes. */
  lemma FailIsFinal(r: ValidationResult, message: string)
    requires r.status == Fail
    ensures Parse(r, message).status == Fail
  {
  }

  /** A validation message appends exactly one entry, and the lists only
      grow. */
  lemma ParseAppendsOne(r: ValidationResult, message: string)
    requires IsValidationMessage(message)
    ensures var r' := Parse(r, message);
            |r'.errors| + |r'.warnings| == |r.errors| + |r.warnings| + 1
            && r.errors <= r'.errors && r.warnings <= r'.warnings
  {
  }

  /** Parsing keeps the status consistent with the lists. */
  lemma ParseConsistent(r: ValidationResult, message: string)
    requires Consistent(r)
    ensures Consistent(Parse(r, message))
  {
  }

  /** The status fails on an error message or when it had failed. */
  lemma ParseFails(r: ValidationResult, message: string)
    ensures Parse(r, message).status == Fail <==> r.status == Fail || StartsWith(message, ErrTag)
  {
  }

  /** Some message of `ms` is an error message. */
  predicate AnyError(ms: seq<string>)
  {
    exists i :: 0 <= i < |ms| && StartsWith(ms[i], ErrTag)
  }

  lemma AnyErrorSnoc(ms: seq<string>)
    requires ms != []
    ensures AnyError(ms) <==> AnyError(ms[..|ms| - 1]) || StartsWith(ms[|ms| - 1], ErrTag)
  {
    var init := ms[..|ms| - 1];
    if AnyError(init) {
      var i :| 0 <= i < |init| && StartsWith(init[i], ErrTag);
      assert ms[i] == init[i];
    }
    if AnyError(ms) {
      var i :| 0 <= i < |ms| && StartsWith(ms[i], ErrTag);
      if i < |init| {
        assert init[i] == ms[i];
      }
    }
  }

  /** From the reset, every run of messages leaves a consistent result, and
      it has failed exactly when an error message came. */
  lemma {:induction false} ParseAllConsistent(messages: seq<string>)
    ensures Consistent(ParseAll(Reset, messages))
    ensures ParseAll(Reset, messages).status == Fail <==> AnyError(messages)
    decreases |messages|
  {
    if messages != [] {
      var n := |messages| - 1;
      var before := ParseAll(Reset, messages[..n]);
      ParseAllConsistent(messages[..n]);
      ParseConsistent(before, messages[n]);
      ParseFails(before, messages[n]);
      AnyErrorSnoc(messages);
    }
  }

  /** The validation state of the component. */
  class ValidationPanel {
    var result: ValidationResult
    var messages: seq<string>
    var error: string
    var isValidating: bool

    predicate Valid()
      reads this
    {
      Consistent(result)
    }

    constructor()
      ensures Valid() && result == Reset && messages == [] && error == "" && !isValidating
    {
      result := Reset;
      messages := [];
      error := "";
      isValidating := false;
    }

    /** `parseValidationMessage(message)`: the state updater it hands to
      React is `Parse`. */
    method ParseValidationMessage(message: string)
      requires Valid()
      modifies this
      ensures Valid()
      ensures result == Parse(old(result), message)
      ensures messages == old(messages) && error == old(error) && isValidating == old(isValidating)
    {
      ParseConsistent(result, message);
      result := Parse(result, message);
    }

    /** The `connection-data` listener: a validation message is recorded
      and parsed, anything else ignored. */
    method OnConnectionData(data: string)
      requires Valid()
      modifies this
      ensures Valid()
      ensures IsValidationMessage(data) ==> messages == old(messages) + [data] && result == Parse(old(result), data)
      ensures !IsValidationMessage(data) ==> messages == old(messages) && result == old(result)
      ensures error == old(error) && isValidating == old(isValidating)
    {
      if StartsWith(data, ErrTag) || StartsWith(data, WarnTag) {
        messages := messages + [data];
        ParseValidationMessage(data);
      }
    }

    /** The start of `uploadAndValidateConfig`: without a connection only
      the error is set; otherwise the messages and the result are reset. */
    method StartUpload(isConnected: bool, connectionId: string) returns (started: bool)
      requires Valid()
      modifies this
      ensures Valid()
      ensures started <==> isConnected && connectionId != ""
      ensures !started ==> error == "Not connected to device" && result == old(result)
                           && messages == old(messages) && isValidating == old(isValidating)
      ensures started ==> error == "" && isValidating && messages == [] && result == Reset
    {
      if !isConnected || connectionId == "" {
        error := "Not connected to device";
        return false;
      }
      isValidating := true;
      error := "";
      messages := [];
      result := Reset;
      started := true;
    }

    /** The `catch` of `uploadAndValidateConfig`: the thrown error is
      recorded and the validation fails. */
    method UploadFailed(err: string)
      requires Valid()
      modifies this
      ensures Valid()
      ensures result == ValidationResult(Fail, old(result).errors + ["Upload error: " + err], old(result).warnings)
      ensures error == "Validation failed: " + err && !isValidating && messages == old(messages)
    {
      error := "Validation failed: " + err;
      isValidating := false;
      result := ValidationResult(Fail, result.errors + ["Upload error: " + err], result.warnings);
    }
  }
}
