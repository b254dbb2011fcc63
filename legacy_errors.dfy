// Friendly messages for the issues of a failed schema validation
// (`generateUserFriendlyErrors` of the legacy mapper).

module LegacyErrors {
  import opened Wrappers
  import opened Strings
  import opened LegacyMapper

  const StepsHint: string := "steps_per_mm should be a positive number (e.g., 80 for typical setup)"
  const PinHint: string := "Pin should be a string like \"gpio.2\" or \"NO_PIN\" to disable"
  const RateHint: string := "Rate values should be positive numbers in mm/min"
  const PositiveHint: string := "Value must be positive for motor configuration"

  /** The hint for an issue with `code` at the dotted path `p`. For a wrong
      type, the first of `steps_per_mm`, `pin` and `rate` that `p` contains
      picks the hint; for a value too small, any of `steps_per_mm`, `rate`
      and `acceleration` gives the positive-value hint; every other case has
      none. */
  function FriendlyHint(code: string, p: string): (r: Option<string>)
    ensures r == Some(StepsHint) <==> code == "invalid_type" && Contains(p, "steps_per_mm")
    ensures r == Some(PinHint) <==> code == "invalid_type" && !Contains(p, "steps_per_mm") && Contains(p, "pin")
    ensures r == Some(RateHint)
            <==> code == "invalid_type" && !Contains(p, "steps_per_mm") && !Contains(p, "pin") && Contains(p, "rate")
    ensures r == Some(PositiveHint)
            <==> code == "too_small" && (Contains(p, "steps_per_mm") || Contains(p, "rate") || Contains(p, "acceleration"))
    ensures r.None? <==> !(code == "invalid_type" && (Contains(p, "steps_per_mm") || Contains(p, "pin") || Contains(p, "rate")))
                         && !(code == "too_small" && (Contains(p, "steps_per_mm") || Contains(p, "rate") || Contains(p, "acceleration")))
  {
    if code == "invalid_type" then
      if Contains(p, "steps_per_mm") then Some(StepsHint)
      else if Contains(p, "pin") then Some(PinHint)
      else if Contains(p, "rate") then Some(RateHint)
      else None
    else if code == "too_small" then
      if Contains(p, "steps_per_mm") || Contains(p, "rate") || Contains(p, "acceleration") then Some(PositiveHint)
      else None
    else None
  }

  /** The error suggestion for one issue: the message is prefixed with the
      dotted path, the hint is attached when there is one, and the path is
      kept. */
  function FriendlyError(issue: Issue): (s: Suggestion)
    ensures s.kind == Error && s.path == Some(issue.path)
    ensures StartsWith(s.message, Join(issue.path, "."))
    ensures s.message[|Join(issue.path, ".")|..] == ": " + issue.message
    ensures s.hint == FriendlyHint(issue.code, Join(issue.path, "."))
  {
    var p := Join(issue.path, ".");
    Suggestion(Error, p + ": " + issue.message, FriendlyHint(issue.code, p), Some(issue.path))
  }

  /** `generateUserFriendlyErrors`: one suggestion per issue, in order. */
  method GenerateUserFriendlyErrors(issues: seq<Issue>) returns (suggestions: seq<Suggestion>)
    ensures |suggestions| == |issues|
    ensures forall i :: 0 <= i < |issues| ==> suggestions[i] == FriendlyError(issues[i])
  {
    suggestions := [];
    for i := 0 to |issues|
      invariant |suggestions| == i
      invariant forall j :: 0 <= j < i ==> suggestions[j] == FriendlyError(issues[j])
    {
      var pathStr := Join(issues[i].path, ".");
      var suggestion := FriendlyHint(issues[i].code, pathStr);
      suggestions := suggestions + [Suggestion(Error, pathStr + ": " + issues[i].message, suggestion, Some(issues[i].path))];
    }
  }

  /** `s.includes(sub)` holds wherever `sub` sits in `s`. */
  lemma {:induction false} ContainsInfix(a: string, sub: string, b: string)
    ensures Contains(a + sub + b, sub)
    decreases |a|
  {
    if a == [] {
      assert (a + sub + b)[..|sub|] == sub;
    } else {
      ContainsInfix(a[1..], sub, b);
      assert (a + sub + b)[1..] == a[1..] + sub + b;
    }
  }

  /** A three-segment path joins with the separator between segments. */
  lemma JoinThree(a: string, b: string, c: string, sep: string)
    ensures Join([a, b, c], sep) == a + sep + b + sep + c
  {
    assert [a, b, c][1..] == [b, c];
    assert [b, c][1..] == [c];
    assert Join([c], sep) == c;
    assert Join([b, c], sep) == b + sep + c;
  }

  /** The message of an issue at a three-segment path. */
  lemma MessageThree(code: string, a: string, b: string, c: string, m: string)
    ensures FriendlyError(Issue(code, [a, b, c], m)).message == a + "." + b + "." + c + ": " + m
  {
    JoinThree(a, b, c, ".");
  }

  /** The first issue of the mapper's example: a string where
      `steps_per_mm` wants a number at `axes.x.steps_per_mm`. */
  lemma StepsExample()
    ensures var s := FriendlyError(Issue("invalid_type", ["axes", "x", "steps_per_mm"], "Expected number, received string"));
            s.kind == Error
            && s.message == "axes" + "." + "x" + "." + "steps_per_mm" + ": " + "Expected number, received string"
            && s.hint == Some(StepsHint)
  {
    var p := "axes" + "." + "x" + "." + "steps_per_mm";
    JoinThree("axes", "x", "steps_per_mm", ".");
    ContainsInfix("axes" + "." + "x" + ".", "steps_per_mm", "");
    assert "axes" + "." + "x" + "." + "steps_per_mm" + "" == p;
    assert FriendlyHint("invalid_type", p) == Some(StepsHint);
    MessageThree("invalid_type", "axes", "x", "steps_per_mm", "Expected number, received string");
  }

  /** The second issue of the mapper's example: a maximum rate of zero at
      `axes.x.max_rate_mm_per_min`. */
  lemma RateExample()
    ensures var s := FriendlyError(Issue("too_small", ["axes", "x", "max_rate_mm_per_min"], "Number must be greater than 0"));
            s.kind == Error
            && s.message == "axes" + "." + "x" + "." + "max_rate_mm_per_min" + ": " + "Number must be greater than 0"
            && s.hint == Some(PositiveHint)
  {
    var p := "axes" + "." + "x" + "." + "max_rate_mm_per_min";
    JoinThree("axes", "x", "max_rate_mm_per_min", ".");
    ContainsInfix("axes" + "." + "x" + "." + "max_", "rate", "_mm_per_min");
    assert "axes" + "." + "x" + "." + "max_" + "rate" + "_mm_per_min" == p;
    assert FriendlyHint("too_small", p) == Some(PositiveHint);
    MessageThree("too_small", "axes", "x", "max_rate_mm_per_min", "Number must be greater than 0");
  }

  /** An issue with any other code never carries a hint. */
  lemma OtherCodesNoHint(issue: Issue)
    requires issue.code != "invalid_type" && issue.code != "too_small"
    ensures FriendlyError(issue).hint.None?
  {
  }
}
