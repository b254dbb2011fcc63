/** The review step: the whole configuration is validated once more, with
    errors that block the wizard and warnings that do not, and summarised. */
module ReviewStep {
  import opened Wrappers
  import opened Strings
  import opened JsonTree
  import opened StepCommon

  /** A schema issue: the path to the offending value, each segment written
      out, and the message. */
  datatype SchemaIssue = SchemaIssue(path: seq<string>, message: string)

  const NameRequired: string := "Machine name is required"
  const BoardRequired: string := "Board type is required"
  const AxisRequired: string := "At least one axis must be configured"
  const YamlFailed: string := "Failed to generate YAML configuration"
  const NoSpindle: string := "No spindle configuration - this may be intentional"
  const NoIo: string := "No IO configuration - probes and coolant control will not be available"

  function IssueMessages(issue: SchemaIssue): seq<string>
  {
    [Join(issue.path, ".") + ": " + issue.message]
  }

  /** `!x || x.trim() === ''` on a name or board: missing, falsy, or a
      blank string. */
  predicate TextMissing(o: Option<Json>)
  {
    !Present(o) || (o.value.JStr? && IsBlank(o.value.s))
  }

  /** `validateStep`'s errors: every schema issue, then a missing name, a
      missing board, no axes, and a failed YAML rendering. `issues` is what
      the configuration schema reports (none when it accepts) and
      `yamlFails` whether rendering the YAML throws. */
  function ReviewErrors(config: Json, issues: seq<SchemaIssue>, yamlFails: bool): seq<string>
  {
    FlatMap(issues, IssueMessages) + CommonErrors(config) + (if yamlFails then [YamlFailed] else [])
  }

  function CommonErrors(config: Json): seq<string>
  {
    MissingErrors(Prop(config, "name"), NameRequired) + MissingErrors(Prop(config, "board"), BoardRequired)
    + (if NoAxes(config) then [AxisRequired] else [])
  }

  function MissingErrors(o: Option<Json>, message: string): seq<string>
  {
    if TextMissing(o) then [message] else []
  }

  /** The warnings of one axis entry: no motor, or a motor without a driver
      section; then no homing. */
  function AxisWarnings(e: Field): seq<string>
  {
    var m := Prop(e.val, "motor0");
    (if !Present(m) then [e.key + " axis: No motor configuration"]
     else if !Present(Prop(m.value, "tmc_2130")) && !Present(Prop(m.value, "tmc_2209")) then
       [e.key + " axis: No TMC driver configuration"]
     else [])
    + (if !Present(Prop(e.val, "homing")) then [e.key + " axis: No homing configuration"] else [])
  }

  /** `!config.io || Object.keys(config.io).length === 0`. */
  predicate NoIoConfigured(config: Json)
  {
    var io := Prop(config, "io");
    !Present(io) || KeysOf(io.value) == []
  }

  /** `validateStep`'s warnings: the axes, then a missing spindle, then a
      missing or empty IO block. */
  function ReviewWarnings(config: Json): seq<string>
  {
    FlatMap(EntriesOf(Prop(config, "axes")), AxisWarnings)
    + (if !Present(Prop(config, "spindle")) then [NoSpindle] else [])
    + (if NoIoConfigured(config) then [NoIo] else [])
  }

  /** `validateStep`: the step is valid exactly when there is no error;
      warnings never block it. */
  method ValidateStep(config: Json, issues: seq<SchemaIssue>, yamlFails: bool)
    returns (errors: seq<string>, warnings: seq<string>, isValid: bool)
    ensures errors == ReviewErrors(config, issues, yamlFails)
    ensures warnings == ReviewWarnings(config)
    ensures isValid <==> errors == []
  {
    errors := ForEachPush([], issues, IssueMessages);
    assert errors == FlatMap(issues, IssueMessages);
    errors := PushCommon(errors, config);
    warnings := CollectWarnings(config);
    var yaml: seq<string> := if yamlFails then [YamlFailed] else [];
    errors := errors + yaml;
    isValid := |errors| == 0;
  }

  /** The name, board and axes checks. */
  method PushCommon(errors: seq<string>, config: Json) returns (errors': seq<string>)
    ensures errors' == errors + CommonErrors(config)
  {
    errors' := PushIfMissing(errors, Prop(config, "name"), NameRequired);
    errors' := PushIfMissing(errors', Prop(config, "board"), BoardRequired);
    var axes := Prop(config, "axes");
    if !Present(axes) || |KeysOf(axes.value)| == 0 {
      errors' := errors' + [AxisRequired];
    }
  }

  /** `if (!x || x.trim() === '') errors.push(message)`. */
  method PushIfMissing(errors: seq<string>, o: Option<Json>, message: string) returns (errors': seq<string>)
    ensures errors' == errors + MissingErrors(o, message)
  {
    var missing := !Present(o) || (o.value.JStr? && JsTrim(o.value.s) == "");
    if o.Some? && o.value.JStr? {
      BlankIffTrimEmpty(o.value.s);
    }
    assert missing == TextMissing(o);
    errors' := errors + if missing then [message] else [];
  }

  /** The warning checks, in order. */
  method CollectWarnings(config: Json) returns (warnings: seq<string>)
    ensures warnings == ReviewWarnings(config)
  {
    warnings := [];
    var axes := Prop(config, "axes");
    ghost var all := EntriesOf(axes);
    if Present(axes) {
      warnings := ForEachPush(warnings, SpreadFields(axes.value), AxisWarnings);
    } else {
      assert all == [];
    }
    warnings := PushGlobalWarnings(warnings, config);
  }

  /** The spindle and IO warnings. */
  method PushGlobalWarnings(warnings: seq<string>, config: Json) returns (warnings': seq<string>)
    ensures warnings' == warnings + (if !Present(Prop(config, "spindle")) then [NoSpindle] else [])
                        + (if NoIoConfigured(config) then [NoIo] else [])
  {
    warnings' := warnings;
    if !Present(Prop(config, "spindle")) {
      warnings' := warnings' + [NoSpindle];
    }
    var io := Prop(config, "io");
    if !Present(io) || |KeysOf(io.value)| == 0 {
      warnings' := warnings' + [NoIo];
    }
  }

  /** The review passes exactly when the schema accepts the configuration,
      it has a name, a board and an axis, and its YAML renders. */
  lemma ErrorsEmptyIff(config: Json, issues: seq<SchemaIssue>, yamlFails: bool)
    ensures ReviewErrors(config, issues, yamlFails) == [] <==>
              issues == [] && !TextMissing(Prop(config, "name")) && !TextMissing(Prop(config, "board"))
              && !NoAxes(config) && !yamlFails
  {
    FlatMapEmpty(issues, IssueMessages);
    if issues != [] {
      assert IssueMessages(issues[0]) != [];
    }
  }

  /** An axis has no warning exactly when it has a motor with a driver
      section and a homing section. */
  lemma AxisWarningsEmptyIff(e: Field)
    ensures AxisWarnings(e) == [] <==>
              var m := Prop(e.val, "motor0");
              Present(m) && (Present(Prop(m.value, "tmc_2130")) || Present(Prop(m.value, "tmc_2209")))
              && Present(Prop(e.val, "homing"))
  {
  }

  // ---------------------------------------------------------------------
  // Summary

  datatype Summary = Summary(
    machine: Json, board: Json, axes: nat, axesList: string,
    hasSpindle: bool, hasHoming: bool, hasIO: bool)

  /** `Object.values(axes).some(axis => axis.homing)`. */
  predicate AnyHoming(entries: seq<Field>)
    decreases |entries|
  {
    entries != [] && (Present(Prop(entries[0].val, "homing")) || AnyHoming(entries[1..]))
  }

  lemma {:induction false} AnyHomingMeaning(entries: seq<Field>)
    ensures AnyHoming(entries) <==> exists i :: 0 <= i < |entries| && Present(Prop(entries[i].val, "homing"))
    decreases |entries|
  {
    if entries != [] {
      AnyHomingMeaning(entries[1..]);
      if exists i :: 0 <= i < |entries| && Present(Prop(entries[i].val, "homing")) {
        var i :| 0 <= i < |entries| && Present(Prop(entries[i].val, "homing"));
        if i > 0 {
          assert entries[1..][i - 1] == entries[i];
        }
      }
      if AnyHoming(entries[1..]) {
        var i :| 0 <= i < |entries[1..]| && Present(Prop(entries[1..][i].val, "homing"));
        assert entries[i + 1] == entries[1..][i];
      }
    }
  }

  /** `getConfigSummary()`. The upper-casing is ASCII only. */
  function ConfigSummary(config: Json): Summary
  {
    var axes := Prop(config, "axes");
    var io := Prop(config, "io");
    Summary(
      Or(Prop(config, "name"), JStr("Unnamed")),
      Or(Prop(config, "board"), JStr("Not specified")),
      if Present(axes) then |KeysOf(axes.value)| else 0,
      if Present(axes) then AsciiUpper(Join(KeysOf(axes.value), ", ")) else "None",
      Present(Prop(config, "spindle")),
      Present(axes) && AnyHoming(SpreadFields(axes.value)),
      Present(io) && |KeysOf(io.value)| > 0)
  }

  /** The summary agrees with the checks: no axis counted exactly when the
      no-axis error is raised, the spindle and IO flags are off exactly when
      their warnings are given, and homing is reported exactly when some
      axis has a homing section; the list has one name per axis. */
  lemma SummaryAgrees(config: Json)
    ensures var s := ConfigSummary(config);
            (s.axes == 0 <==> NoAxes(config))
            && (!s.hasSpindle <==> NoSpindle in ReviewWarnings(config))
            && (!s.hasIO <==> NoIo in ReviewWarnings(config))
            && (s.hasHoming <==> exists i :: 0 <= i < |EntriesOf(Prop(config, "axes"))|
                                   && Present(Prop(EntriesOf(Prop(config, "axes"))[i].val, "homing")))
  {
    var axes := Prop(config, "axes");
    AnyHomingMeaning(EntriesOf(axes));
    var fromAxes := FlatMap(EntriesOf(axes), AxisWarnings);
    var entries := EntriesOf(axes);
    forall i | 0 <= i < |entries|
      ensures NoSpindle !in AxisWarnings(entries[i]) && NoIo !in AxisWarnings(entries[i])
    {
      AxisWarningsNotGlobal(entries[i]);
    }
    FlatMapHas(entries, AxisWarnings, NoSpindle);
    FlatMapHas(entries, AxisWarnings, NoIo);
    assert NoSpindle != NoIo by { assert |NoSpindle| < |NoIo|; }
  }

  /** A per-axis warning ends in "configuration", the global ones do not. */
  lemma AxisWarningsNotGlobal(e: Field)
    ensures NoSpindle !in AxisWarnings(e) && NoIo !in AxisWarnings(e)
  {
    forall w | w in AxisWarnings(e) ensures w != NoSpindle && w != NoIo {
      assert w[|w| - 1] == 'n';
      assert NoSpindle[|NoSpindle| - 1] == 'l' && NoIo[|NoIo| - 1] == 'e';
    }
  }

  // ---------------------------------------------------------------------
  // Download name

  /** `s.replace(/\s+/g, '_')`: every run of white space becomes one
      underscore. */
  function CollapseWhitespace(s: string): (r: string)
    ensures forall i :: 0 <= i < |r| ==> !IsJsWhitespace(r[i])
    decreases |s|
  {
    if s == [] then []
    else if IsJsWhitespace(s[0]) then "_" + CollapseWhitespace(TrimStartBy(s[1..], IsJsWhitespace))
    else [s[0]] + CollapseWhitespace(s[1..])
  }

  /** A name without white space is kept as it is. */
  lemma {:induction false} CollapseKeeps(s: string)
    requires forall i :: 0 <= i < |s| ==> !IsJsWhitespace(s[i])
    ensures CollapseWhitespace(s) == s
    decreases |s|
  {
    if s != [] {
      CollapseKeeps(s[1..]);
    }
  }

  /** The file name of the download: `config.name?.replace(/\s+/g, '_')`,
      or `fluidnc` when that is undefined or empty, then `_config.yaml`.
      A name that is neither nullish nor a string has no `replace`, and the
      call throws: `None`. */
  function DownloadName(config: Json): (name: Option<string>)
    ensures var n := Prop(config, "name");
            n.Some? && n.value.JStr? && n.value.s != "" ==>
              name == Some(CollapseWhitespace(n.value.s) + "_config.yaml")
    ensures var n := Prop(config, "name");
            n.None? || n == Some(JNull) || n == Some(JStr("")) ==> name == Some("fluidnc_config.yaml")
    ensures var n := Prop(config, "name");
            name.None? <==> n.Some? && !n.value.JNull? && !n.value.JStr?
  {
    var n := Prop(config, "name");
    if n.Some? && !n.value.JNull? && !n.value.JStr? then None
    else
      var base := if n.Some? && n.value.JStr? then CollapseWhitespace(n.value.s) else "";
      CollapseNonEmpty(if n.Some? && n.value.JStr? then n.value.s else "");
      Some(if base == "" then "fluidnc_config.yaml" else base + "_config.yaml")
  }

  /** Collapsing keeps a non-empty name non-empty, and the empty one empty. */
  lemma CollapseNonEmpty(s: string)
    ensures s != "" <==> CollapseWhitespace(s) != ""
  {
  }

  /** Text without white space passes through. */
  lemma {:induction false} CollapseWord(a: string, b: string)
    requires forall i :: 0 <= i < |a| ==> !IsJsWhitespace(a[i])
    ensures CollapseWhitespace(a + b) == a + CollapseWhitespace(b)
    decreases |a|
  {
    if a == [] {
      assert a + b == b;
    } else {
      assert (a + b)[0] == a[0] && (a + b)[1..] == a[1..] + b;
      assert !IsJsWhitespace(a[0]);
      assert CollapseWhitespace(a + b) == [a[0]] + CollapseWhitespace(a[1..] + b);
      CollapseWord(a[1..], b);
      assert [a[0]] + (a[1..] + CollapseWhitespace(b)) == a + CollapseWhitespace(b);
    }
  }

  /** A single space before a word becomes an underscore. */
  lemma CollapseSpace(b: string)
    requires b != [] && !IsJsWhitespace(b[0])
    ensures CollapseWhitespace(" " + b) == "_" + CollapseWhitespace(b)
  {
    assert (" " + b)[1..] == b;
  }

  /** A name without white space is used as it is. */
  lemma DownloadNamePlain(config: Json, s: string)
    requires Prop(config, "name") == Some(JStr(s)) && s != ""
    requires forall i :: 0 <= i < |s| ==> !IsJsWhitespace(s[i])
    ensures DownloadName(config) == Some(s + "_config.yaml")
  {
    CollapseKeeps(s);
  }

  /** A single space between two words becomes an underscore. */
  lemma DownloadNameTwoWords(config: Json, a: string, b: string)
    requires Prop(config, "name") == Some(JStr(a + " " + b)) && b != []
    requires forall i :: 0 <= i < |a| ==> !IsJsWhitespace(a[i])
    requires forall i :: 0 <= i < |b| ==> !IsJsWhitespace(b[i])
    ensures DownloadName(config) == Some(a + "_" + b + "_config.yaml")
  {
    var s := a + " " + b;
    assert CollapseWhitespace(s) == a + "_" + b by {
      assert s == a + (" " + b);
      CollapseKeeps(b);
      CollapseSpace(b);
      CollapseWord(a, " " + b);
      assert a + ("_" + b) == a + "_" + b;
    }
    assert s != "" by {
      assert |s| == |a| + 1 + |b|;
    }
  }

}
