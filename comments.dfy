/** The comment templates attached to configuration paths when a
    configuration is exported, and the per-axis comment. */
module CommentTemplates {
  import opened Wrappers
  import opened Strings

  datatype Position = Above | Inline | Below

  datatype CommentMapping = CommentMapping(path: string, comment: string, position: Position)

  /** Root level configuration. */
  const RootComments: seq<CommentMapping> := [
    CommentMapping("name", "Configuration name - helps identify this setup", Above),
    CommentMapping("board", "Target board type (ESP32, ESP32-S2, ESP32-S3, etc.)", Above),
    CommentMapping("version", "FluidNC firmware version this config is designed for", Above)
  ]

  /** Axes configuration. */
  const AxesComments: seq<CommentMapping> := [
    CommentMapping("axes", "Axis configuration - defines motion system behavior", Above),
    CommentMapping("axes.x", "X-axis configuration (typically horizontal left-right movement)", Above),
    CommentMapping("axes.y", "Y-axis configuration (typically horizontal front-back movement)", Above),
    CommentMapping("axes.z", "Z-axis configuration (typically vertical up-down movement)", Above),
    CommentMapping("axes.a", "A-axis configuration (rotational axis around X)", Above),
    CommentMapping("axes.b", "B-axis configuration (rotational axis around Y)", Above),
    CommentMapping("axes.c", "C-axis configuration (rotational axis around Z)", Above)
  ]

  /** Motor configuration. */
  const MotorComments: seq<CommentMapping> := [
    CommentMapping("motor0", "Primary motor driver configuration", Above),
    CommentMapping("motor1", "Secondary motor driver configuration (dual motor setup)", Above)
  ]

  /** Motor settings. */
  const MotorSettingComments: seq<CommentMapping> := [
    CommentMapping("steps_per_mm", "Steps per millimeter - depends on motor, driver microsteps, and mechanical setup", Inline),
    CommentMapping("max_rate_mm_per_min", "Maximum speed in mm/min", Inline),
    CommentMapping("acceleration_mm_per_sec2", "Acceleration in mm/sec\U{00B2} - start conservative and increase gradually", Inline),
    CommentMapping("max_travel_mm", "Maximum travel distance in mm", Inline),
    CommentMapping("soft_limits", "Enable software limits (requires homing)", Inline)
  ]

  /** Pin assignments. */
  const PinComments: seq<CommentMapping> := [
    CommentMapping("step_pin", "Step pulse pin (e.g., gpio.2)", Inline),
    CommentMapping("direction_pin", "Direction control pin (e.g., gpio.5)", Inline),
    CommentMapping("disable_pin", "Motor enable/disable pin (e.g., gpio.13)", Inline)
  ]

  /** Homing configuration. */
  const HomingComments: seq<CommentMapping> := [
    CommentMapping("homing", "Homing behavior configuration", Above),
    CommentMapping("homing.cycle", "Homing cycle order (1=first, 2=second, etc.)", Inline),
    CommentMapping("homing.positive_direction", "True if homing moves in positive direction", Inline),
    CommentMapping("homing.mpos_mm", "Machine position after homing (mm)", Inline),
    CommentMapping("homing.feed_mm_per_min", "Homing feed rate (mm/min)", Inline),
    CommentMapping("homing.seek_mm_per_min", "Homing seek rate (mm/min) - faster initial approach", Inline)
  ]

  /** TMC driver configuration. */
  const TmcComments: seq<CommentMapping> := [
    CommentMapping("tmc_2208", "TMC2208 stepper driver configuration", Above),
    CommentMapping("tmc_2209", "TMC2209 stepper driver configuration", Above),
    CommentMapping("tmc_5160", "TMC5160 stepper driver configuration", Above),
    CommentMapping("current_ma", "Motor current in milliamps", Inline),
    CommentMapping("microsteps", "Microstepping setting (1, 2, 4, 8, 16, 32, 64, 128, 256)", Inline),
    CommentMapping("stealthchop", "Enable StealthChop mode for quieter operation", Inline),
    CommentMapping("stallguard", "StallGuard threshold for sensorless homing (0-255)", Inline)
  ]

  /** Spindle configuration. */
  const SpindleComments: seq<CommentMapping> := [
    CommentMapping("spindle", "Spindle/laser control configuration", Above),
    CommentMapping("spindle.output_pin", "PWM output pin for spindle speed control", Inline),
    CommentMapping("spindle.enable_pin", "Spindle enable/disable pin", Inline),
    CommentMapping("spindle.direction_pin", "Spindle direction control pin", Inline),
    CommentMapping("spindle.pwm_hz", "PWM frequency in Hz", Inline),
    CommentMapping("spindle.off_on_alarm", "Turn off spindle when alarm is triggered", Inline),
    CommentMapping("spindle.tool_num", "Tool number for this spindle", Inline),
    CommentMapping("spindle.speed_map", "Speed mapping: \"rpm1=pwm1% rpm2=pwm2%\" format", Inline)
  ]

  /** Probe configuration. */
  const ProbeComments: seq<CommentMapping> := [
    CommentMapping("probe", "Touch probe configuration", Above),
    CommentMapping("probe.pin", "Probe input pin", Inline),
    CommentMapping("probe.check_mode_start", "Check probe state on startup", Inline)
  ]

  /** Control pins. */
  const ControlComments: seq<CommentMapping> := [
    CommentMapping("control", "Control input pins (feed hold, cycle start, etc.)", Above),
    CommentMapping("control.safety_door_pin", "Safety door input pin", Inline),
    CommentMapping("control.reset_pin", "Reset button input pin", Inline),
    CommentMapping("control.feed_hold_pin", "Feed hold button input pin", Inline),
    CommentMapping("control.cycle_start_pin", "Cycle start button input pin", Inline)
  ]

  /** User outputs. */
  const UserOutputComments: seq<CommentMapping> := [
    CommentMapping("user_outputs", "Custom output pins for accessories", Above)
  ]

  /** UART configuration. */
  const UartComments: seq<CommentMapping> := [
    CommentMapping("uart", "UART communication configuration", Above),
    CommentMapping("uart.uart0", "UART channel 0 configuration", Above),
    CommentMapping("uart.uart1", "UART channel 1 configuration", Above),
    CommentMapping("uart.uart2", "UART channel 2 configuration", Above),
    CommentMapping("baud", "Baud rate (9600, 19200, 38400, 57600, 115200, etc.)", Inline),
    CommentMapping("tx_pin", "UART transmit pin", Inline),
    CommentMapping("rx_pin", "UART receive pin", Inline),
    CommentMapping("rts_pin", "RTS (Request to Send) pin for hardware flow control", Inline),
    CommentMapping("cts_pin", "CTS (Clear to Send) pin for hardware flow control", Inline)
  ]

  /** SD card configuration. */
  const SdComments: seq<CommentMapping> := [
    CommentMapping("sd", "SD card interface configuration", Above),
    CommentMapping("sd.card_detect_pin", "SD card detection pin (optional)", Inline),
    CommentMapping("sd.miso_pin", "SPI MISO pin for SD card", Inline),
    CommentMapping("sd.mosi_pin", "SPI MOSI pin for SD card", Inline),
    CommentMapping("sd.sck_pin", "SPI clock pin for SD card", Inline),
    CommentMapping("sd.cs_pin", "SPI chip select pin for SD card", Inline)
  ]

  /** Macros. */
  const MacroComments: seq<CommentMapping> := [
    CommentMapping("macros", "Custom G-code macros", Above),
    CommentMapping("macros.macro0", "Macro 0 - triggered by M0 command", Inline),
    CommentMapping("macros.macro1", "Macro 1 - triggered by M1 command", Inline),
    CommentMapping("macros.macro2", "Macro 2 - triggered by M2 command", Inline),
    CommentMapping("macros.macro3", "Macro 3 - triggered by M3 command", Inline),
    CommentMapping("macros.startup_line0", "Startup line 0 - executed on boot", Inline),
    CommentMapping("macros.startup_line1", "Startup line 1 - executed on boot", Inline)
  ]

  /** I2SO configuration. */
  const I2soComments: seq<CommentMapping> := [
    CommentMapping("i2so", "I2S shift register output configuration", Above),
    CommentMapping("i2so.bck_pin", "I2S bit clock pin", Inline),
    CommentMapping("i2so.data_pin", "I2S data pin", Inline),
    CommentMapping("i2so.ws_pin", "I2S word select pin", Inline)
  ]

  /** `CONFIGURATION_COMMENTS`, section by section in table order. */
  const ConfigurationComments: seq<CommentMapping> := RootComments + (AxesComments + LaterComments)

  /** The sections after the axes. */
  const LaterComments: seq<CommentMapping> :=
    MotorComments + (MotorSettingComments + (PinComments + (HomingComments + (TmcComments + (SpindleComments + (ProbeComments + (ControlComments + (UserOutputComments + (UartComments + (SdComments + (MacroComments + (I2soComments))))))))))))

  /** The first entry of `table` whose path is `p`. */
  function FindPath(table: seq<CommentMapping>, p: string): (r: Option<CommentMapping>)
    ensures r.Some? ==> r.value.path == p && r.value in table
  {
    if table == [] then None
    else if table[0].path == p then Some(table[0])
    else FindPath(table[1..], p)
  }

  /** Nothing is found exactly when no entry has the path, and what is found
      is an entry with the path and no earlier entry has it. */
  lemma {:induction false} FindPathMeaning(table: seq<CommentMapping>, p: string)
    ensures FindPath(table, p).None? <==> forall i :: 0 <= i < |table| ==> table[i].path != p
    ensures FindPath(table, p).Some? ==>
              exists i :: 0 <= i < |table| && table[i] == FindPath(table, p).value
                          && forall j :: 0 <= j < i ==> table[j].path != p
    decreases |table|
  {
    if table != [] && table[0].path != p {
      var rest := table[1..];
      FindPathMeaning(rest, p);
      forall i | 0 < i < |table| ensures table[i] == rest[i - 1] { }
      if FindPath(rest, p).Some? {
        var i :| 0 <= i < |rest| && rest[i] == FindPath(rest, p).value
                 && forall j :: 0 <= j < i ==> rest[j].path != p;
        assert table[i + 1] == FindPath(table, p).value;
        forall j | 0 <= j < i + 1 ensures table[j].path != p {
          if j > 0 { assert table[j] == rest[j - 1]; }
        }
      }
    }
  }

  /** The text after the last dot of `path` (all of it when there is none). */
  function LastSegment(path: string): (r: string)
    ensures '.' !in r
  {
    var parts := Split(path, '.');
    parts[|parts| - 1]
  }

  /** The last segment is a suffix of the path, preceded by a dot unless it
      is the whole path. */
  lemma {:induction false} LastSegmentIsSuffix(path: string)
    ensures var r := LastSegment(path);
            |r| <= |path| && r == path[|path| - |r|..] && (|r| < |path| ==> path[|path| - |r| - 1] == '.')
    decreases |path|
  {
    var i := IndexOf(path, '.');
    if i < |path| {
      var rest := path[i + 1..];
      var ps := Split(rest, '.');
      assert Split(path, '.') == [path[..i]] + ps;
      assert ([path[..i]] + ps)[|ps|] == ps[|ps| - 1];
      assert LastSegment(path) == LastSegment(rest);
      LastSegmentIsSuffix(rest);
      var r := LastSegment(rest);
      assert path[|path| - |r|..] == rest[|rest| - |r|..];
      if |r| == |rest| {
        assert path[|path| - |r| - 1] == path[i];
      } else {
        assert path[|path| - |r| - 1] == rest[|rest| - |r| - 1];
      }
    }
  }

  /** The lookup of `getCommentForPath` over any table: the first entry
      for the whole path, or else the first entry for its last segment. */
  function CommentFor(table: seq<CommentMapping>, path: string): (r: Option<CommentMapping>)
    ensures r.Some? ==> r.value in table
    ensures r.Some? ==> r.value.path == path || r.value.path == LastSegment(path)
    ensures FindPath(table, path).Some? ==> r == FindPath(table, path)
    ensures FindPath(table, path).None? ==> r == FindPath(table, LastSegment(path))
    ensures r.None? <==> (forall i :: 0 <= i < |table| ==> table[i].path != path && table[i].path != LastSegment(path))
  {
    var exact := FindPath(table, path);
    FindPathMeaning(table, path);
    FindPathMeaning(table, LastSegment(path));
    if exact.Some? then exact else FindPath(table, LastSegment(path))
  }

  /** `getCommentForPath(path)`. */
  function GetCommentForPath(path: string): Option<CommentMapping>
  {
    CommentFor(ConfigurationComments, path)
  }

  const AxisLetters: seq<string> := ["x", "y", "z", "a", "b", "c"]

  /** `getAxisComment(axisName)`. */
  function GetAxisComment(axisName: string): string
  {
    match AsciiLower(axisName)
    case "x" => "X-axis configuration (typically horizontal left-right movement)"
    case "y" => "Y-axis configuration (typically horizontal front-back movement)"
    case "z" => "Z-axis configuration (typically vertical up-down movement)"
    case "a" => "A-axis configuration (rotational axis around X)"
    case "b" => "B-axis configuration (rotational axis around Y)"
    case "c" => "C-axis configuration (rotational axis around Z)"
    case _ => AsciiUpper(axisName) + "-axis configuration"
  }

  /** The entry found is the first one with the path. */
  lemma FindPathAt(table: seq<CommentMapping>, p: string, k: nat)
    requires k < |table| && table[k].path == p
    requires forall j :: 0 <= j < k ==> table[j].path != p
    ensures FindPath(table, p) == Some(table[k])
  {
    FindPathMeaning(table, p);
    var r := FindPath(table, p);
    var i :| 0 <= i < |table| && table[i] == r.value
             && forall j :: 0 <= j < i ==> table[j].path != p;
    assert !(i < k) && !(k < i);
  }

  /** Searching a concatenation searches the first part, then the second. */
  lemma {:induction false} FindPathConcat(a: seq<CommentMapping>, b: seq<CommentMapping>, p: string)
    ensures FindPath(a + b, p) == if FindPath(a, p).Some? then FindPath(a, p) else FindPath(b, p)
    decreases |a|
  {
    if a != [] {
      assert (a + b)[0] == a[0];
      assert (a + b)[1..] == a[1..] + b;
      FindPathConcat(a[1..], b, p);
    } else {
      assert a + b == b;
    }
  }

  /** A path the root section lacks and the axes section has is found in
      the axes section. */
  lemma AxesSectionLookup(p: string)
    requires FindPath(RootComments, p).None? && FindPath(AxesComments, p).Some?
    ensures FindPath(ConfigurationComments, p) == FindPath(AxesComments, p)
  {
    FindPathConcat(RootComments, AxesComments + LaterComments, p);
    FindPathConcat(AxesComments, LaterComments, p);
  }

  /** Each of the six axis letters, in either case, gets the comment of the
      axes section's `axes.<letter>` entry, which the root section lacks. */
  lemma AxisCommentsMatchSection(axisName: string)
    requires AsciiLower(axisName) in AxisLetters
    ensures var p := "axes." + AsciiLower(axisName);
            FindPath(RootComments, p).None? && FindPath(AxesComments, p).Some?
            && GetAxisComment(axisName) == FindPath(AxesComments, p).value.comment
  {
    var k :| 0 <= k < |AxisLetters| && AxisLetters[k] == AsciiLower(axisName);
    AxisEntry(k + 1);
    AxisLetterComment(axisName, k + 1);
  }

  /** The entry at position `k` of the axes section (after its heading) is
      the first with its path `axes.<letter>`, and the root section has none. */
  lemma AxisEntry(k: nat)
    requires 1 <= k < |AxesComments|
    ensures AxesComments[k].path == "axes." + AxisLetters[k - 1]
    ensures FindPath(RootComments, AxesComments[k].path).None?
    ensures FindPath(AxesComments, AxesComments[k].path) == Some(AxesComments[k])
  {
    var p := AxesComments[k].path;
    AxesPaths();
    FindPathAt(AxesComments, p, k);
    RootPaths();
    FindPathMeaning(RootComments, p);
  }

  /** The axes section's paths: the heading, then one `axes.<letter>` each. */
  lemma AxesPaths()
    ensures AxesComments[0].path == "axes"
    ensures forall k :: 1 <= k < |AxesComments| ==> AxesComments[k].path == "axes." + AxisLetters[k - 1]
    ensures forall i, j :: 0 <= i < j < |AxesComments| ==> AxesComments[i].path != AxesComments[j].path
  {
    assert forall k :: 1 <= k < |AxesComments| ==> |AxesComments[k].path| == 6;
    assert forall i, j :: 1 <= i < j < |AxesComments| ==> AxesComments[i].path[5] != AxesComments[j].path[5];
  }

  /** No root path starts with 'a'. */
  lemma RootPaths()
    ensures forall j :: 0 <= j < |RootComments| ==> |RootComments[j].path| > 0 && RootComments[j].path[0] != 'a'
  {
  }

  /** `getAxisComment` gives that entry's comment for its letter, in either case. */
  lemma AxisLetterComment(axisName: string, k: nat)
    requires 1 <= k < |AxesComments| && AsciiLower(axisName) == AxisLetters[k - 1]
    ensures GetAxisComment(axisName) == AxesComments[k].comment
  {
  }

  /** Each of the six axis letters, in either case, gets the comment of the
      whole table's `axes.<letter>` entry. */
  lemma AxisCommentsMatchTable(axisName: string)
    requires AsciiLower(axisName) in AxisLetters
    ensures FindPath(ConfigurationComments, "axes." + AsciiLower(axisName)).Some?
    ensures GetAxisComment(axisName) == FindPath(ConfigurationComments, "axes." + AsciiLower(axisName)).value.comment
  {
    AxisCommentsMatchSection(axisName);
    AxesSectionLookup("axes." + AsciiLower(axisName));
  }

  /** The board entry of the root section is found for the path "board". */
  lemma BoardComment()
    ensures GetCommentForPath("board") == Some(RootComments[1])
  {
    assert ConfigurationComments[..3] == RootComments;
    FindPathAt(ConfigurationComments, "board", 1);
  }

  /** Any other axis name is upper-cased into a generic comment. */
  lemma OtherAxisComment(axisName: string)
    requires AsciiLower(axisName) !in AxisLetters
    ensures GetAxisComment(axisName) == AsciiUpper(axisName) + "-axis configuration"
  {
  }

}
