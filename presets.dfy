/** The built-in machine presets and their lookups. */
module Presets {
  import opened Wrappers
  import opened JsonTree

  datatype Category = Router | Laser | Plasma | Mill | Other

  datatype MachinePreset = MachinePreset(
    id: string, name: string, description: string, category: Category,
    author: string, version: string, tags: seq<string>, config: Json)

  function Axis(steps: real, rate: real, accel: real, travel: real): Json
  {
    JObj([Field("steps_per_mm", JNum(steps)), Field("max_rate_mm_per_min", JNum(rate)),
          Field("acceleration_mm_per_sec2", JNum(accel)), Field("max_travel_mm", JNum(travel)),
          Field("soft_limits", JBool(true))])
  }

  const ThreeAxes := JObj([Field("x", Axis(80.0, 5000.0, 100.0, 300.0)),
                           Field("y", Axis(80.0, 5000.0, 100.0, 300.0)),
                           Field("z", Axis(400.0, 1000.0, 50.0, 100.0))])

  const BasicRouter := MachinePreset(
    "basic-3axis-router", "Basic 3-Axis Router", "A simple 3-axis router configuration",
    Router, "FluidNC GUI", "1.0.0", ["basic", "3-axis", "router"],
    JObj([Field("name", JStr("Basic 3-Axis Router")), Field("board", JStr("")), Field("axes", ThreeAxes)]))

  const CncWithOutputs := MachinePreset(
    "cnc-with-outputs", "CNC with User Outputs",
    "CNC configuration with coolant and user-controllable outputs",
    Mill, "FluidNC GUI", "1.0.0", ["cnc", "outputs", "coolant"],
    JObj([Field("name", JStr("CNC with User Outputs")), Field("board", JStr("ESP32")), Field("axes", ThreeAxes),
          Field("io", JObj([Field("probe_pin", JStr("gpio.25")), Field("flood_pin", JStr("gpio.26")),
                            Field("mist_pin", JStr("gpio.27")), Field("user_output_0_pin", JStr("gpio.32")),
                            Field("user_output_1_pin", JStr("gpio.33")), Field("user_pwm_0_pin", JStr("gpio.36"))])),
          Field("control", JObj([Field("feed_hold_pin", JStr("gpio.17")), Field("cycle_start_pin", JStr("gpio.16")),
                                 Field("reset_pin", JStr("gpio.18"))]))]))

  /** `DEFAULT_PRESETS`. */
  const DefaultPresets: seq<MachinePreset> := [BasicRouter, CncWithOutputs]

  function FindById(ps: seq<MachinePreset>, id: string): (r: Option<MachinePreset>)
    ensures r.None? <==> forall i :: 0 <= i < |ps| ==> ps[i].id != id
    ensures r.Some? ==> r.value.id == id && r.value in ps
  {
    if ps == [] then None else if ps[0].id == id then Some(ps[0]) else FindById(ps[1..], id)
  }

  /** `getPresetById(id)`: the preset with that id, if one has it. */
  function GetPresetById(id: string): (r: Option<MachinePreset>)
    ensures r.None? <==> forall i :: 0 <= i < |DefaultPresets| ==> DefaultPresets[i].id != id
    ensures r.Some? ==> r.value.id == id && r.value in DefaultPresets
  {
    FindById(DefaultPresets, id)
  }

  function OfCategory(ps: seq<MachinePreset>, c: Category): (r: seq<MachinePreset>)
    ensures |r| <= |ps|
    ensures forall p :: p in r <==> p in ps && p.category == c
  {
    if ps == [] then []
    else (if ps[0].category == c then [ps[0]] else []) + OfCategory(ps[1..], c)
  }

  /** `getPresetsByCategory(c)`: the presets of category `c`, in table order. */
  function GetPresetsByCategory(c: Category): (r: seq<MachinePreset>)
    ensures forall p :: p in r <==> p in DefaultPresets && p.category == c
  {
    OfCategory(DefaultPresets, c)
  }

  /** Filtering keeps table order: it distributes over concatenation. */
  lemma {:induction false} OfCategoryConcat(ps: seq<MachinePreset>, qs: seq<MachinePreset>, c: Category)
    ensures OfCategory(ps + qs, c) == OfCategory(ps, c) + OfCategory(qs, c)
  {
    if ps == [] {
      assert ps + qs == qs;
    } else {
      assert (ps + qs)[1..] == ps[1..] + qs;
      OfCategoryConcat(ps[1..], qs, c);
    }
  }

  /** Preset ids are unique, and each category's presets are as listed. */
  lemma PresetTable()
    ensures DefaultPresets[0].id != DefaultPresets[1].id
    ensures GetPresetById("basic-3axis-router") == Some(BasicRouter)
    ensures GetPresetById("cnc-with-outputs") == Some(CncWithOutputs)
    ensures GetPresetsByCategory(Router) == [BasicRouter]
    ensures GetPresetsByCategory(Mill) == [CncWithOutputs]
    ensures GetPresetsByCategory(Laser) == []
  {
    assert "basic-3axis-router"[0] != "cnc-with-outputs"[0];
    assert DefaultPresets[1..] == [CncWithOutputs] && [CncWithOutputs][1..] == [];
    assert OfCategory([CncWithOutputs], Router) == [];
    assert OfCategory([CncWithOutputs], Laser) == [];
  }
}
