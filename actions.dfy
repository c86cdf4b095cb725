/**
 * The executors of the two declared tools. A backend command is recorded in
 * an abstract trace of service calls instead of being sent over the
 * websocket; each executor returns its fixed confirmation.
 */
module Actions {
  import opened Wrappers

  /** The parsed input of `setLight`; JavaScript numbers are reals here. */
  datatype LightInput = LightInput(
    entity_id: string,
    kelvin: Option<real>,
    brightness_pct: Option<real>,
    rgb_color: Option<seq<real>>,
    transition: Option<real>)

  /** The parsed input of `toggleSwitch`. */
  datatype SwitchInput = SwitchInput(entity_id: string)

  datatype ServiceData = LightData(light: LightInput) | SwitchData(switch: SwitchInput)

  /** One `client.callService(domain, service, data)`. */
  datatype ServiceCall = ServiceCall(domain: string, service: string, data: ServiceData)

  datatype Executed = Executed(trace: seq<ServiceCall>, result: string)

  const LightUpdated := "Light updated"
  const SwitchToggled := "Switch toggled"

  /** `setLight`: one `light`/`turn_on` call carrying its input unchanged. */
  function SetLight(trace: seq<ServiceCall>, data: LightInput): (r: Executed)
    ensures |r.trace| == |trace| + 1 && r.trace[..|trace|] == trace
    ensures r.trace[|trace|] == ServiceCall("light", "turn_on", LightData(data))
    ensures r.result == LightUpdated
  {
    Executed(trace + [ServiceCall("light", "turn_on", LightData(data))], LightUpdated)
  }

  /** `toggleSwitch`: one `switch`/`toggle` call carrying its input unchanged. */
  function ToggleSwitch(trace: seq<ServiceCall>, data: SwitchInput): (r: Executed)
    ensures |r.trace| == |trace| + 1 && r.trace[..|trace|] == trace
    ensures r.trace[|trace|] == ServiceCall("switch", "toggle", SwitchData(data))
    ensures r.result == SwitchToggled
  {
    Executed(trace + [ServiceCall("switch", "toggle", SwitchData(data))], SwitchToggled)
  }

  /** The command an executor issues targets the entity it was given. */
  lemma CommandTargetsInput(trace: seq<ServiceCall>, light: LightInput, switch: SwitchInput)
    ensures var c := SetLight(trace, light).trace[|trace|];
      c.domain == "light" && c.data.LightData? && c.data.light.entity_id == light.entity_id
    ensures var c := ToggleSwitch(trace, switch).trace[|trace|];
      c.domain == "switch" && c.data.SwitchData? && c.data.switch.entity_id == switch.entity_id
  {
  }

  /** Toggling one switch twice sends the same toggle command twice and nothing else. */
  lemma ToggleTwice(trace: seq<ServiceCall>, data: SwitchInput)
    ensures var once := ToggleSwitch(trace, data);
      var twice := ToggleSwitch(once.trace, data);
      var c := ServiceCall("switch", "toggle", SwitchData(data));
      twice.trace == trace + [c, c] && once.result == twice.result == SwitchToggled
  {
    var c := ServiceCall("switch", "toggle", SwitchData(data));
    assert trace + [c] + [c] == trace + [c, c];
  }
}
