/** The gazoo demo: three rail cars and up to six MOBIL cars on a closed
    circuit, on one of two maliput backends. */
module Gazoo {
  import opened Wrappers
  import opened Text
  import opened ResourceSearch

  datatype MaliputBackend = MaliputMultilane | MaliputOsm

  /** The string value of each backend. */
  function BackendValue(b: MaliputBackend): string {
    match b
    case MaliputMultilane => "maliput_multilane"
    case MaliputOsm => "maliput_osm"
  }

  datatype GazooError =
    | UnknownBackend(value: string)
    | CarCountOutOfRange(count: int)
    | CircuitNotFound(backend: MaliputBackend)

  /** `MaliputBackend(value)`: raises for a string that is not one of the
      two values, so a third, unsupported backend can never be reached. */
  function BackendFromString(value: string): (r: Result<MaliputBackend, GazooError>)
    ensures r.Err? <==> value !in {"maliput_multilane", "maliput_osm"}
    ensures r.Err? ==> r.error == UnknownBackend(value)
    ensures r.Ok? ==> BackendValue(r.value) == value
  {
    if value == "maliput_multilane" then Ok(MaliputMultilane)
    else if value == "maliput_osm" then Ok(MaliputOsm)
    else Err(UnknownBackend(value))
  }

  /** Converting a backend to its value and back yields the backend. */
  lemma BackendRoundTrip(b: MaliputBackend)
    ensures BackendFromString(BackendValue(b)) == Ok(b)
  {
  }

  const DefaultBackend: string := "maliput_multilane"
  const DefaultNumCars: int := 3
  const MaxNumCars: int := 6

  /** The circuit file's name under `<root>/resources/osm`. */
  const OsmCircuitFile: string := "circuit.osm"
  const OsmResourcePrefix: seq<string> := ["resources", "osm"]

  /** `get_maliput_osm_circuit`: the first `<root>/resources/osm/circuit.osm`
      that exists over the roots in MALIPUT_OSM_RESOURCE_ROOT, else ''. */
  method GetMaliputOsmCircuit(env: ResourceEnv) returns (resolved: string)
    ensures resolved == FirstExisting(Candidates(env.rootVar, OsmResourcePrefix + [OsmCircuitFile]), env.pathExists)
  {
    resolved := FindFirst(env, OsmResourcePrefix + [OsmCircuitFile]);
  }

  /** `get_delphyne_gui_circuit`: the GUI resource path for the multilane
      circuit if it exists, else ''. */
  function DelphyneGuiCircuit(guiResolved: string, pathExists: string -> bool): (p: string)
    ensures p == "" || (p == guiResolved && pathExists(guiResolved))
    ensures pathExists(guiResolved) ==> p == guiResolved
  {
    if pathExists(guiResolved) then guiResolved else ""
  }

  datatype ScenarioSubtreeConfig = ScenarioSubtreeConfig(
    name: string, circuitFilepath: string, lanes: seq<string>, origin: string)

  const DefaultOrigin: string := "{0., 0.}"

  /** The per-backend configuration, given the circuit path found for it. */
  function ConfigFor(b: MaliputBackend, circuit: string): (c: ScenarioSubtreeConfig)
    ensures c.circuitFilepath == circuit && |c.lanes| == 3 && c.origin == DefaultOrigin
    ensures b == MaliputMultilane ==> c.name == "circuit_multilane" && c.lanes == ["l:s1_0", "l:s1_1", "l:s1_2"]
    ensures b == MaliputOsm ==> c.name == "circuit_osm" && c.lanes == ["1825", "1405", "1352"]
  {
    match b
    case MaliputMultilane => ScenarioSubtreeConfig("circuit_multilane", circuit, ["l:s1_0", "l:s1_1", "l:s1_2"], DefaultOrigin)
    case MaliputOsm => ScenarioSubtreeConfig("circuit_osm", circuit, ["1825", "1405", "1352"], DefaultOrigin)
  }

  /** The circuit path each backend's own resolver yields. */
  function BackendCircuit(b: MaliputBackend, env: ResourceEnv, guiResolved: string): string {
    match b
    case MaliputMultilane => DelphyneGuiCircuit(guiResolved, env.pathExists)
    case MaliputOsm => FirstExisting(Candidates(env.rootVar, OsmResourcePrefix + [OsmCircuitFile]), env.pathExists)
  }

  /** `get_scenario_subtree_config`: the backend's configuration, with the
      circuit resolved by that backend's own resolver. */
  method GetScenarioSubtreeConfig(backend: string, env: ResourceEnv, guiResolved: string)
    returns (r: Result<ScenarioSubtreeConfig, GazooError>)
    ensures r.Err? <==> BackendFromString(backend).Err?
    ensures r.Err? ==> r.error == UnknownBackend(backend)
    ensures r.Ok? && BackendFromString(backend).value == MaliputMultilane ==>
      r.value == ConfigFor(MaliputMultilane, DelphyneGuiCircuit(guiResolved, env.pathExists))
    ensures r.Ok? && BackendFromString(backend).value == MaliputOsm ==>
      r.value == ConfigFor(MaliputOsm, FirstExisting(Candidates(env.rootVar, OsmResourcePrefix + [OsmCircuitFile]), env.pathExists))
  {
    var b := BackendFromString(backend);
    if b.Err? {
      return Err(b.error);
    }
    if b.value == MaliputMultilane {
      r := Ok(ConfigFor(MaliputMultilane, DelphyneGuiCircuit(guiResolved, env.pathExists)));
    } else {
      var circuit := GetMaliputOsmCircuit(env);
      r := Ok(ConfigFor(MaliputOsm, circuit));
    }
  }

  /** `main` accepts 0 to 6 MOBIL cars. */
  function CheckNumCars(n: int): (r: Result<nat, GazooError>)
    ensures r.Ok? <==> 0 <= n <= MaxNumCars
    ensures r.Ok? ==> r.value == n
    ensures r.Err? ==> r.error == CarCountOutOfRange(n)
  {
    if n > MaxNumCars || n < 0 then Err(CarCountOutOfRange(n)) else Ok(n)
  }

  datatype Agent =
    | RailCar(name: string, laneId: string, longitudinalPosition: real, lateralOffset: real, speed: real)
    | MobilCar(name: string, x: real, y: real, heading: real, speed: real)

  /** The three rail cars: robot ids 1, 2 and 3 on the three lanes at the
      lane start, at 4, 8 and 7 m/s. */
  function RailCars(lanes: seq<string>): seq<Agent>
    requires |lanes| >= 3
  {
    [ RailCar(NatToDecimal(1), lanes[0], 0.0, 0.0, 4.0),
      RailCar(NatToDecimal(2), lanes[1], 0.0, 0.0, 8.0),
      RailCar(NatToDecimal(3), lanes[2], 0.0, 0.0, 7.0) ]
  }

  /** The i-th MOBIL car: robot id 4 + i, placed on a grid three cars wide
      (`i / 3` is true division), at 2 i m/s. */
  function MobilCarFor(i: nat): Agent {
    MobilCar(NatToDecimal(4 + i), -10.0 + 5.0 * (1.0 + i as real / 3.0), 0.0 + 5.0 * (i % 3) as real, 0.0, 2.0 * i as real)
  }

  function GazooAgents(mobilCarsNum: nat, lanes: seq<string>): seq<Agent>
    requires |lanes| >= 3
  {
    RailCars(lanes) + seq(mobilCarsNum, i requires 0 <= i => MobilCarFor(i))
  }

  /** 3 + n agents, the k-th named after robot id k + 1, so all names are
      distinct; rail cars first, then the MOBIL cars in order. */
  lemma GazooAgentsShape(n: nat, lanes: seq<string>)
    requires |lanes| >= 3
    ensures |GazooAgents(n, lanes)| == 3 + n
    ensures forall k :: 0 <= k < 3 + n ==> GazooAgents(n, lanes)[k].name == NatToDecimal(k + 1)
    ensures forall k :: 0 <= k < 3 ==> GazooAgents(n, lanes)[k].RailCar? && GazooAgents(n, lanes)[k].laneId == lanes[k]
    ensures forall k :: 3 <= k < 3 + n ==>
      GazooAgents(n, lanes)[k].MobilCar? && GazooAgents(n, lanes)[k].speed == 2.0 * (k - 3) as real
    ensures forall j, k :: 0 <= j < k < 3 + n ==> GazooAgents(n, lanes)[j].name != GazooAgents(n, lanes)[k].name
  {
    var a := GazooAgents(n, lanes);
    forall j, k | 0 <= j < k < 3 + n
      ensures a[j].name != a[k].name
    {
      if a[j].name == a[k].name {
        NatToDecimalInjective(j + 1, k + 1);
      }
    }
  }

  /** `add_agents_to_scenario`: a running robot id names each agent. */
  method AddAgentsToScenario(mobilCarsNum: nat, lanes: seq<string>) returns (agents: seq<Agent>)
    requires |lanes| >= 3
    ensures agents == GazooAgents(mobilCarsNum, lanes)
  {
    var robotId := 1;
    agents := [RailCar(NatToDecimal(robotId), lanes[0], 0.0, 0.0, 4.0)];
    robotId := robotId + 1;
    agents := agents + [RailCar(NatToDecimal(robotId), lanes[1], 0.0, 0.0, 8.0)];
    robotId := robotId + 1;
    agents := agents + [RailCar(NatToDecimal(robotId), lanes[2], 0.0, 0.0, 7.0)];
    var i := 0;
    while i < mobilCarsNum
      invariant 0 <= i <= mobilCarsNum
      invariant robotId == 3 + i
      invariant agents == RailCars(lanes) + seq(i, j requires 0 <= j => MobilCarFor(j))
    {
      robotId := robotId + 1;
      agents := agents + [MobilCar(NatToDecimal(robotId), -10.0 + 5.0 * (1.0 + i as real / 3.0),
                                   0.0 + 5.0 * (i % 3) as real, 0.0, 2.0 * i as real)];
      i := i + 1;
    }
  }

  datatype GazooScenario = GazooScenario(backend: MaliputBackend, config: ScenarioSubtreeConfig, agents: seq<Agent>)

  /** `main` up to the tree: the car count is checked first, then the
      backend, then that the circuit file exists. */
  method CreateGazooScenario(numCars: int, backend: string, env: ResourceEnv, guiResolved: string,
                             isFile: string -> bool)
    returns (r: Result<GazooScenario, GazooError>)
    ensures CheckNumCars(numCars).Err? ==> r == Err(CarCountOutOfRange(numCars))
    ensures CheckNumCars(numCars).Ok? && BackendFromString(backend).Err? ==> r == Err(UnknownBackend(backend))
    ensures r.Ok? ==>
      && 0 <= numCars <= MaxNumCars
      && r.value.backend == BackendFromString(backend).value
      && isFile(r.value.config.circuitFilepath)
      && |r.value.config.lanes| == 3
      && r.value.agents == GazooAgents(numCars, r.value.config.lanes)
    ensures r.Err? && r.error.CircuitNotFound? ==> BackendFromString(backend).Ok?
    ensures r.Ok? ==>
      r.value.config == ConfigFor(r.value.backend, BackendCircuit(r.value.backend, env, guiResolved))
    ensures CheckNumCars(numCars).Ok? && BackendFromString(backend).Ok? ==>
      var b := BackendFromString(backend).value;
      (r.Ok? <==> isFile(BackendCircuit(b, env, guiResolved)))
      && (r.Err? ==> r == Err(CircuitNotFound(b)))
  {
    var n := CheckNumCars(numCars);
    if n.Err? {
      return Err(n.error);
    }
    var config := GetScenarioSubtreeConfig(backend, env, guiResolved);
    if config.Err? {
      return Err(config.error);
    }
    var b := BackendFromString(backend).value;
    if !isFile(config.value.circuitFilepath) {
      return Err(CircuitNotFound(b));
    }
    var agents := AddAgentsToScenario(n.value, config.value.lanes);
    r := Ok(GazooScenario(b, config.value, agents));
  }
}
