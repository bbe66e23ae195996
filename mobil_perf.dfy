/** The MOBIL performance demo: a registry of benchmark setups filled by a
    decorator, a command-line choice among its keys, and per benchmark a
    row of MOBIL cars plus a share of rail cars. */
module MobilPerf {
  import opened Wrappers
  import opened Text
  import opened SimRunner
  import opened Helpers

  /** The three setup functions the module registers. */
  datatype Benchmark = CurvedLanes | StraightLanes | Dragway

  /** A setup function's `__name__`. */
  function BenchmarkName(b: Benchmark): string {
    match b
    case CurvedLanes => "curved_lanes"
    case StraightLanes => "straight_lanes"
    case Dragway => "dragway"
  }

  /** The registry after the module's three decorations, in order. */
  const AllBenchmarks: map<string, Benchmark> :=
    map["curved_lanes" := CurvedLanes, "straight_lanes" := StraightLanes, "dragway" := Dragway]

  /** The registry's keys are exactly the three names, each mapped to the
      function of that name. */
  lemma AllBenchmarksByName()
    ensures AllBenchmarks.Keys == {"curved_lanes", "straight_lanes", "dragway"}
    ensures forall k :: k in AllBenchmarks ==> BenchmarkName(AllBenchmarks[k]) == k
    ensures forall b: Benchmark :: BenchmarkName(b) in AllBenchmarks && AllBenchmarks[BenchmarkName(b)] == b
  {
  }

  /** The registry attached to the decorator, created on first use. */
  class BenchmarkRegistry {
    var register: Option<map<string, Benchmark>>

    constructor ()
      ensures register == None
    {
      register := None;
    }

    /** The `benchmark` decorator: stores the function under its own name
        and hands it back unchanged. */
    method Decorate(setupFn: Benchmark) returns (same: Benchmark)
      modifies this
      ensures same == setupFn
      ensures register == Some((if old(register).None? then map[] else old(register).value)[BenchmarkName(setupFn) := setupFn])
    {
      if register.None? {
        register := Some(map[]);
      }
      register := Some(register.value[BenchmarkName(setupFn) := setupFn]);
      same := setupFn;
    }
  }

  /** Importing the module decorates the three setup functions in turn. */
  method ImportModule() returns (registry: BenchmarkRegistry)
    ensures fresh(registry) && registry.register == Some(AllBenchmarks)
  {
    registry := new BenchmarkRegistry();
    var _ := registry.Decorate(CurvedLanes);
    var _ := registry.Decorate(StraightLanes);
    var _ := registry.Decorate(Dragway);
  }

  datatype PerfError = InvalidChoice(choice: string)

  /** The positional `benchmark` argument: argparse accepts only one of the
      registry's keys, and the dispatch then looks that key up. */
  function SelectBenchmark(choice: string): (r: Result<Benchmark, PerfError>)
    ensures r.Ok? <==> choice in AllBenchmarks.Keys
    ensures r.Ok? ==> BenchmarkName(r.value) == choice
    ensures r.Err? ==> r.error == InvalidChoice(choice)
  {
    AllBenchmarksByName();
    if choice in AllBenchmarks.Keys then Ok(AllBenchmarks[choice]) else Err(InvalidChoice(choice))
  }

  const DefaultPerfDuration: real := 5.0
  const DefaultNumCars: int := 20
  const DefaultTrafficDensity: real := 0.0
  const TreeTimeStep: real := 0.02

  /** The default run is 5 s at 0.02 s per tick: 250 iterations. */
  lemma DefaultRunLength()
    ensures RunModeFor(DefaultArgs(DefaultPerfDuration).duration, TreeTimeStep) == Bounded(250)
  {
    var m := RunModeFor(DefaultPerfDuration, TreeTimeStep);
    assert m.iterations as real * 0.02 <= 5.0 < (m.iterations + 1) as real * 0.02;
  }

  /** Python's `int()` of a real: truncation toward zero. */
  function Truncate(x: real): (t: int)
    ensures x >= 0.0 ==> t as real <= x < t as real + 1.0
    ensures x < 0.0 ==> t as real - 1.0 < x <= t as real
  {
    if x >= 0.0 then x.Floor else -((-x).Floor)
  }

  /** `len(range(n))`. */
  function RangeLength(n: int): nat {
    if n < 0 then 0 else n
  }

  /** `int(traffic_density * num_cars)` rail cars, none when negative. */
  function TrafficCount(density: real, numCars: int): nat {
    RangeLength(Truncate(density * numCars as real))
  }

  /** A MOBIL car's starting pose. On the curved road it lies on an arc of
      radius `radius` at angle `theta`, that is at (R sin t, 320 - R cos t)
      with heading t; elsewhere it is given directly. */
  datatype Pose = Planar(x: real, y: real, heading: real) | OnArc(radius: real, theta: real)

  datatype PerfAgent =
    | MobilCar(name: string, pose: Pose, speed: real)
    | RailCar(name: string, longitudinalPosition: real, lateralOffset: real, speed: real)

  const ArcRadius: real := 320.0

  /** Where the i-th MOBIL car starts (`i / k` is true division). */
  function MobilPose(b: Benchmark, i: nat): Pose {
    match b
    case CurvedLanes => OnArc(ArcRadius - 4.0 * (i % 3) as real, (12.0 / ArcRadius) * (i as real / 3.0))
    case StraightLanes => Planar(12.0 * (i as real / 3.0), 4.0 * (i % 3) as real, 0.0)
    case Dragway => Planar(12.0 * (i as real / 4.0), -5.5 + 3.7 * (i % 4) as real, 0.0)
  }

  /** Where along its (random) lane the i-th rail car starts. */
  function RailPosition(b: Benchmark, i: nat): real {
    if b == Dragway then 12.0 * (i as real / 4.0) + 6.0 else 12.0 * (i as real / 3.0) + 6.0
  }

  function MobilCarFor(b: Benchmark, i: nat): PerfAgent {
    MobilCar("mobil" + NatToDecimal(i), MobilPose(b, i), 1.0)
  }

  function RailCarFor(b: Benchmark, i: nat): PerfAgent {
    RailCar("rail " + NatToDecimal(i), RailPosition(b, i), 0.0, 1.0)
  }

  /** The agents a benchmark adds: `mobilCount` MOBIL cars, then
      `railCount` rail cars. */
  function BenchmarkAgents(b: Benchmark, mobilCount: nat, railCount: nat): seq<PerfAgent> {
    seq(mobilCount, i requires 0 <= i => MobilCarFor(b, i))
      + seq(railCount, i requires 0 <= i => RailCarFor(b, i))
  }

  /** `mobil0`.. then `rail 0`.., all at 1 m/s. */
  lemma BenchmarkAgentLayout(b: Benchmark, m: nat, t: nat)
    ensures var a := BenchmarkAgents(b, m, t);
      && |a| == m + t
      && (forall i :: 0 <= i < m ==> a[i] == MobilCarFor(b, i))
      && (forall i :: m <= i < |a| ==> a[i] == RailCarFor(b, i - m))
  {
    var a := BenchmarkAgents(b, m, t);
    var rail := seq(t, i requires 0 <= i => RailCarFor(b, i));
    assert forall i :: m <= i < |a| ==> a[i] == rail[i - m];
  }

  /** No two agents of a benchmark share a name. */
  lemma BenchmarkAgentNamesDistinct(b: Benchmark, m: nat, t: nat)
    ensures var a := BenchmarkAgents(b, m, t);
      forall i, j :: 0 <= i < j < |a| ==> a[i].name != a[j].name
  {
    var a := BenchmarkAgents(b, m, t);
    BenchmarkAgentLayout(b, m, t);
    forall i, j | 0 <= i < j < |a|
      ensures a[i].name != a[j].name
    {
      if j < m {
        PrefixedNamesDistinct("mobil", i, j);
      } else if m <= i {
        PrefixedNamesDistinct("rail ", i - m, j - m);
      } else {
        assert a[i].name[0] == 'm' && a[j].name[0] == 'r';
      }
    }
  }

  /** What a setup function builds: the road and its agents. */
  datatype Road =
    | MultilaneFile(resource: string)
    | DragwayRoad(numLanes: nat, length: real, laneWidth: real, shoulderWidth: real, maximumHeight: real)

  function BenchmarkRoad(b: Benchmark): Road {
    match b
    case CurvedLanes => MultilaneFile("roads/curved_lanes.yaml")
    case StraightLanes => MultilaneFile("roads/straight_lanes.yaml")
    case Dragway => DragwayRoad(4, 100.0, 3.7, 3.0, 5.0)
  }

  lemma MobilCarsStep(b: Benchmark, i: nat)
    ensures seq(i + 1, k requires 0 <= k => MobilCarFor(b, k))
      == seq(i, k requires 0 <= k => MobilCarFor(b, k)) + [MobilCarFor(b, i)]
  {
  }

  lemma RailCarsStep(b: Benchmark, j: nat)
    ensures seq(j + 1, k requires 0 <= k => RailCarFor(b, k))
      == seq(j, k requires 0 <= k => RailCarFor(b, k)) + [RailCarFor(b, j)]
  {
  }

  /** A setup function: the two `for` loops that add the cars. */
  method SetUp(b: Benchmark, numCars: int, density: real) returns (road: Road, agents: seq<PerfAgent>)
    ensures road == BenchmarkRoad(b)
    ensures agents == BenchmarkAgents(b, RangeLength(numCars), TrafficCount(density, numCars))
  {
    road := BenchmarkRoad(b);
    agents := [];
    var i := 0;
    while i < numCars
      invariant 0 <= i <= RangeLength(numCars)
      invariant agents == seq(i, k requires 0 <= k => MobilCarFor(b, k))
    {
      MobilCarsStep(b, i);
      agents := agents + [MobilCar("mobil" + NatToDecimal(i), MobilPose(b, i), 1.0)];
      i := i + 1;
    }
    ghost var mobil := agents;
    var numTraffic := Truncate(density * numCars as real);
    var j := 0;
    while j < numTraffic
      invariant 0 <= j <= RangeLength(numTraffic)
      invariant agents == mobil + seq(j, k requires 0 <= k => RailCarFor(b, k))
    {
      RailCarsStep(b, j);
      agents := agents + [RailCar("rail " + NatToDecimal(j), RailPosition(b, j), 0.0, 1.0)];
      j := j + 1;
    }
  }

  /** After the run, the interactive loop is stopped if it still runs. */
  method StopIfRunning(runner: Runner)
    modifies runner
    ensures !runner.loopRunning
    ensures runner.State() == old(runner.State()).(loopRunning := false)
  {
    if runner.loopRunning {
      runner.Stop();
    }
  }
}
