/** The road dictionaries of the maliput demos: string keys mapped to
    strings, numbers or flags, filled in with defaults where a key is
    absent, and with relative paths resolved against the resource roots. */
module RoadDict {
  import opened Wrappers
  import opened Text
  import opened ResourceSearch

  datatype Value = Str(s: string) | Num(r: real) | Flag(b: bool)

  type Road = map<string, Value>

  /** Both path entries, where present, are strings (what `os.path.isabs`
      accepts). */
  predicate PathsAreStrings(road: Road) {
    && ("file_path" in road ==> road["file_path"].Str?)
    && ("yaml_file_path" in road ==> road["yaml_file_path"].Str?)
  }

  /** A stored road: path entries are strings and the keys every scenario
      reads unconditionally are present. */
  predicate WellFormedEntry(road: Road) {
    PathsAreStrings(road) && {"lane_position", "moving_forward", "linear_tolerance"} <= road.Keys
  }

  /** The keys the scenario builder reads without a fallback. */
  const ScenarioKeys: set<string> :=
    {"file_path", "yaml_file_path", "lane_position", "agent_type", "moving_forward", "linear_tolerance"}

  /** `if key not in road: road[key] = v`. */
  function SetDefault(road: Road, key: string, v: Value): (r: Road)
    ensures key in r && r[key] == (if key in road then road[key] else v)
    ensures r.Keys == road.Keys + {key}
    ensures forall k :: k in road ==> r[k] == road[k]
  {
    if key in road then road else road[key := v]
  }

  /** Defaulting a key a second time changes nothing. */
  lemma SetDefaultIdempotent(road: Road, key: string, v: Value, w: Value)
    ensures SetDefault(SetDefault(road, key, v), key, w) == SetDefault(road, key, v)
  {
  }

  /** The first `<root>/<prefix...>/<path>` that exists, over the roots
      listed in the environment, or the empty string. */
  function ResolvePath(env: ResourceEnv, prefix: seq<string>, path: string): string {
    FirstExisting(Candidates(env.rootVar, prefix + [path]), env.pathExists)
  }

  /** Replaces the string at `key` by its resolution unless it is absolute. */
  function ResolveIfRelative(road: Road, key: string, env: ResourceEnv, prefix: seq<string>): (r: Road)
    requires key in road && road[key].Str?
    ensures r.Keys == road.Keys
    ensures forall k :: k in road && k != key ==> r[k] == road[k]
    ensures IsAbsolute(road[key].s) ==> r[key] == road[key]
    ensures !IsAbsolute(road[key].s) ==> r[key] == Str(ResolvePath(env, prefix, road[key].s))
  {
    if IsAbsolute(road[key].s) then road
    else road[key := Str(ResolvePath(env, prefix, road[key].s))]
  }

  /** The lane a scenario's agent starts on. */
  datatype LaneChoice = FixedLane(id: Value) | RandomLane

  function LaneFor(road: Road): (l: LaneChoice)
    ensures l.RandomLane? <==> "lane_id" !in road
    ensures l.FixedLane? ==> l.id == road["lane_id"]
  {
    if "lane_id" in road then FixedLane(road["lane_id"]) else RandomLane
  }

  /** Angular tolerance passed to the road loader when the road names none. */
  const DefaultAngularTolerance: real := 0.001

  function AngularTolerance(road: Road): (v: Value)
    ensures "angular_tolerance" in road ==> v == road["angular_tolerance"]
    ensures "angular_tolerance" !in road ==> v == Num(DefaultAngularTolerance)
  {
    if "angular_tolerance" !in road then Num(DefaultAngularTolerance) else road["angular_tolerance"]
  }

  datatype AgentKind = RailCar | RuleRailCar

  /** The single agent every maliput scenario adds: 15 m/s, no lateral
      offset, named after its kind. */
  datatype ScenarioAgent = ScenarioAgent(kind: AgentKind, name: string, speed: real, lateralOffset: real)

  const ScenarioSpeed: real := 15.0

  function AgentFor(agentType: Value): (a: ScenarioAgent)
    ensures a.kind == RuleRailCar <==> agentType == Str("RuleRailCar")
    ensures a.name == (if a.kind == RuleRailCar then "rule-rail-car" else "rail-car")
    ensures a.speed == ScenarioSpeed && a.lateralOffset == 0.0
  {
    if agentType == Str("RuleRailCar") then ScenarioAgent(RuleRailCar, "rule-rail-car", ScenarioSpeed, 0.0)
    else ScenarioAgent(RailCar, "rail-car", ScenarioSpeed, 0.0)
  }

  /** What the scenario builder receives from a road dictionary. */
  datatype ScenarioConfig = ScenarioConfig(
    filePath: Value, yamlFilePath: Value, lanePosition: Value, movingForward: Value,
    lane: LaneChoice, linearTolerance: Value, angularTolerance: Value, agent: ScenarioAgent)

  /** The scenario of a road that holds every key the builder reads. */
  function ScenarioFor(road: Road): (c: ScenarioConfig)
    requires ScenarioKeys <= road.Keys
    ensures c.filePath == road["file_path"] && c.yamlFilePath == road["yaml_file_path"]
    ensures c.lanePosition == road["lane_position"] && c.movingForward == road["moving_forward"]
    ensures c.linearTolerance == road["linear_tolerance"]
    ensures c.lane == LaneFor(road) && c.angularTolerance == AngularTolerance(road)
    ensures c.agent == AgentFor(road["agent_type"])
  {
    ScenarioConfig(
      road["file_path"], road["yaml_file_path"], road["lane_position"], road["moving_forward"],
      LaneFor(road), road["linear_tolerance"], AngularTolerance(road), AgentFor(road["agent_type"]))
  }

  /** The configuration failures of the demos. */
  datatype ConfigError = UnknownRoad(name: string) | MissingAttribute(attribute: string)

  /** A dictionary of named roads, in insertion order (the order in which
      the demos list them). */
  type RoadList = seq<(string, Road)>

  /** Where `name` is stored: the first entry carrying it. */
  function IndexOf(entries: RoadList, name: string): (r: Option<nat>)
    ensures r.Some? ==> r.value < |entries| && entries[r.value].0 == name
    ensures r.Some? ==> forall j :: 0 <= j < r.value ==> entries[j].0 != name
    ensures r.None? <==> forall j :: 0 <= j < |entries| ==> entries[j].0 != name
    decreases |entries|
  {
    if entries == [] then None
    else if entries[0].0 == name then Some(0)
    else
      var rest := IndexOf(entries[1..], name);
      if rest.None? then None else Some(rest.value + 1)
  }

  /** `name in d`. */
  predicate Contains(entries: RoadList, name: string) {
    IndexOf(entries, name).Some?
  }

  /** `d[name]`. */
  function Get(entries: RoadList, name: string): Road
    requires Contains(entries, name)
  {
    entries[IndexOf(entries, name).value].1
  }

  /** `d[name] = road` for a name already present: its slot is overwritten. */
  function Store(entries: RoadList, name: string, road: Road): (r: RoadList)
    requires Contains(entries, name)
    ensures |r| == |entries|
  {
    entries[IndexOf(entries, name).value := (name, road)]
  }

  /** Storing under a name makes it read back, and leaves every other name,
      and the set of names, as they were. */
  lemma {:induction false} StoreThenGet(entries: RoadList, name: string, road: Road, other: string)
    requires Contains(entries, name)
    ensures Contains(Store(entries, name, road), other) <==> Contains(entries, other)
    ensures Contains(Store(entries, name, road), name) && Get(Store(entries, name, road), name) == road
    ensures other != name && Contains(entries, other) ==>
      Get(Store(entries, name, road), other) == Get(entries, other)
    decreases |entries|
  {
    var i := IndexOf(entries, name).value;
    var r := Store(entries, name, road);
    if i == 0 {
      assert r[1..] == entries[1..];
    } else {
      assert entries[0].0 != name;
      StoreThenGet(entries[1..], name, road, other);
      assert Store(entries[1..], name, road) == r[1..];
    }
  }

  /** A second store under the same name replaces the first. */
  lemma StoreTwice(entries: RoadList, name: string, a: Road, b: Road)
    requires Contains(entries, name)
    ensures Contains(Store(entries, name, a), name)
    ensures IndexOf(Store(entries, name, a), name) == IndexOf(entries, name)
    ensures Get(Store(entries, name, a), name) == a
    ensures Store(Store(entries, name, a), name, b) == Store(entries, name, b)
  {
    var i := IndexOf(entries, name).value;
    var r := Store(entries, name, a);
    assert r[i].0 == name;
    assert forall j :: 0 <= j < i ==> r[j] == entries[j];
  }

  /** Storing a well-formed road keeps every stored road well formed. */
  lemma StoreKeepsWellFormed(entries: RoadList, name: string, road: Road)
    requires Contains(entries, name) && WellFormedEntry(road)
    requires forall i :: 0 <= i < |entries| ==> WellFormedEntry(entries[i].1)
    ensures forall i :: 0 <= i < |entries| ==> WellFormedEntry(Store(entries, name, road)[i].1)
  {
  }

  /** A table of roads the demos mutate in place: looking a road up yields
      the stored dictionary itself, so defaults written into it persist. */
  class RoadTable {
    var entries: RoadList

    /** Every stored road is well formed. */
    predicate Valid()
      reads this
    {
      forall i :: 0 <= i < |entries| ==> WellFormedEntry(entries[i].1)
    }

    constructor (initial: RoadList)
      ensures entries == initial
      ensures (forall i :: 0 <= i < |initial| ==> WellFormedEntry(initial[i].1)) ==> Valid()
    {
      entries := initial;
    }

    /** `d[name][key] = v`. */
    method SetEntryKey(name: string, key: string, v: Value)
      requires Contains(entries, name)
      modifies this
      ensures entries == Store(old(entries), name, Get(old(entries), name)[key := v])
    {
      entries := Store(entries, name, Get(entries, name)[key := v]);
    }

    /** `if key not in d[name]: d[name][key] = v`. */
    method SetDefaultKey(name: string, key: string, v: Value)
      requires Contains(entries, name)
      modifies this
      ensures entries == Store(old(entries), name, SetDefault(Get(old(entries), name), key, v))
    {
      if key !in Get(entries, name) {
        SetEntryKey(name, key, v);
      } else {
        assert entries[IndexOf(entries, name).value := (name, Get(entries, name))] == entries;
      }
    }
  }
}
