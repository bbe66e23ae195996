/** The lanelet2 (OSM) road demo: the same road selection as the
    malidrive demo, over its own table, resolving resources under
    `resources/osm` and giving every road an origin. */
module MaliOsm {
  import opened Wrappers
  import opened Text
  import opened ResourceSearch
  import opened RoadDict

  /** The road table, as the demo defines it, in its order. */
  const KnownRoads: RoadList :=
    [
      ("StraightForward", map["description" := Str("Single line lane of 1000m length"), "file_path" := Str("straight_forward.osm"), "origin" := Str("{0., 0.}"), "lane_id" := Str("1010"), "lane_position" := Num(0.0), "moving_forward" := Flag(true), "linear_tolerance" := Num(0.001)]),
      ("ArcLane", map["description" := Str("Arc-shaped road of 100m length"), "file_path" := Str("arc_lane.osm"), "origin" := Str("{0., 0.}"), "lane_id" := Str("1068"), "lane_position" := Num(0.0), "moving_forward" := Flag(true), "linear_tolerance" := Num(0.001)]),
      ("ArcLaneDense", map["description" := Str("Arc-shaped road of 100m length with a high sampling resolution."), "file_path" := Str("arc_lane_dense.osm"), "origin" := Str("{0., 0.}"), "lane_id" := Str("3985"), "lane_position" := Num(0.0), "moving_forward" := Flag(true), "linear_tolerance" := Num(0.001)]),
      ("ElevatedArcLane", map["description" := Str("Arc-shaped road with an increasing elevation"), "file_path" := Str("elevated_arc_lane.osm"), "origin" := Str("{0., 0.}"), "lane_id" := Str("1191"), "lane_position" := Num(0.0), "moving_forward" := Flag(true), "linear_tolerance" := Num(0.001)]),
      ("CShapeSuperelevatedRoad", map["description" := Str("C-shaped road with an variation in superelevation"), "file_path" := Str("c_shape_superelevated_road.osm"), "origin" := Str("{0., 0.}"), "lane_id" := Str("1498"), "lane_position" := Num(0.0), "moving_forward" := Flag(true), "linear_tolerance" := Num(0.001)]),
      ("LShapeRoad", map["description" := Str("L-shaped road."), "file_path" := Str("l_shape_road.osm"), "origin" := Str("{0., 0.}"), "lane_id" := Str("1206"), "lane_position" := Num(0.0), "moving_forward" := Flag(true), "linear_tolerance" := Num(0.001)]),
      ("YShapeRoad", map["description" := Str("Y-shaped road."), "file_path" := Str("y_shape_road.osm"), "origin" := Str("{0., 0.}"), "lane_id" := Str("1336"), "lane_position" := Num(46.0), "moving_forward" := Flag(false), "linear_tolerance" := Num(0.001)]),
      ("TShapeRoad", map["description" := Str("T-shaped road."), "file_path" := Str("t_shape_road.osm"), "origin" := Str("{0., 0.}"), "lane_id" := Str("1830"), "lane_position" := Num(0.0), "moving_forward" := Flag(true), "linear_tolerance" := Num(0.001)]),
      ("Circuit", map["description" := Str("A circuit map."), "file_path" := Str("circuit.osm"), "origin" := Str("{0., 0.}"), "lane_id" := Str("2158"), "lane_position" := Num(0.0), "moving_forward" := Flag(true), "linear_tolerance" := Num(0.001)])
    ]

  /** Relative resources are looked up under `<root>/resources/osm`. */
  const ResourcePrefix: seq<string> := ["resources", "osm"]

  /** Origin given to a known road that names none. */
  const DefaultOrigin: string := "{0, 0, 0}"

  /** The parsed command line, as attribute name to value, restricted to
      the string options road selection reads. */
  type Namespace = map<string, string>

  /** The options this demo's parser defines: `origin` is not among them. */
  function ParseArguments(roadName: string, yamlName: string, linearTolerance: string, agentType: string): (ns: Namespace)
    ensures ns.Keys == {"road_name", "yaml_name", "linear_tolerance", "agent_type"}
  {
    map["road_name" := roadName, "yaml_name" := yamlName,
        "linear_tolerance" := linearTolerance, "agent_type" := agentType]
  }

  const DefaultNamespace: Namespace := ParseArguments("StraightForward", "", "1e-3", "RailCar")

  /** The parser with an `--origin` option added, which the custom-road
      branch needs. */
  function ParseArgumentsWithOrigin(roadName: string, yamlName: string, linearTolerance: string,
                                    agentType: string, origin: string): (ns: Namespace)
    ensures ns.Keys == ParseArguments(roadName, yamlName, linearTolerance, agentType).Keys + {"origin"}
    ensures ns["origin"] == origin
  {
    ParseArguments(roadName, yamlName, linearTolerance, agentType)["origin" := origin]
  }

  /** Every known road is well formed, names its own origin, and the default
      road is one of them. */
  lemma KnownRoadsWellFormed()
    ensures forall i :: 0 <= i < |KnownRoads| ==>
      WellFormedEntry(KnownRoads[i].1) && "origin" in KnownRoads[i].1
    ensures Contains(KnownRoads, DefaultNamespace["road_name"])
  {
    FirstRoadsWellFormed();
    LastRoadsWellFormed();
    assert KnownRoads[0].0 == DefaultNamespace["road_name"];
  }

  lemma FirstRoadsWellFormed()
    ensures forall i :: 0 <= i < 5 ==> WellFormedEntry(KnownRoads[i].1) && "origin" in KnownRoads[i].1
  {
  }

  lemma LastRoadsWellFormed()
    ensures forall i :: 5 <= i < |KnownRoads| ==> WellFormedEntry(KnownRoads[i].1) && "origin" in KnownRoads[i].1
  {
  }

  /** Only YShapeRoad starts away from the lane start (at 46 m) and against
      the lane direction. */
  lemma KnownStartingPositions()
    ensures forall i :: 0 <= i < |KnownRoads| ==>
      (KnownRoads[i].1["lane_position"], KnownRoads[i].1["moving_forward"])
      == if KnownRoads[i].0 == "YShapeRoad" then (Num(46.0), Flag(false)) else (Num(0.0), Flag(true))
  {
  }

  /** `get_maliput_osm_resource`: the first `<root>/resources/osm/<path>`
      that exists over the roots in MALIPUT_OSM_RESOURCE_ROOT, else ''. */
  method GetMaliputOsmResource(env: ResourceEnv, path: string) returns (resolved: string)
    ensures resolved == ResolvePath(env, ResourcePrefix, path)
  {
    resolved := FindFirst(env, ResourcePrefix + [path]);
  }

  /** The custom-road branch of `get_road_configuration` as written: it
      reads the attributes `road_name`, `origin`, `yaml_name`,
      `linear_tolerance` and `agent_type`, and the first one the namespace
      lacks raises. */
  function CustomRoad(ns: Namespace): (r: Result<Road, ConfigError>)
    ensures r.Err? <==> !({"road_name", "origin", "yaml_name", "linear_tolerance", "agent_type"} <= ns.Keys)
    ensures r.Ok? ==> r.value.Keys == ScenarioKeys + {"description", "origin"}
    ensures r.Ok? ==> r.value["file_path"] == Str(ns["road_name"]) && r.value["origin"] == Str(ns["origin"])
    ensures r.Ok? ==> r.value["yaml_file_path"] == Str(ns["yaml_name"])
    ensures r.Ok? ==> r.value["linear_tolerance"] == Str(ns["linear_tolerance"])
    ensures r.Ok? ==> r.value["agent_type"] == Str(ns["agent_type"])
    ensures r.Ok? ==> r.value["lane_position"] == Num(0.0) && r.value["moving_forward"] == Flag(true)
    ensures r.Ok? ==> LaneFor(r.value) == RandomLane
  {
    if "road_name" !in ns then Err(MissingAttribute("road_name"))
    else if "origin" !in ns then Err(MissingAttribute("origin"))
    else if "yaml_name" !in ns then Err(MissingAttribute("yaml_name"))
    else if "linear_tolerance" !in ns then Err(MissingAttribute("linear_tolerance"))
    else if "agent_type" !in ns then Err(MissingAttribute("agent_type"))
    else
      Ok(map[
        "description" := Str("Custom user-provided road"),
        "file_path" := Str(ns["road_name"]),
        "origin" := Str(ns["origin"]),
        "yaml_file_path" := Str(ns["yaml_name"]),
        "linear_tolerance" := Str(ns["linear_tolerance"]),
        "agent_type" := Str(ns["agent_type"]),
        "lane_position" := Num(0.0),
        "moving_forward" := Flag(true)])
  }

  /** As written, every custom road file fails: the parser defines no
      `origin`, so reading it raises. */
  lemma CustomRoadMissingOrigin(roadName: string, yamlName: string, linearTolerance: string, agentType: string)
    ensures CustomRoad(ParseArguments(roadName, yamlName, linearTolerance, agentType))
      == Err(MissingAttribute("origin"))
  {
  }

  /** With an `--origin` option, a custom road file is accepted and takes its
      origin from the command line. */
  lemma CustomRoadTakesOrigin(roadName: string, yamlName: string, linearTolerance: string,
                              agentType: string, origin: string)
    ensures var r := CustomRoad(ParseArgumentsWithOrigin(roadName, yamlName, linearTolerance, agentType, origin));
      r.Ok? && r.value["origin"] == Str(origin) && r.value["file_path"] == Str(roadName)
  {
  }

  /** A known road's entry once its missing keys are defaulted and its
      relative paths resolved. */
  function DefaultedKnownRoad(entry: Road, roadName: string, yamlName: string, env: ResourceEnv): (r: Road)
    requires PathsAreStrings(entry)
    ensures "file_path" in r && "origin" in r && "yaml_file_path" in r && "agent_type" in r
    ensures forall k :: k in r <==> k in entry || k in {"file_path", "origin", "yaml_file_path", "agent_type"}
    ensures forall k :: k in entry && k !in {"file_path", "yaml_file_path", "origin", "agent_type"} ==> r[k] == entry[k]
    ensures r["origin"] == if "origin" in entry then entry["origin"] else Str(DefaultOrigin)
    ensures var f := if "file_path" in entry then entry["file_path"].s
                     else PathJoin("odr", roadName + ".xodr");
      r["file_path"] == if IsAbsolute(f) then Str(f) else Str(ResolvePath(env, ResourcePrefix, f))
    ensures var y := if "yaml_file_path" in entry then entry["yaml_file_path"].s
                     else PathJoin("odr", yamlName + ".yaml");
      r["yaml_file_path"] == if IsAbsolute(y) then Str(y) else Str(ResolvePath(env, ResourcePrefix, y))
    ensures r["agent_type"] == if "agent_type" in entry then entry["agent_type"] else Str("RailCar")
  {
    var withFile := SetDefault(entry, "file_path", Str(PathJoin("odr", roadName + ".xodr")));
    var withOrigin := SetDefault(withFile, "origin", Str(DefaultOrigin));
    var withYaml := SetDefault(withOrigin, "yaml_file_path", Str(PathJoin("odr", yamlName + ".yaml")));
    var fileResolved := ResolveIfRelative(withYaml, "file_path", env, ResourcePrefix);
    var yamlResolved := ResolveIfRelative(fileResolved, "yaml_file_path", env, ResourcePrefix);
    SetDefault(yamlResolved, "agent_type", Str("RailCar"))
  }

  /** `if not os.path.isabs(d[name][key]): d[name][key] = get_maliput_osm_resource(...)`. */
  method ResolveKey(table: RoadTable, name: string, key: string, env: ResourceEnv)
    requires Contains(table.entries, name) && key in Get(table.entries, name)
    requires Get(table.entries, name)[key].Str?
    modifies table
    ensures table.entries
      == Store(old(table.entries), name, ResolveIfRelative(Get(old(table.entries), name), key, env, ResourcePrefix))
  {
    var road := Get(table.entries, name);
    if !IsAbsolute(road[key].s) {
      var resolved := GetMaliputOsmResource(env, road[key].s);
      table.SetEntryKey(name, key, Str(resolved));
    } else {
      assert table.entries[IndexOf(table.entries, name).value := (name, road)] == table.entries;
    }
  }

  /** The known-road branch: the six in-place writes. */
  method CompleteKnownRoad(table: RoadTable, name: string, yamlName: string, env: ResourceEnv)
    requires Contains(table.entries, name) && PathsAreStrings(Get(table.entries, name))
    modifies table
    ensures table.entries
      == Store(old(table.entries), name, DefaultedKnownRoad(Get(old(table.entries), name), name, yamlName, env))
  {
    ghost var before := table.entries;
    ghost var entry := Get(before, name);
    ghost var withFile := SetDefault(entry, "file_path", Str(PathJoin("odr", name + ".xodr")));
    table.SetDefaultKey(name, "file_path", Str(PathJoin("odr", name + ".xodr")));
    ghost var withOrigin := SetDefault(withFile, "origin", Str(DefaultOrigin));
    StoreTwice(before, name, withFile, withOrigin);
    table.SetDefaultKey(name, "origin", Str(DefaultOrigin));
    ghost var withYaml := SetDefault(withOrigin, "yaml_file_path", Str(PathJoin("odr", yamlName + ".yaml")));
    StoreTwice(before, name, withOrigin, withYaml);
    table.SetDefaultKey(name, "yaml_file_path", Str(PathJoin("odr", yamlName + ".yaml")));
    ghost var fileResolved := ResolveIfRelative(withYaml, "file_path", env, ResourcePrefix);
    StoreTwice(before, name, withYaml, fileResolved);
    ResolveKey(table, name, "file_path", env);
    ghost var yamlResolved := ResolveIfRelative(fileResolved, "yaml_file_path", env, ResourcePrefix);
    StoreTwice(before, name, fileResolved, yamlResolved);
    ResolveKey(table, name, "yaml_file_path", env);
    StoreTwice(before, name, yamlResolved, SetDefault(yamlResolved, "agent_type", Str("RailCar")));
    table.SetDefaultKey(name, "agent_type", Str("RailCar"));
  }

  /** The `yaml_name` option where present. The known-road branch reads it
      only for an entry without `yaml_file_path`; otherwise any stand-in
      gives the same road (`DefaultedKnownRoadIgnoresYamlName`). */
  function YamlNameOf(ns: Namespace): string {
    if "yaml_name" in ns then ns["yaml_name"] else ""
  }

  /** An entry that already names its yaml file does not depend on the
      `yaml_name` option. */
  lemma DefaultedKnownRoadIgnoresYamlName(entry: Road, roadName: string, y1: string, y2: string, env: ResourceEnv)
    requires PathsAreStrings(entry) && "yaml_file_path" in entry
    ensures DefaultedKnownRoad(entry, roadName, y1, env) == DefaultedKnownRoad(entry, roadName, y2, env)
  {
  }

  /** The first two in-place writes of the known-road branch. */
  method WriteFileAndOrigin(table: RoadTable, name: string)
    requires Contains(table.entries, name)
    modifies table
    ensures table.entries == Store(old(table.entries), name,
      SetDefault(SetDefault(Get(old(table.entries), name), "file_path", Str(PathJoin("odr", name + ".xodr"))),
                 "origin", Str(DefaultOrigin)))
    ensures old(table.Valid()) ==> table.Valid()
  {
    ghost var before := table.entries;
    ghost var withFile := SetDefault(Get(before, name), "file_path", Str(PathJoin("odr", name + ".xodr")));
    ghost var partial := SetDefault(withFile, "origin", Str(DefaultOrigin));
    table.SetDefaultKey(name, "file_path", Str(PathJoin("odr", name + ".xodr")));
    StoreTwice(before, name, withFile, partial);
    table.SetDefaultKey(name, "origin", Str(DefaultOrigin));
    if old(table.Valid()) {
      assert WellFormedEntry(before[IndexOf(before, name).value].1);
      assert WellFormedEntry(partial);
      StoreKeepsWellFormed(before, name, partial);
    }
  }

  /** The known-road branch once `yaml_name` is available or not needed:
      completes the entry in place and returns it. */
  method KnownRoadConfiguration(table: RoadTable, name: string, yamlName: string, env: ResourceEnv)
    returns (road: Road)
    requires table.Valid() && Contains(table.entries, name)
    modifies table
    ensures table.Valid()
    ensures road == DefaultedKnownRoad(Get(old(table.entries), name), name, yamlName, env)
    ensures table.entries == Store(old(table.entries), name, road)
    ensures ScenarioKeys + {"origin"} <= road.Keys
  {
    ghost var before := table.entries;
    road := DefaultedKnownRoad(Get(table.entries, name), name, yamlName, env);
    CompleteKnownRoad(table, name, yamlName, env);
    StoreTwice(before, name, road, road);
    StoreKeepsWellFormed(before, name, road);
  }

  /** `get_road_configuration`: an existing file wins over a known name; a
      known road's table entry is completed in place; any other name is an
      error and the demo quits. */
  method GetRoadConfiguration(table: RoadTable, ns: Namespace, isFile: string -> bool, env: ResourceEnv)
    returns (r: Result<Road, ConfigError>)
    requires table.Valid()
    modifies table
    ensures table.Valid()
    ensures "road_name" !in ns ==> r == Err(MissingAttribute("road_name")) && table.entries == old(table.entries)
    ensures "road_name" in ns && isFile(ns["road_name"]) ==>
      r == CustomRoad(ns) && table.entries == old(table.entries)
    ensures "road_name" in ns && !isFile(ns["road_name"]) && Contains(old(table.entries), ns["road_name"]) ==>
      var entry := Get(old(table.entries), ns["road_name"]);
      if "yaml_name" !in ns && "yaml_file_path" !in entry then
        var partial := SetDefault(SetDefault(entry, "file_path", Str(PathJoin("odr", ns["road_name"] + ".xodr"))),
                                  "origin", Str(DefaultOrigin));
        r == Err(MissingAttribute("yaml_name")) && table.entries == Store(old(table.entries), ns["road_name"], partial)
      else
        var road := DefaultedKnownRoad(entry, ns["road_name"], YamlNameOf(ns), env);
        r == Ok(road) && table.entries == Store(old(table.entries), ns["road_name"], road)
    ensures "road_name" in ns && !isFile(ns["road_name"]) && !Contains(old(table.entries), ns["road_name"]) ==>
      r == Err(UnknownRoad(ns["road_name"])) && table.entries == old(table.entries)
    ensures r.Ok? ==> ScenarioKeys + {"origin"} <= r.value.Keys
  {
    if "road_name" !in ns {
      return Err(MissingAttribute("road_name"));
    }
    var name := ns["road_name"];
    if isFile(name) {
      return CustomRoad(ns);
    }
    if !Contains(table.entries, name) {
      return Err(UnknownRoad(name));
    }
    if "yaml_name" !in ns && "yaml_file_path" !in Get(table.entries, name) {
      // The file and origin defaults are written before `yaml_name` is read.
      WriteFileAndOrigin(table, name);
      return Err(MissingAttribute("yaml_name"));
    }
    var road := KnownRoadConfiguration(table, name, YamlNameOf(ns), env);
    return Ok(road);
  }
}
