/** The malidrive demo: picks an OpenDRIVE road either from a file given
    on the command line or from a table of known roads, filling in the
    table entry's missing keys in place. */
module Mali {
  import opened Wrappers
  import opened Text
  import opened ResourceSearch
  import opened RoadDict

  /** The road table, as the demo defines it, in its order. */
  const KnownRoads: RoadList :=
    [
      ("LineSingleLane", map["description" := Str("Single line lane of 100m length"), "file_path" := Str("odr/SingleLane.xodr"), "lane_id" := Str("1_0_-1"), "lane_position" := Num(0.0), "moving_forward" := Flag(true), "linear_tolerance" := Num(0.001)]),
      ("ArcSingleLane", map["description" := Str("Single arc lane of 100m length and 40m of radius"), "file_path" := Str("odr/ArcLane.xodr"), "lane_id" := Str("1_0_-1"), "lane_position" := Num(0.0), "moving_forward" := Flag(true), "linear_tolerance" := Num(0.001)]),
      ("SShapeRoad", map["description" := Str("Single lane describing a S shape road."), "file_path" := Str("odr/SShapeRoad.xodr"), "lane_id" := Str("1_0_-1"), "lane_position" := Num(0.0), "moving_forward" := Flag(true), "linear_tolerance" := Num(0.001)]),
      ("LShapeRoad", map["description" := Str("Single lane describing a L shape road."), "file_path" := Str("odr/LShapeRoad.xodr"), "lane_id" := Str("1_0_1"), "lane_position" := Num(0.0), "moving_forward" := Flag(true), "linear_tolerance" := Num(0.001)]),
      ("LShapeRoadVariableLanes", map["description" := Str("Variable number of lanes describing a L shape road."), "file_path" := Str("odr/LShapeRoadVariableLanes.xodr"), "lane_id" := Str("1_0_1"), "lane_position" := Num(0.0), "moving_forward" := Flag(true), "linear_tolerance" := Num(0.001)]),
      ("TShapeRoad", map["description" := Str("T intersection road with double hand roads"), "lane_id" := Str("2_0_1"), "lane_position" := Num(0.0), "moving_forward" := Flag(true), "linear_tolerance" := Num(0.001)]),
      ("LineMultipleSections", map["description" := Str("A single flat road with multiple LaneSections."), "file_path" := Str("odr/LineMultipleSections.xodr"), "lane_id" := Str("1_0_-1"), "lane_position" := Num(0.0), "moving_forward" := Flag(true), "linear_tolerance" := Num(0.001)]),
      ("FlatTown01", map["description" := Str("Flat grid city"), "lane_id" := Str("25_0_-1"), "lane_position" := Num(0.0), "moving_forward" := Flag(true), "linear_tolerance" := Num(0.001)]),
      ("ParkingGarageRamp", map["description" := Str("A pitched road curve describing a parking garage ramp."), "file_path" := Str("odr/ParkingGarageRamp.xodr"), "lane_id" := Str("1_0_-1"), "lane_position" := Num(0.0), "moving_forward" := Flag(true), "linear_tolerance" := Num(0.001)]),
      ("SShapeSuperelevatedRoad", map["description" := Str("Multiple lanes describing a S shape road with superelevation"), "lane_id" := Str("1_0_-1"), "lane_position" := Num(0.0), "moving_forward" := Flag(true), "linear_tolerance" := Num(0.001)]),
      ("RRLongRoad", map["description" := Str("Long road with turning lanes"), "file_path" := Str("odr/RRLongRoad.xodr"), "lane_id" := Str("0_0_-4"), "lane_position" := Num(0.0), "moving_forward" := Flag(true), "linear_tolerance" := Num(0.05)]),
      ("Highway", map["description" := Str("Highway"), "lane_id" := Str("1_0_2"), "lane_position" := Num(0.0), "moving_forward" := Flag(true), "linear_tolerance" := Num(0.001)]),
      ("LineVariableWidth", map["description" := Str("Straight Road with variable width"), "lane_id" := Str("1_0_2"), "lane_position" := Num(0.0), "moving_forward" := Flag(true), "linear_tolerance" := Num(0.05)]),
      ("Figure8", map["description" := Str("8-shaped road "), "lane_id" := Str("1_0_1"), "lane_position" := Num(0.0), "moving_forward" := Flag(true), "linear_tolerance" := Num(0.001)]),
      ("RRFigure8", map["description" := Str("8-shaped road "), "lane_id" := Str("1_0_1"), "lane_position" := Num(0.0), "moving_forward" := Flag(true), "linear_tolerance" := Num(0.3), "angular_tolerance" := Num(0.3)]),
      ("Town01", map["description" := Str("Grid city"), "lane_id" := Str("25_0_-1"), "lane_position" := Num(0.0), "moving_forward" := Flag(true), "linear_tolerance" := Num(0.05)]),
      ("Town02", map["description" := Str("Grid city"), "lane_id" := Str("1_0_1"), "lane_position" := Num(0.0), "moving_forward" := Flag(true), "linear_tolerance" := Num(0.05)]),
      ("Town03", map["description" := Str("Grid city"), "lane_id" := Str("352_1_-1"), "lane_position" := Num(0.0), "moving_forward" := Flag(true), "linear_tolerance" := Num(0.2)]),
      ("Town04", map["description" := Str("Grid city"), "lane_id" := Str("735_0_-4"), "lane_position" := Num(0.0), "moving_forward" := Flag(true), "linear_tolerance" := Num(0.07)]),
      ("Town05", map["description" := Str("Grid city"), "lane_id" := Str("3_0_2"), "lane_position" := Num(0.0), "moving_forward" := Flag(true), "linear_tolerance" := Num(0.05)]),
      ("Town06", map["description" := Str("Grid city"), "lane_id" := Str("75_0_3"), "lane_position" := Num(0.0), "moving_forward" := Flag(true), "linear_tolerance" := Num(0.05)]),
      ("Town07", map["description" := Str("Grid city"), "lane_id" := Str("438_1_1"), "lane_position" := Num(0.0), "moving_forward" := Flag(true), "linear_tolerance" := Num(0.05)]),
      ("LineVariableOffset", map["description" := Str("Straight Road with varying offset"), "lane_id" := Str("1_0_2"), "lane_position" := Num(0.0), "moving_forward" := Flag(true), "linear_tolerance" := Num(0.05)]),
      ("SingleRoadPedestrianCrosswalk", map["description" := Str("Single line with a virtual pedestrian crosswalk"), "file_path" := Str("odr/SingleRoadPedestrianCrosswalk.xodr"), "yaml_file_path" := Str("odr/SingleRoadPedestrianCrosswalk.yaml"), "agent_type" := Str("RuleRailCar"), "lane_id" := Str("1_0_-1"), "lane_position" := Num(0.0), "moving_forward" := Flag(true), "linear_tolerance" := Num(0.001)]),
      ("LoopRoadPedestrianCrosswalk", map["description" := Str("Loop with two virtual pedestrian crosswalks"), "file_path" := Str("odr/LoopRoadPedestrianCrosswalk.xodr"), "yaml_file_path" := Str("odr/LoopRoadPedestrianCrosswalk.yaml"), "agent_type" := Str("RuleRailCar"), "lane_id" := Str("1_0_-1"), "lane_position" := Num(0.0), "moving_forward" := Flag(true), "linear_tolerance" := Num(0.001)])
    ]

  /** The demo-specific options. */
  datatype MaliArgs = MaliArgs(roadName: string, yamlName: string, linearTolerance: string, agentType: string)

  const DefaultMaliArgs: MaliArgs := MaliArgs("SShapeRoad", "", "1e-3", "RailCar")

  /** Relative resources are looked up under `<root>/resources`. */
  const ResourcePrefix: seq<string> := ["resources"]

  /** Every known road is well formed, and the default road is one of them. */
  lemma KnownRoadsWellFormed()
    ensures forall i :: 0 <= i < |KnownRoads| ==> WellFormedEntry(KnownRoads[i].1)
    ensures Contains(KnownRoads, DefaultMaliArgs.roadName)
  {
    FirstRoadsWellFormed();
    LastRoadsWellFormed();
    assert KnownRoads[2].0 == DefaultMaliArgs.roadName;
  }

  lemma FirstRoadsWellFormed()
    ensures forall i :: 0 <= i < 13 ==> WellFormedEntry(KnownRoads[i].1)
  {
  }

  lemma LastRoadsWellFormed()
    ensures forall i :: 13 <= i < |KnownRoads| ==> WellFormedEntry(KnownRoads[i].1)
  {
  }

  /** Exactly the two pedestrian-crosswalk roads drive a RuleRailCar. */
  lemma RuleRailCarRoads()
    ensures forall i :: 0 <= i < |KnownRoads| ==>
      (&& "agent_type" in KnownRoads[i].1
       && AgentFor(KnownRoads[i].1["agent_type"]).kind == RuleRailCar
       <==> KnownRoads[i].0 in {"SingleRoadPedestrianCrosswalk", "LoopRoadPedestrianCrosswalk"})
  {
  }

  /** Only RRFigure8 overrides the angular tolerance (with 0.3); every other
      known road uses 1e-3. */
  lemma KnownAngularTolerances()
    ensures forall i :: 0 <= i < |KnownRoads| ==>
      AngularTolerance(KnownRoads[i].1)
      == if KnownRoads[i].0 == "RRFigure8" then Num(0.3) else Num(DefaultAngularTolerance)
  {
  }

  /** `get_malidrive_resource`: the first `<root>/resources/<path>` that
      exists over the roots in MALIPUT_MALIDRIVE_RESOURCE_ROOT, else ''. */
  method GetMalidriveResource(env: ResourceEnv, path: string) returns (resolved: string)
    ensures resolved == ResolvePath(env, ResourcePrefix, path)
  {
    resolved := FindFirst(env, ResourcePrefix + [path]);
  }

  /** The dictionary built for a road file given on the command line. */
  function CustomRoad(args: MaliArgs): (road: Road)
    ensures road.Keys == ScenarioKeys + {"description"}
    ensures road["file_path"] == Str(args.roadName) && road["yaml_file_path"] == Str(args.yamlName)
    ensures road["linear_tolerance"] == Str(args.linearTolerance) && road["agent_type"] == Str(args.agentType)
    ensures road["lane_position"] == Num(0.0) && road["moving_forward"] == Flag(true)
    ensures LaneFor(road) == RandomLane && AngularTolerance(road) == Num(DefaultAngularTolerance)
  {
    map[
      "description" := Str("Custom user-provided road"),
      "file_path" := Str(args.roadName),
      "yaml_file_path" := Str(args.yamlName),
      "linear_tolerance" := Str(args.linearTolerance),
      "agent_type" := Str(args.agentType),
      "lane_position" := Num(0.0),
      "moving_forward" := Flag(true)]
  }

  /** A known road's entry once its missing keys are defaulted and its
      relative paths resolved. */
  function DefaultedKnownRoad(entry: Road, args: MaliArgs, env: ResourceEnv): (r: Road)
    requires PathsAreStrings(entry)
    ensures r.Keys == entry.Keys + {"file_path", "yaml_file_path", "agent_type"}
    ensures forall k :: k in entry && k !in {"file_path", "yaml_file_path", "agent_type"} ==> r[k] == entry[k]
    ensures var f := if "file_path" in entry then entry["file_path"].s
                     else PathJoin("odr", args.roadName + ".xodr");
      r["file_path"] == if IsAbsolute(f) then Str(f) else Str(ResolvePath(env, ResourcePrefix, f))
    ensures var y := if "yaml_file_path" in entry then entry["yaml_file_path"].s
                     else PathJoin("odr", args.yamlName + ".yaml");
      r["yaml_file_path"] == if IsAbsolute(y) then Str(y) else Str(ResolvePath(env, ResourcePrefix, y))
    ensures r["agent_type"] == if "agent_type" in entry then entry["agent_type"] else Str("RailCar")
  {
    var withFile := SetDefault(entry, "file_path", Str(PathJoin("odr", args.roadName + ".xodr")));
    var withYaml := SetDefault(withFile, "yaml_file_path", Str(PathJoin("odr", args.yamlName + ".yaml")));
    var fileResolved := ResolveIfRelative(withYaml, "file_path", env, ResourcePrefix);
    var yamlResolved := ResolveIfRelative(fileResolved, "yaml_file_path", env, ResourcePrefix);
    SetDefault(yamlResolved, "agent_type", Str("RailCar"))
  }

  /** A defaulted entry is still well formed and holds every key the
      scenario builder reads. */
  lemma DefaultedKnownRoadComplete(entry: Road, args: MaliArgs, env: ResourceEnv)
    requires WellFormedEntry(entry)
    ensures WellFormedEntry(DefaultedKnownRoad(entry, args, env))
    ensures ScenarioKeys <= DefaultedKnownRoad(entry, args, env).Keys
  {
  }

  /** `if not os.path.isabs(d[name][key]): d[name][key] = get_malidrive_resource(...)`. */
  method ResolveKey(table: RoadTable, name: string, key: string, env: ResourceEnv)
    requires Contains(table.entries, name) && key in Get(table.entries, name)
    requires Get(table.entries, name)[key].Str?
    modifies table
    ensures table.entries
      == Store(old(table.entries), name, ResolveIfRelative(Get(old(table.entries), name), key, env, ResourcePrefix))
  {
    var road := Get(table.entries, name);
    if !IsAbsolute(road[key].s) {
      var resolved := GetMalidriveResource(env, road[key].s);
      table.SetEntryKey(name, key, Str(resolved));
    } else {
      assert table.entries[IndexOf(table.entries, name).value := (name, road)] == table.entries;
    }
  }

  /** The known-road branch: the five in-place writes of `main`. */
  method CompleteKnownRoad(table: RoadTable, args: MaliArgs, env: ResourceEnv)
    requires Contains(table.entries, args.roadName) && PathsAreStrings(Get(table.entries, args.roadName))
    modifies table
    ensures table.entries
      == Store(old(table.entries), args.roadName, DefaultedKnownRoad(Get(old(table.entries), args.roadName), args, env))
  {
    var name := args.roadName;
    ghost var before := table.entries;
    ghost var entry := Get(before, name);
    ghost var withFile := SetDefault(entry, "file_path", Str(PathJoin("odr", name + ".xodr")));
    table.SetDefaultKey(name, "file_path", Str(PathJoin("odr", name + ".xodr")));
    StoreTwice(before, name, withFile, SetDefault(withFile, "yaml_file_path", Str(PathJoin("odr", args.yamlName + ".yaml"))));
    ghost var withYaml := SetDefault(withFile, "yaml_file_path", Str(PathJoin("odr", args.yamlName + ".yaml")));
    table.SetDefaultKey(name, "yaml_file_path", Str(PathJoin("odr", args.yamlName + ".yaml")));
    ghost var fileResolved := ResolveIfRelative(withYaml, "file_path", env, ResourcePrefix);
    StoreTwice(before, name, withYaml, fileResolved);
    ResolveKey(table, name, "file_path", env);
    ghost var yamlResolved := ResolveIfRelative(fileResolved, "yaml_file_path", env, ResourcePrefix);
    StoreTwice(before, name, fileResolved, yamlResolved);
    ResolveKey(table, name, "yaml_file_path", env);
    StoreTwice(before, name, yamlResolved, SetDefault(yamlResolved, "agent_type", Str("RailCar")));
    table.SetDefaultKey(name, "agent_type", Str("RailCar"));
  }

  /** The road selection of `main`: an existing file wins over a known name;
      a known road's table entry is completed in place; any other name is an
      error and the demo quits. */
  method SelectRoad(table: RoadTable, args: MaliArgs, isFile: string -> bool, env: ResourceEnv)
    returns (r: Result<Road, ConfigError>)
    requires table.Valid()
    modifies table
    ensures table.Valid()
    ensures isFile(args.roadName) ==> r == Ok(CustomRoad(args)) && table.entries == old(table.entries)
    ensures !isFile(args.roadName) && Contains(old(table.entries), args.roadName) ==>
      var road := DefaultedKnownRoad(Get(old(table.entries), args.roadName), args, env);
      r == Ok(road) && table.entries == Store(old(table.entries), args.roadName, road)
    ensures !isFile(args.roadName) && !Contains(old(table.entries), args.roadName) ==>
      r == Err(UnknownRoad(args.roadName)) && table.entries == old(table.entries)
    ensures r.Ok? ==> ScenarioKeys <= r.value.Keys
  {
    var name := args.roadName;
    if isFile(name) {
      return Ok(CustomRoad(args));
    }
    if !Contains(table.entries, name) {
      return Err(UnknownRoad(name));
    }
    CompleteKnownRoad(table, args, env);
    StoreTwice(old(table.entries), name, DefaultedKnownRoad(Get(old(table.entries), name), args, env),
               DefaultedKnownRoad(Get(old(table.entries), name), args, env));
    return Ok(Get(table.entries, name));
  }
}
