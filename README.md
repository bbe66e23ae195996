# delphyne_demos in Dafny

A model of the logic inside the delphyne demo scripts: the small state
machines and rules the demos build on top of the delphyne simulator. The
model covers:

- the real-time-rate changer of the `realtime` demo;
- the keyboard handlers (raw-mode terminal set-up, key decoding, the stub
  used when standard input is not a terminal) and the two keyboard-driven
  behaviours: the `keyop` step callback (pause, quit, single step) and the
  `trip_integration` unicycle teleoperation (accelerate, steer);
- the collision hook of `crash`;
- the step statistic and the delayed speed change of `scriptlets`;
- the shared argument rules of `helpers` (the real-time-rate guard and the
  duration-to-iterations rule);
- road selection in `mali` and `mali_osm`: a file given on the command line,
  or a known road whose dictionary is completed in place with defaults and
  resolved resource paths;
- the backend, circuit and agent layout of `gazoo`;
- the benchmark registry and agent layout of `mobil_perf`.

At the end of input the keyboard handler returns a trailing prefix character
alone (`read(1)` yields ''), and an empty stream is the `ord('')` error; the
model states both (`Console.ReadKey`, `Console.PrefixAtEnd`).

The simulation runner and agents belong to the simulator library. They
appear here as two small classes, `SimRunner.Runner` and `SimRunner.Agent`,
that record only what the demos ask of them. The file system, the
environment and the wall clock are parameters: `os.path.exists` and
`os.path.isfile` are predicates, a resource-root variable is a string, and
the readings of `time.time()` are values. Numbers the demos hold in
floating point are exact reals here.

Where the documentation and the code differ, the model follows the code.
The realtime demo is described as switching to rate 1.2 after 800 steps. The
hook actually keeps rate 1.0 for 800 calls and switches on the 801st,
because the counter starts at 800 and is decremented before it is tested
for zero (`Realtime.DefaultStartup`).

Modules, one per source file or shared concept: `Wrappers`, `Text`,
`ResourceSearch`, `SimRunner`, `Helpers`, `Console`, `KeyboardHandler`,
`DelphyneKeyboardHandler`, `Keyop`, `Teleop`, `TripIntegration`,
`DelphyneTripIntegration`, `Realtime`, `Crash`, `Scriptlets`, `RoadDict`,
`Mali`, `MaliOsm`, `Gazoo` and `MobilPerf`. The two `Delphyne…` modules
model the packaged copies under `delphyne_demos/demos/`. Those copies
behave the same as the files under `demos/`, so each module repeats its
counterpart's classes against the same specification functions.

## Model

| member | source | states |
|---|---|---|
| Text.NatToDecimal | demos/gazoo.py:130-195 | `str(n)`: at least one character, all of them decimal digits, exactly one when n < 10 |
| Text.NatToDecimalInjective | demos/gazoo.py:130-195 | distinct robot ids give distinct names: equal renderings imply equal numbers |
| Text.PrefixedNamesDistinct | demos/mobil_perf.py:90-112 | `prefix + str(i)` and `prefix + str(j)` differ whenever i != j |
| Text.Split | demos/mali.py:288 | `str.split` always yields at least one piece |
| Text.SplitJoinRoundTrip | demos/mali.py:288 | joining the split pieces with the separator gives back the string, and no piece contains the separator |
| Text.PathJoin | demos/mali.py:289 | POSIX `os.path.join`: an absolute second part replaces the first; otherwise the result starts with the first part and ends with the second |
| ResourceSearch.Candidates | demos/mali.py:287-289 | one candidate per `:`-separated root, in order, each the root joined with the path parts |
| ResourceSearch.FirstExistingIsFirstMatch | demos/mali.py:288-292 | the search returns the first existing candidate in root order, or '' when none exists |
| ResourceSearch.EarlierRootWins | demos/mali.py:288-292 | when a later root's path exists, the result is that path or one from an earlier root |
| ResourceSearch.FindFirst | demos/mali.py:285-292 | the resolver loop returns exactly the first existing candidate, else '' |
| SimRunner.Runner.constructor | demos/realtime.py:126-131 | the runner starts at the requested rate, paused as requested, with no step requests, not interrupted, loop running |
| SimRunner.Runner.PauseSimulation | demos/keyop.py:64 | sets the paused flag and changes nothing else |
| SimRunner.Runner.UnpauseSimulation | demos/keyop.py:61 | clears the paused flag and changes nothing else |
| SimRunner.Runner.RequestSimulationStepExecution | demos/keyop.py:71 | appends one step request and changes nothing else |
| SimRunner.Runner.Interrupt | demos/keyop.py:67 | sets the interrupt flag and changes nothing else |
| SimRunner.Runner.SetRealtimeRate | demos/realtime.py:71 | replaces the rate and changes nothing else |
| SimRunner.Runner.Stop | demos/mobil_perf.py:266 | ends the interactive loop and changes nothing else |
| SimRunner.Agent.constructor | demos/trip_integration.py:114-116 | an agent gets its name and initial speed, with zero acceleration and angular rate |
| SimRunner.Agent.SetAcceleration | demos/trip_integration.py:88 | sets the acceleration only |
| SimRunner.Agent.SetAngularRate | demos/trip_integration.py:89 | sets the angular rate only |
| SimRunner.Agent.SetSpeed | demos/scriptlets.py:101 | sets the speed only |
| Helpers.CheckPositiveFloatOrZero | demos/helpers.py:64-70 | accepts exactly the values >= 0, returning them unchanged; rejects a negative value with an error naming it |
| Helpers.DefaultArgs | demos/helpers.py:52-97 | the defaults: the caller's duration, rate 1.0 (accepted by the guard), not paused, no log, empty log file name, not bare |
| Helpers.RunModeFor | demos/realtime.py:142-151 | a negative duration runs without bound; otherwise the iteration count n satisfies n·period <= duration < (n+1)·period |
| Helpers.RunLengthMonotone | demos/realtime.py:149-151 | a longer duration never gives fewer iterations |
| Realtime.NextRate | demos/realtime.py:67-69 | the new rate is the old one plus 0.2, or 0.6 when that reaches 1.6; it is always below 1.6 |
| Realtime.StepsFor | demos/realtime.py:70 | `int(rate * 400)` lies within one below rate·400 |
| Realtime.InitialSteps | demos/realtime.py:120 | `int(rate * 800)` lies within one below rate·800; zero for rate 0 |
| Realtime.AfterTick | demos/realtime.py:62-76 | a positive counter is decremented by exactly one with the rate kept; at zero the rate advances by `NextRate` and the counter reloads with `int(new_rate * 400)`; the counter stays non-negative and the rate accepted |
| Realtime.Countdown | demos/realtime.py:75-76 | for j up to the counter, j calls only count down |
| Realtime.AdjustsAfterCountdown | demos/realtime.py:62-76 | with counter c the rate changes on call c+1 exactly and not before |
| Realtime.AdjustmentSpacing | demos/realtime.py:62-76 | consecutive adjustments are `int(r * 400) + 1` calls apart, r being the rate set at the earlier one |
| Realtime.AdjustedRates | demos/realtime.py:67-69 | every rate set by an adjustment is below 1.6 |
| Realtime.RateCycle | demos/realtime.py:94-95 | from rate 1.0 the adjustments cycle 1.2, 1.4, 0.6, 0.8, 1.0, all within [0.6, 1.6) |
| Realtime.RatesStayInBand | demos/realtime.py:94-95 | once the rate is at least 0.4, every later adjustment lands in [0.6, 1.6) |
| Realtime.DefaultStartup | demos/realtime.py:117-121 | with the default rate the first window is 800 calls; the rate becomes 1.2 on call 801, which reloads the counter with 480 |
| Realtime.ZeroRateAdjustsAtOnce | demos/realtime.py:120 | with rate 0 the first call adjusts, to rate 0.2 and 80 steps |
| Realtime.RealtimeRateChanger.constructor | demos/realtime.py:59-60 | the counter starts at the given number of steps |
| Realtime.RealtimeRateChanger.Tick | demos/realtime.py:62-76 | counter and runner rate move as one `AfterTick`, nothing else in the runner changes, and an adjustment is reported exactly when the counter was zero |
| Realtime.Setup | demos/realtime.py:111-151 | the runner starts at the requested rate, the hook with `int(rate * 800)` steps, and the run length follows the 0.02 s duration rule |
| Console.ReadKey | demos/keyboard_handler.py:94-99 | fails exactly on an empty stream; otherwise the key plus the rest is the stream, and the key has two characters exactly when the first is NUL or >= 0xA1 and another follows |
| Console.ReadAllRoundTrip | demos/keyboard_handler.py:94-99 | reading keys until the stream is empty neither skips nor reorders input, and every key is well formed |
| Console.PrefixAtEnd | demos/keyboard_handler.py:97-98 | a prefix character at the end of the stream is returned alone |
| Console.LowerChar | demos/keyop.py:58 | a lower-case ASCII letter comes only from itself, its upper case, or (for 'k') the Kelvin sign |
| Console.Lower | demos/keyop.py:58 | `lower()` keeps the length and lowers each character |
| Console.CommandKeys | demos/keyop.py:58-69 | a key is the command `letter` exactly when it is one character: the letter, its upper case, or for 'k' the Kelvin sign |
| Console.CommandsExclusive | demos/keyop.py:59-75 | no key is two commands at once |
| Console.RawLflag | demos/keyboard_handler.py:82-83 | canonical mode and echo are cleared and every other local flag is kept |
| Console.RawLflagIdempotent | demos/keyboard_handler.py:82-83 | clearing the flags twice is clearing them once |
| Console.RawMode | demos/keyboard_handler.py:79-83 | the new terminal settings differ from the old ones in the local flags only |
| Console.StdIn.Read1 | demos/keyboard_handler.py:96 | `read(1)` takes the first waiting character, or returns '' at the end, leaving the settings alone |
| Console.StdIn.SetAttrFlush | demos/keyboard_handler.py:84-85 | `tcsetattr` with `TCSAFLUSH` installs the settings and discards unread input |
| KeyboardHandler.KeyboardStdIn.constructor | demos/keyboard_handler.py:75-87 | saves the old settings and installs their raw-mode copy, discarding unread input |
| KeyboardHandler.KeyboardStdIn.SetNormalTerm | demos/keyboard_handler.py:89-92 | the exit hook writes the saved settings back |
| KeyboardHandler.KeyboardStdIn.GetCharacter | demos/keyboard_handler.py:94-99 | consumes exactly the key `ReadKey` decodes, or fails on empty input, leaving the settings alone |
| KeyboardHandler.KeyboardStdIn.KeyHit | demos/keyboard_handler.py:101-104 | true exactly when input is waiting |
| KeyboardHandler.KeyHit | demos/keyboard_handler.py:107-114 | true exactly when the handler has input waiting; never for the stub |
| KeyboardHandler.GetCharacter | demos/keyboard_handler.py:107-114 | the stub returns None; the interactive handler returns the decoded key and consumes it |
| KeyboardHandler.GetKeyboardHandler | demos/keyboard_handler.py:117-122 | the interactive handler, with the terminal in raw mode, exactly when standard input is a terminal; otherwise the stub, terminal untouched |
| DelphyneKeyboardHandler.KeyboardStdIn.constructor | delphyne_demos/demos/keyboard_handler.py:47-59 | as in `demos/`: saves the old settings and installs their raw-mode copy |
| DelphyneKeyboardHandler.KeyboardStdIn.SetNormalTerm | delphyne_demos/demos/keyboard_handler.py:61-64 | writes the saved settings back |
| DelphyneKeyboardHandler.KeyboardStdIn.GetCharacter | delphyne_demos/demos/keyboard_handler.py:66-71 | consumes exactly the key `ReadKey` decodes, or fails on empty input |
| DelphyneKeyboardHandler.KeyboardStdIn.KeyHit | delphyne_demos/demos/keyboard_handler.py:73-76 | true exactly when input is waiting |
| DelphyneKeyboardHandler.KeyHit | delphyne_demos/demos/keyboard_handler.py:79-86 | true exactly when input is waiting; never for the stub |
| DelphyneKeyboardHandler.GetCharacter | delphyne_demos/demos/keyboard_handler.py:79-86 | None from the stub, the decoded key from the interactive handler |
| DelphyneKeyboardHandler.GetKeyboardHandler | delphyne_demos/demos/keyboard_handler.py:89-94 | interactive exactly when standard input is a terminal |
| Keyop.CommandEffects | demos/keyop.py:53-75 | `p` flips pause; `q` interrupts; `s` appends a one-step request when paused and only reports otherwise; any other key, including every two-character key, changes nothing |
| Keyop.SessionEffects | demos/keyop.py:53-75 | over any key sequence: the pause state is kept by an even number of `p` presses and flipped by an odd number; interrupted iff it was or `q` came; step requests only appended, each of one step, at most one per `s`; rate and loop untouched |
| Keyop.DemoCallback | demos/keyop.py:53-75 | with no input nothing changes; otherwise exactly one key is consumed and the runner and message follow `Command` |
| Teleop.KeyEffects | demos/trip_integration.py:91-105 | `i`/`k` move the acceleration by ±0.1, `j`/`l` the angular rate by ±0.01, any other key changes neither |
| Teleop.KeyCounts | demos/trip_integration.py:91-105 | after any key sequence the acceleration moved by 0.1·(#i − #k) and the angular rate by 0.01·(#j − #l) |
| Teleop.FromInitial | demos/trip_integration.py:75-80 | from the initial zeros, acceleration = 0.1·(#i − #k) and angular rate = 0.01·(#j − #l) |
| TripIntegration.KeyopAccelerateSteerUnicycleCar.constructor | demos/trip_integration.py:75-80 | both commands start at zero, no agent bound yet |
| TripIntegration.KeyopAccelerateSteerUnicycleCar.Initialise | demos/trip_integration.py:82-83 | the behaviour is running; commands untouched |
| TripIntegration.KeyopAccelerateSteerUnicycleCar.LateSetup | demos/trip_integration.py:85-89 | binds the agent and pushes both commands to it, leaving its speed alone |
| TripIntegration.KeyopAccelerateSteerUnicycleCar.Update | demos/trip_integration.py:91-109 | at most one key is consumed and applied by `ApplyKey`; both commands are pushed to the agent; the result is SUCCESS |
| TripIntegration.CreateScenarioSubtree | demos/trip_integration.py:112-122 | one unicycle car at rest and the keyboard behaviour bound to it by the same name |
| TripIntegration.RunLength | demos/trip_integration.py:163-172 | a negative duration is unbounded; otherwise floor(duration / 0.01) ticks, 1000 for 10 s |
| DelphyneTripIntegration.KeyopAccelerateSteerUnicycleCar.constructor | delphyne_demos/demos/trip_integration.py:48-53 | both commands start at zero |
| DelphyneTripIntegration.KeyopAccelerateSteerUnicycleCar.Initialise | delphyne_demos/demos/trip_integration.py:55-56 | the behaviour is running |
| DelphyneTripIntegration.KeyopAccelerateSteerUnicycleCar.LateSetup | delphyne_demos/demos/trip_integration.py:58-62 | binds the agent and pushes both commands |
| DelphyneTripIntegration.KeyopAccelerateSteerUnicycleCar.Update | delphyne_demos/demos/trip_integration.py:64-82 | at most one key applied by `ApplyKey`, commands pushed, SUCCESS |
| DelphyneTripIntegration.CreateScenarioSubtree | delphyne_demos/demos/trip_integration.py:85-95 | one unicycle car at rest and the behaviour bound to it |
| DelphyneTripIntegration.RunLength | delphyne_demos/demos/trip_integration.py:136-145 | unbounded for a negative duration, floor(duration / 0.01) ticks otherwise |
| Crash.LinearPart | demos/crash.py:85 | `v[3:]`: empty for three components or fewer, otherwise components 3 onward |
| Crash.SpeedIgnoresAngularPart | demos/crash.py:85-90 | the reported speed depends only on components 3 onward |
| Crash.EventsInListOrder | demos/crash.py:78-92 | three announcements per collision, the i-th collision's at positions 3i to 3i+2 |
| Crash.PauseOnceAtEnd | demos/crash.py:67-94 | no collision, no output; otherwise one pause request, after every announcement |
| Crash.CheckForAgentCollisions | demos/crash.py:67-94 | emits `HookEvents` and pauses the runner exactly when there was a collision, changing nothing else |
| Scriptlets.TickStarted | demos/scriptlets.py:134-145 | the step's duration (end reading minus start time) is added to the sum; a report happens exactly on the 1000th sample, which clears the statistic; otherwise the count grows by one; the clock restarts |
| Scriptlets.RecordTickSpec | demos/scriptlets.py:134-145 | fails exactly when no start time was recorded |
| Scriptlets.ReportIsAverage | demos/scriptlets.py:124-128 | the report made at the 1000th sample is (sum + last duration) / 1000 · 1000 ms, computed with a count of 1000, never 0 |
| Scriptlets.TickKeepsCountInRange | demos/scriptlets.py:138-145 | the count stays below 1000 and the measurement stays started |
| Scriptlets.ReportsOncePerThousand | demos/scriptlets.py:106-145 | after n ticks from count c the count is (c+n) mod 1000 and (c+n) div 1000 reports were made |
| Scriptlets.WindowAccumulates | demos/scriptlets.py:134-145 | below 1000 samples nothing is reported and the sum is exactly the sum of the step durations measured since the start |
| Scriptlets.WindowReport | demos/scriptlets.py:124-145 | the tick completing 1000 samples makes the window's only report, the average of its measured durations in milliseconds, and leaves the statistic cleared with the clock restarted |
| Scriptlets.FirstReportIsAverage | demos/scriptlets.py:106-145 | from a fresh start, the first 1000 ticks report once: the average of the 1000 measured durations, in milliseconds |
| Scriptlets.SimulationStats.constructor | demos/scriptlets.py:113-116 | the statistic starts cleared |
| Scriptlets.SimulationStats.Reset | demos/scriptlets.py:118-122 | clears sum, count and start time |
| Scriptlets.SimulationStats.Start | demos/scriptlets.py:130-132 | records the start time only |
| Scriptlets.SimulationStats.RecordTick | demos/scriptlets.py:134-145 | the new state and report are those of `RecordTickSpec`; without a start time nothing changes |
| Scriptlets.TriggersOnceTimeReached | demos/scriptlets.py:98-103 | over a run of updates the behaviour succeeds iff some update saw time >= 10 s; then the agent drives at the target speed, otherwise nothing changed |
| Scriptlets.AfterSuccessStays | demos/scriptlets.py:98-103 | once triggered, later updates change nothing |
| Scriptlets.DelayedChangeSpeed.constructor | demos/scriptlets.py:85-89 | keeps the agent name and the target speed (1.0 when none is given), no agent bound |
| Scriptlets.DelayedChangeSpeed.Initialise | demos/scriptlets.py:91-92 | the behaviour is running |
| Scriptlets.DelayedChangeSpeed.LateSetup | demos/scriptlets.py:94-96 | binds the agent |
| Scriptlets.DelayedChangeSpeed.Update | demos/scriptlets.py:98-103 | status and agent speed follow `UpdateSpec`; acceleration and angular rate untouched |
| RoadDict.SetDefault | demos/mali.py:357-364 | the key is present afterwards, keeping an existing value, and no other key changes |
| RoadDict.SetDefaultIdempotent | demos/mali.py:357-364 | defaulting a key twice is defaulting it once |
| RoadDict.ResolveIfRelative | demos/mali.py:365-368 | an absolute path is kept; a relative one is replaced by its resolution; nothing else changes |
| RoadDict.LaneFor | demos/mali.py:375-380 | a random lane exactly when the road names no lane |
| RoadDict.AngularTolerance | demos/mali.py:389 | the road's angular tolerance, or 1e-3 when it names none |
| RoadDict.AgentFor | demos/mali.py:312-333 | a RuleRailCar exactly when the agent type is "RuleRailCar", otherwise a RailCar; 15 m/s, no lateral offset |
| RoadDict.ScenarioFor | demos/mali.py:389-395 | the scenario receives the road's paths, position, direction, tolerances, lane and agent |
| RoadDict.IndexOf | demos/mali.py:355-356 | the first entry with the name, or None exactly when no entry has it |
| RoadDict.Store | demos/mali.py:356-370 | overwriting keeps the number of entries |
| RoadDict.StoreThenGet | demos/mali.py:356-370 | a stored road reads back; other names and the set of names are unchanged |
| RoadDict.StoreTwice | demos/mali.py:356-370 | a second store under the same name replaces the first |
| RoadDict.RoadTable.constructor | demos/mali.py:56 | the table holds the given entries, and is valid when every entry is well formed |
| RoadDict.RoadTable.SetEntryKey | demos/mali.py:366 | `d[name][key] = v` in place |
| RoadDict.RoadTable.SetDefaultKey | demos/mali.py:357-364 | `if key not in d[name]: d[name][key] = v` in place |
| Mali.KnownRoadsWellFormed | demos/mali.py:56-248 | every known road has string paths, a lane position, a direction and a linear tolerance; the default road SShapeRoad is known |
| Mali.RuleRailCarRoads | demos/mali.py:56-248 | exactly the two pedestrian-crosswalk roads drive a RuleRailCar |
| Mali.KnownAngularTolerances | demos/mali.py:56-248 | only RRFigure8 overrides the angular tolerance (0.3) |
| Mali.GetMalidriveResource | demos/mali.py:285-292 | the first existing `<root>/resources/<path>`, else '' |
| Mali.CustomRoad | demos/mali.py:345-354 | a road file from the command line gets its paths, tolerance and agent type from the arguments, lane position 0, forward, random lane |
| Mali.DefaultedKnownRoad | demos/mali.py:355-370 | missing keys defaulted, relative paths resolved, every other key kept |
| Mali.DefaultedKnownRoadComplete | demos/mali.py:355-395 | a completed entry holds every key the scenario reads |
| Mali.ResolveKey | demos/mali.py:365-368 | resolves one path entry in place unless absolute |
| Mali.CompleteKnownRoad | demos/mali.py:355-370 | the in-place writes leave the entry equal to `DefaultedKnownRoad` of the old one |
| Mali.SelectRoad | demos/mali.py:345-373 | an existing file wins; a known road is completed in place and returned; any other name fails with the table untouched; a returned road holds every key the scenario reads |
| MaliOsm.ParseArguments | demos/mali_osm.py:141-172 | the parser defines road name, yaml name, linear tolerance and agent type, and no origin |
| MaliOsm.ParseArgumentsWithOrigin | demos/mali_osm.py:234 | with an `--origin` option the namespace also holds the origin |
| MaliOsm.KnownRoadsWellFormed | demos/mali_osm.py:56-138 | every known road is well formed and names an origin; the default road is known |
| MaliOsm.KnownStartingPositions | demos/mali_osm.py:56-138 | only YShapeRoad starts at 46 m and against the lane direction |
| MaliOsm.GetMaliputOsmResource | demos/mali_osm.py:175-182 | the first existing `<root>/resources/osm/<path>`, else '' |
| MaliOsm.CustomRoad | demos/mali_osm.py:230-240 | fails exactly when an attribute it reads is missing; otherwise the road carries the command-line values and a random lane |
| MaliOsm.CustomRoadMissingOrigin | demos/mali_osm.py:234 | with the parser as written, every custom road file fails on `origin` |
| MaliOsm.CustomRoadTakesOrigin | demos/mali_osm.py:230-240 | with an origin option, a custom road file is accepted and takes that origin |
| MaliOsm.DefaultedKnownRoad | demos/mali_osm.py:241-258 | missing keys (origin included) defaulted, relative paths resolved, every other key kept |
| MaliOsm.ResolveKey | demos/mali_osm.py:253-256 | resolves one path entry in place unless absolute |
| MaliOsm.DefaultedKnownRoadIgnoresYamlName | demos/mali_osm.py:249-252 | an entry that already names its yaml file completes to the same road whatever the `yaml_name` option says |
| MaliOsm.WriteFileAndOrigin | demos/mali_osm.py:243-248 | the entry gains `odr/<name>.xodr` as file and `{0, 0, 0}` as origin where absent, in place; other roads untouched and the table stays well formed |
| MaliOsm.KnownRoadConfiguration | demos/mali_osm.py:241-262 | the returned road is the completed entry, stored in place, holding an origin and every key the scenario reads; the table stays well formed |
| MaliOsm.CompleteKnownRoad | demos/mali_osm.py:241-258 | the in-place writes leave the entry equal to `DefaultedKnownRoad` of the old one |
| MaliOsm.GetRoadConfiguration | demos/mali_osm.py:228-262 | file, known road or unknown name as in `mali`; a missing `road_name` or a custom-road attribute is an error; `yaml_name` is read only for a known entry without `yaml_file_path`, and when it is then missing the call fails after the file and origin defaults were written into the entry; otherwise the entry is completed in place and returned, holding an origin and every key the scenario reads |
| Gazoo.BackendFromString | demos/gazoo.py:58-60 | only the two backend values convert; any other string raises |
| Gazoo.BackendRoundTrip | demos/gazoo.py:58-60 | value and conversion are inverse |
| Gazoo.GetMaliputOsmCircuit | demos/gazoo.py:63-71 | the first existing `<root>/resources/osm/circuit.osm`, else '' |
| Gazoo.DelphyneGuiCircuit | demos/gazoo.py:74-80 | the GUI circuit path when it exists, else '' |
| Gazoo.ConfigFor | demos/gazoo.py:92-106 | the backend's name, three lanes and origin, with the given circuit path |
| Gazoo.GetScenarioSubtreeConfig | demos/gazoo.py:92-106 | an unknown backend fails; each backend resolves its circuit with its own resolver |
| Gazoo.CheckNumCars | demos/gazoo.py:238-240 | accepts exactly 0 to 6 cars |
| Gazoo.GazooAgentsShape | demos/gazoo.py:130-195 | 3 + n agents named by robot ids 1.., all distinct; three rail cars on the three lanes, then MOBIL cars at 2i m/s |
| Gazoo.AddAgentsToScenario | demos/gazoo.py:130-195 | the loop builds exactly `GazooAgents` |
| Gazoo.CreateGazooScenario | demos/gazoo.py:198-240 | the car count is checked first, then the backend; with both valid the call succeeds exactly when the backend's circuit file exists, and otherwise fails with `CircuitNotFound`; a scenario carries the backend's own configuration and the requested agents on its lanes |
| MobilPerf.AllBenchmarksByName | demos/mobil_perf.py:55-63 | the registry's keys are the three setup names, each mapped to the function of that name |
| MobilPerf.BenchmarkRegistry.constructor | demos/mobil_perf.py:60-61 | no registry before the first decoration |
| MobilPerf.BenchmarkRegistry.Decorate | demos/mobil_perf.py:55-63 | stores the function under its name, creating the registry on first use, and returns it unchanged |
| MobilPerf.ImportModule | demos/mobil_perf.py:66-204 | importing the module registers exactly the three benchmarks |
| MobilPerf.SelectBenchmark | demos/mobil_perf.py:213-217 | only a registry key is a valid choice, and it selects the function of that name |
| MobilPerf.DefaultRunLength | demos/mobil_perf.py:212 | the default run is 5 s at 0.02 s per tick: 250 iterations |
| MobilPerf.Truncate | demos/mobil_perf.py:99 | `int()` truncates toward zero |
| MobilPerf.BenchmarkAgentLayout | demos/mobil_perf.py:66-204 | `mobil0`.. first, then `rail 0`.., in loop order |
| MobilPerf.BenchmarkAgentNamesDistinct | demos/mobil_perf.py:66-204 | no two agents share a name |
| MobilPerf.SetUp | demos/mobil_perf.py:66-204 | the two loops add exactly `len(range(num_cars))` MOBIL cars and `int(density * num_cars)` rail cars (none when negative) |
| MobilPerf.StopIfRunning | demos/mobil_perf.py:265-266 | the interactive loop is stopped, nothing else changes |

## Left out

- Helpers.CheckPositiveFloatOrZero: takes the value after `float()`; the string parse and its `ValueError` on text that is not a number are not modelled.
- Floating point. Rates, durations, increments and averages are exact reals. In binary floating point 1.4 + 0.2 evaluates just below 1.6, so the program as run may go on to a rate near 1.6 before wrapping to 0.6. `int()` of a product or quotient can also come out one lower than the exact value, and repeated ±0.1 and ±0.01 increments drift. The model states the arithmetic as written.
- The simulator's scheduling: the tick loop, `tick_tock`, pause gating, throttling and the order of hooks belong to the simulator library. `SimRunner` records only the requests the demos make.
- Terminal I/O: `select`, `atexit` registration, `isatty`, file descriptors and the code-point decoding of the byte stream. Standard input is a sequence of code points with its terminal settings; `isatty` is a field.
- Console.LowerChar: `str.lower()` is modelled for A–Z and the Kelvin sign only; other code points, whose lower case is never a command letter, are kept as they are.
- Printing, argparse's construction, help texts and `get_from_env_or_fail`: the value of a resource-root variable is given, and a missing variable is not modelled.
- `os.path.exists` and `os.path.isfile` are predicates given as parameters; `os.path.join` is modelled for POSIX only.
- The `isFile` parameter is unconstrained: `os.path.isfile('')` is false on every real file system, so a resolver's '' (no resource found) never passes the file checks of `gazoo`, `mali` and `mali_osm`; the model does not assume this and also allows a predicate that accepts ''.
- `time.time()` and the simulated clock are parameters; `random_print` and the random lane provider are left out because they are randomness.
- `launch_interactive_simulation`, the scenario builders of the simulator library and the `ObjFeatures` drawing settings: these are calls into code that is not part of this model.
- The OnArc pose of the curved benchmark is carried as radius and angle; the sine and cosine are not evaluated. Crash reports carry the linear velocity, not its numpy norm.
- Scriptlets: the file-name lookups with `splitext`/`basename` and `print_simulation_stats` are printing only.
- Gazoo: the "Backend not supported" branches are unreachable because `MaliputBackend(value)` already raised; no member models them.
- Gazoo.AddAgentsToScenario: requires three lanes, which every backend configuration provides.
- roads.py, city.py and dragway.py are context for the demos and are not part of this model.

## Findings

| source | as written | input that shows it | evidently intended | confidence | as-written member | corrected member |
|---|---|---|---|---|---|---|
| demos/mali_osm.py:234 | the custom-road branch reads `args.origin`, but `parse_arguments` (lines 141-172) and the shared parser define no `--origin` option | any existing file passed as the road name, with any other options | the parser offers an `--origin` option whose value the custom road takes | not executed | MaliOsm.CustomRoadMissingOrigin | MaliOsm.CustomRoadTakesOrigin |
