/** The keyop demo's step callback: on each simulation step it polls the
    keyboard and, for `p`, `q` or `s` (any case), pauses or resumes the
    runner, interrupts the tree, or requests one step while paused. */
module Keyop {
  import opened Wrappers
  import opened Console
  import opened SimRunner
  import opened KeyboardHandler

  /** The runner's time step, which the step message reports. */
  const SimRunnerTimeStep: real := 0.01

  /** What the callback prints. */
  datatype Message =
    | Nothing
    | NowRunning
    | NowPaused
    | Quitting
    | StepExecuted(seconds: real)
    | StepNeedsPause

  /** The effect of one key on the runner, and the message printed. */
  function Command(key: seq<nat>, s: RunnerState, timeStep: real): (RunnerState, Message) {
    if IsCommand(key, 'p') then
      if s.paused then (s.(paused := false), NowRunning) else (s.(paused := true), NowPaused)
    else if IsCommand(key, 'q') then
      (s.(interrupted := true), Quitting)
    else if IsCommand(key, 's') then
      if s.paused then (s.(stepRequests := s.stepRequests + [1]), StepExecuted(timeStep))
      else (s, StepNeedsPause)
    else (s, Nothing)
  }

  /** Each command key changes only its own part of the runner state:
      `p` flips the pause flag; `q` sets the interrupt flag; `s` appends a
      request for one step when paused and only reports otherwise; any other
      key, including every two-character key, changes nothing. */
  lemma CommandEffects(key: seq<nat>, s: RunnerState, timeStep: real)
    ensures IsCommand(key, 'p') ==> Command(key, s, timeStep).0 == s.(paused := !s.paused)
    ensures IsCommand(key, 'q') ==>
      Command(key, s, timeStep) == (s.(interrupted := true), Quitting)
    ensures IsCommand(key, 's') && s.paused ==>
      Command(key, s, timeStep) == (s.(stepRequests := s.stepRequests + [1]), StepExecuted(timeStep))
    ensures IsCommand(key, 's') && !s.paused ==> Command(key, s, timeStep) == (s, StepNeedsPause)
    ensures |key| != 1 ==> Command(key, s, timeStep) == (s, Nothing)
  {
    if |key| != 1 {
      CommandKeys(key, 'p');
      CommandKeys(key, 'q');
      CommandKeys(key, 's');
    } else {
      CommandsExclusive(key, 'p', 'q');
      CommandsExclusive(key, 'p', 's');
      CommandsExclusive(key, 'q', 's');
    }
  }

  /** The runner state after the keys of `keys` were handled in order. */
  function AfterKeys(keys: seq<seq<nat>>, s: RunnerState, timeStep: real): RunnerState
    decreases |keys|
  {
    if keys == [] then s
    else AfterKeys(keys[1..], Command(keys[0], s, timeStep).0, timeStep)
  }

  /** Over a whole session of keys: an even number of `p` presses leaves
      the pause state as it started and an odd number flips it; once set,
      the interrupt flag stays set and is set exactly when `q` was pressed
      or it was set before; step requests are only ever appended, each for
      one step, at most one per `s`; the rate and the interactive loop are
      never touched. */
  lemma {:induction false} SessionEffects(keys: seq<seq<nat>>, s: RunnerState, timeStep: real)
    ensures var t := AfterKeys(keys, s, timeStep);
      && (t.paused <==> (s.paused <==> CountCommand(keys, 'p') % 2 == 0))
      && (t.interrupted <==> s.interrupted || CountCommand(keys, 'q') > 0)
      && s.stepRequests <= t.stepRequests
      && |t.stepRequests| <= |s.stepRequests| + CountCommand(keys, 's')
      && (forall k :: |s.stepRequests| <= k < |t.stepRequests| ==> t.stepRequests[k] == 1)
      && t.rate == s.rate && t.loopRunning == s.loopRunning
    decreases |keys|
  {
    if keys != [] {
      var key := keys[0];
      var s' := Command(key, s, timeStep).0;
      CommandEffects(key, s, timeStep);
      if |key| == 1 {
        CommandsExclusive(key, 'p', 'q');
        CommandsExclusive(key, 'p', 's');
        CommandsExclusive(key, 'q', 's');
      }
      SessionEffects(keys[1..], s', timeStep);
    }
  }

  /** `demo_callback`: polls the handler and applies at most one command. */
  method DemoCallback(runner: Runner, h: Handler, timeStep: real) returns (msg: Message)
    modifies runner, Footprint(h)
    ensures old(Pending(h)) == [] ==>
      runner.State() == old(runner.State()) && msg == Nothing && Pending(h) == []
    ensures old(Pending(h)) != [] ==>
      var kr := ReadKey(old(Pending(h))).value;
      Pending(h) == kr.rest && (runner.State(), msg) == Command(kr.key, old(runner.State()), timeStep)
  {
    var hit := KeyHit(h);
    if hit {
      var c := GetCharacter(h);
      var key := Lower(c.value.value);
      if key == ['p' as nat] {
        if runner.IsSimulationPaused() {
          runner.UnpauseSimulation();
          msg := NowRunning;
        } else {
          runner.PauseSimulation();
          msg := NowPaused;
        }
      } else if key == ['q' as nat] {
        runner.Interrupt();
        msg := Quitting;
      } else if key == ['s' as nat] {
        if runner.IsSimulationPaused() {
          runner.RequestSimulationStepExecution(1);
          msg := StepExecuted(timeStep);
        } else {
          msg := StepNeedsPause;
        }
      } else {
        msg := Nothing;
      }
    } else {
      msg := Nothing;
    }
  }
}
