/** The external simulation runner and agents, reduced to the state the
    demos read and write. Their scheduling (the tick loop, pause gating,
    throttling, hook order) belongs to the simulation library and is not
    part of this model: these classes only record what the demos ask of
    them. */
module SimRunner {

  /** A snapshot of the runner state the demos touch. */
  datatype RunnerState = RunnerState(
    paused: bool,
    stepRequests: seq<nat>,
    interrupted: bool,
    rate: real,
    loopRunning: bool)

  class Runner {
    var paused: bool
    /** Step executions requested while paused, oldest first. */
    var stepRequests: seq<nat>
    /** Set when the behaviour tree is asked to stop ticking. */
    var interrupted: bool
    /** The real-time rate the runner throttles to. */
    var rate: real
    /** Whether the runner's interactive loop is still going. */
    var loopRunning: bool

    function State(): RunnerState
      reads this
    {
      RunnerState(paused, stepRequests, interrupted, rate, loopRunning)
    }

    constructor (realtimeRate: real, startPaused: bool)
      ensures State() == RunnerState(startPaused, [], false, realtimeRate, true)
    {
      paused := startPaused;
      stepRequests := [];
      interrupted := false;
      rate := realtimeRate;
      loopRunning := true;
    }

    predicate IsSimulationPaused()
      reads this
    {
      paused
    }

    method PauseSimulation()
      modifies this
      ensures State() == old(State()).(paused := true)
    {
      paused := true;
    }

    method UnpauseSimulation()
      modifies this
      ensures State() == old(State()).(paused := false)
    {
      paused := false;
    }

    method RequestSimulationStepExecution(steps: nat)
      modifies this
      ensures State() == old(State()).(stepRequests := old(stepRequests) + [steps])
    {
      stepRequests := stepRequests + [steps];
    }

    method Interrupt()
      modifies this
      ensures State() == old(State()).(interrupted := true)
    {
      interrupted := true;
    }

    method SetRealtimeRate(newRate: real)
      modifies this
      ensures State() == old(State()).(rate := newRate)
    {
      rate := newRate;
    }

    method Stop()
      modifies this
      ensures State() == old(State()).(loopRunning := false)
    {
      loopRunning := false;
    }
  }

  /** An agent of the simulation, as far as the demo behaviours drive it. */
  class Agent {
    const name: string
    var acceleration: real
    var angularRate: real
    var speed: real

    constructor (agentName: string, initialSpeed: real)
      ensures name == agentName && speed == initialSpeed
      ensures acceleration == 0.0 && angularRate == 0.0
    {
      name := agentName;
      speed := initialSpeed;
      acceleration := 0.0;
      angularRate := 0.0;
    }

    method SetAcceleration(a: real)
      modifies this
      ensures acceleration == a && angularRate == old(angularRate) && speed == old(speed)
    {
      acceleration := a;
    }

    method SetAngularRate(w: real)
      modifies this
      ensures angularRate == w && acceleration == old(acceleration) && speed == old(speed)
    {
      angularRate := w;
    }

    method SetSpeed(v: real)
      modifies this
      ensures speed == v && acceleration == old(acceleration) && angularRate == old(angularRate)
    {
      speed := v;
    }
  }

  /** py_trees behaviour status. */
  datatype Status = Invalid | Running | Success | Failure
}
