/** The packaged copy of the trip-integration demo's behaviour that drives a unicycle car from
    the keyboard. */
module DelphyneTripIntegration {
  import opened Wrappers
  import opened Console
  import opened SimRunner
  import opened DelphyneKeyboardHandler
  import opened Teleop
  import opened Helpers

  /** The time step of both the simulation and the tree. */
  const TimeStep: real := 0.01

  class KeyopAccelerateSteerUnicycleCar {
    const agentName: string
    const keyboardHandler: Handler
    var acceleration: real
    var angularRate: real
    var status: Status
    var agent: Agent?

    constructor (name: string, handler: Handler)
      ensures agentName == name && keyboardHandler == handler
      ensures Controls(acceleration, angularRate) == Initial
      ensures status == Invalid && agent == null
    {
      agentName := name;
      keyboardHandler := handler;
      acceleration := 0.0;
      angularRate := 0.0;
      status := Invalid;
      agent := null;
    }

    method Initialise()
      modifies this
      ensures status == Running
      ensures acceleration == old(acceleration) && angularRate == old(angularRate) && agent == old(agent)
    {
      status := Running;
    }

    /** Binds the agent found by name and pushes the current commands. */
    method LateSetup(found: Agent)
      modifies this, found
      ensures agent == found && status == old(status)
      ensures acceleration == old(acceleration) && angularRate == old(angularRate)
      ensures found.acceleration == acceleration && found.angularRate == angularRate
      ensures found.speed == old(found.speed)
    {
      agent := found;
      found.SetAcceleration(acceleration);
      found.SetAngularRate(angularRate);
    }

    /** Applies at most one pending key, pushes both commands to the agent
        and succeeds. */
    method Update() returns (result: Status)
      requires agent != null
      modifies this, agent, Footprint(keyboardHandler)
      ensures result == Success && status == Success && agent == old(agent)
      ensures agent.acceleration == acceleration && agent.angularRate == angularRate
      ensures agent.speed == old(agent.speed)
      ensures old(Pending(keyboardHandler)) == [] ==>
        Controls(acceleration, angularRate) == old(Controls(acceleration, angularRate))
        && Pending(keyboardHandler) == []
      ensures old(Pending(keyboardHandler)) != [] ==>
        var kr := ReadKey(old(Pending(keyboardHandler))).value;
        Pending(keyboardHandler) == kr.rest
        && Controls(acceleration, angularRate) == ApplyKey(kr.key, old(Controls(acceleration, angularRate)))
    {
      var hit := KeyHit(keyboardHandler);
      if hit {
        var c := GetCharacter(keyboardHandler);
        var key := Lower(c.value.value);
        if key == ['i' as nat] {
          acceleration := acceleration + 0.1;
        }
        if key == ['k' as nat] {
          acceleration := acceleration - 0.1;
        }
        if key == ['j' as nat] {
          angularRate := angularRate + 0.01;
        }
        if key == ['l' as nat] {
          angularRate := angularRate - 0.01;
        }
      }
      agent.SetAcceleration(acceleration);
      agent.SetAngularRate(angularRate);
      status := Success;
      result := status;
    }
  }

  /** The name shared by the unicycle agent and the behaviour driving it. */
  const UnicycleAgentName: string := "unicycle_agent"

  /** The scenario: one unicycle car at rest, and the keyboard behaviour
      bound to it by name. */
  method CreateScenarioSubtree(keyboard: Handler)
    returns (car: Agent, keyop: KeyopAccelerateSteerUnicycleCar)
    ensures fresh(car) && fresh(keyop)
    ensures car.name == UnicycleAgentName && car.speed == 0.0
    ensures keyop.agentName == car.name && keyop.keyboardHandler == keyboard
    ensures keyop.agent == null && keyop.status == Invalid
    ensures Controls(keyop.acceleration, keyop.angularRate) == Initial
  {
    car := new Agent(UnicycleAgentName, 0.0);
    keyop := new KeyopAccelerateSteerUnicycleCar(UnicycleAgentName, keyboard);
  }

  /** A negative duration ticks without end; otherwise the run lasts
      floor(duration / 0.01) ticks, e.g. 1000 for 10 s. */
  lemma RunLength(duration: real)
    ensures RunModeFor(duration, TimeStep).Indefinite? <==> duration < 0.0
    ensures duration >= 0.0 ==> RunModeFor(duration, TimeStep) == Bounded((duration / TimeStep).Floor)
    ensures RunModeFor(10.0, TimeStep) == Bounded(1000)
  {
    var m := RunModeFor(10.0, TimeStep);
    assert m.iterations as real * 0.01 <= 10.0 < (m.iterations + 1) as real * 0.01;
  }
}
