/** The crash demo's pre-tick hook: every collision the simulation reports
    is announced, agent by agent, and then the simulation is paused. */
module Crash {
  import opened SimRunner

  /** What the hook reads of one agent: its name, its velocity as a twist
      (angular part first, linear part from index 3) and its resting
      position. */
  datatype AgentSnapshot = AgentSnapshot(name: string, velocity: seq<real>, restPose: seq<real>)

  datatype Collision = Collision(agent1: AgentSnapshot, agent2: AgentSnapshot, location: seq<real>)

  /** The announcements, in the order they are emitted. A `Hit` carries the
      linear velocity whose norm is the reported speed. */
  datatype Event =
    | Detected
    | Crashed(first: string, second: string, location: seq<real>)
    | Hit(driver: string, linearVelocity: seq<real>, other: string, restsAt: seq<real>)
    | PauseRequested

  /** `v[3:]`: empty when the vector has three components or fewer. */
  function LinearPart(v: seq<real>): (l: seq<real>)
    ensures |v| <= 3 ==> l == []
    ensures |v| > 3 ==> |l| == |v| - 3 && forall i :: 0 <= i < |l| ==> l[i] == v[i + 3]
  {
    if |v| <= 3 then [] else v[3..]
  }

  /** The reported speed ignores the angular components 0-2. */
  lemma SpeedIgnoresAngularPart(v: seq<real>, w: seq<real>)
    requires |v| == |w|
    requires forall i :: 3 <= i < |v| ==> v[i] == w[i]
    ensures LinearPart(v) == LinearPart(w)
  {
    if |v| > 3 {
      assert forall i :: 0 <= i < |v| - 3 ==> LinearPart(v)[i] == LinearPart(w)[i];
    }
  }

  /** The three announcements for one collision: the crash, then agent 1
      naming agent 2, then agent 2 naming agent 1. */
  function CollisionEvents(c: Collision): seq<Event> {
    [ Crashed(c.agent1.name, c.agent2.name, c.location),
      Hit(c.agent1.name, LinearPart(c.agent1.velocity), c.agent2.name, c.agent1.restPose),
      Hit(c.agent2.name, LinearPart(c.agent2.velocity), c.agent1.name, c.agent2.restPose) ]
  }

  /** The announcements for a list of collisions, in list order. */
  function AllCollisionEvents(cs: seq<Collision>): seq<Event>
    decreases |cs|
  {
    if cs == [] then [] else AllCollisionEvents(cs[..|cs| - 1]) + CollisionEvents(cs[|cs| - 1])
  }

  /** Everything one invocation of the hook emits. */
  function HookEvents(cs: seq<Collision>): seq<Event> {
    if cs == [] then [] else [Detected] + AllCollisionEvents(cs) + [PauseRequested]
  }

  /** Three announcements per collision, the i-th collision's at 3i..3i+3. */
  lemma {:induction false} EventsInListOrder(cs: seq<Collision>)
    ensures |AllCollisionEvents(cs)| == 3 * |cs|
    ensures forall i :: 0 <= i < |cs| ==>
      AllCollisionEvents(cs)[3 * i..3 * i + 3] == CollisionEvents(cs[i])
    decreases |cs|
  {
    if cs != [] {
      var init := cs[..|cs| - 1];
      EventsInListOrder(init);
      var e := AllCollisionEvents(cs);
      assert e == AllCollisionEvents(init) + CollisionEvents(cs[|cs| - 1]);
      forall i | 0 <= i < |cs|
        ensures e[3 * i..3 * i + 3] == CollisionEvents(cs[i])
      {
        if i < |cs| - 1 {
          assert cs[i] == init[i];
          assert e[3 * i..3 * i + 3] == AllCollisionEvents(init)[3 * i..3 * i + 3];
        } else {
          assert e[3 * i..3 * i + 3] == CollisionEvents(cs[|cs| - 1]);
        }
      }
    }
  }

  lemma {:induction false} NoPauseAmongCollisionEvents(cs: seq<Collision>)
    ensures forall i :: 0 <= i < |AllCollisionEvents(cs)| ==> !AllCollisionEvents(cs)[i].PauseRequested?
    decreases |cs|
  {
    if cs != [] {
      NoPauseAmongCollisionEvents(cs[..|cs| - 1]);
    }
  }

  /** No collision: nothing is emitted. Otherwise exactly one pause request,
      and it comes after every announcement. */
  lemma PauseOnceAtEnd(cs: seq<Collision>)
    ensures cs == [] <==> HookEvents(cs) == []
    ensures cs != [] ==>
      var e := HookEvents(cs);
      e[0] == Detected && e[|e| - 1] == PauseRequested
      && forall i :: 0 <= i < |e| - 1 ==> !e[i].PauseRequested?
  {
    if cs != [] {
      NoPauseAmongCollisionEvents(cs);
      var a := AllCollisionEvents(cs);
      var e := HookEvents(cs);
      assert e == [Detected] + a + [PauseRequested];
      assert |e| == |a| + 2;
      forall i | 0 <= i < |e| - 1
        ensures !e[i].PauseRequested?
      {
        if i > 0 {
          assert e[i] == a[i - 1];
        }
      }
    }
  }

  /** The hook: announces every collision in `collisions` and pauses the
      runner whenever there was at least one, whatever its paused state. */
  method CheckForAgentCollisions(runner: Runner, collisions: seq<Collision>)
    returns (events: seq<Event>)
    modifies runner
    ensures events == HookEvents(collisions)
    ensures collisions == [] ==> runner.State() == old(runner.State())
    ensures collisions != [] ==> runner.State() == old(runner.State()).(paused := true)
  {
    if collisions == [] {
      return [];
    }
    events := [Detected];
    var i := 0;
    while i < |collisions|
      invariant 0 <= i <= |collisions|
      invariant events == [Detected] + AllCollisionEvents(collisions[..i])
    {
      assert collisions[..i + 1][..i] == collisions[..i];
      events := events + CollisionEvents(collisions[i]);
      i := i + 1;
    }
    assert collisions[..i] == collisions;
    runner.PauseSimulation();
    events := events + [PauseRequested];
  }
}
