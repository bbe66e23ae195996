/** The keyboard teleoperation rule of the trip-integration demo: `i` and
    `k` raise and lower the acceleration by 0.1, `j` and `l` raise and lower
    the angular rate by 0.01, in exact arithmetic. */
module Teleop {
  import opened Console

  datatype Controls = Controls(acceleration: real, angularRate: real)

  /** Both commands start at zero. */
  const Initial: Controls := Controls(0.0, 0.0)

  /** The four independent tests of `update` applied to one key. */
  function ApplyKey(key: seq<nat>, c: Controls): Controls {
    var a1 := if IsCommand(key, 'i') then c.acceleration + 0.1 else c.acceleration;
    var a2 := if IsCommand(key, 'k') then a1 - 0.1 else a1;
    var w1 := if IsCommand(key, 'j') then c.angularRate + 0.01 else c.angularRate;
    var w2 := if IsCommand(key, 'l') then w1 - 0.01 else w1;
    Controls(a2, w2)
  }

  /** `i`/`k` change only the acceleration, `j`/`l` only the angular rate,
      and every other key changes neither. */
  lemma KeyEffects(key: seq<nat>, c: Controls)
    ensures IsCommand(key, 'i') ==> ApplyKey(key, c) == c.(acceleration := c.acceleration + 0.1)
    ensures IsCommand(key, 'k') ==> ApplyKey(key, c) == c.(acceleration := c.acceleration - 0.1)
    ensures IsCommand(key, 'j') ==> ApplyKey(key, c) == c.(angularRate := c.angularRate + 0.01)
    ensures IsCommand(key, 'l') ==> ApplyKey(key, c) == c.(angularRate := c.angularRate - 0.01)
    ensures (!IsCommand(key, 'i') && !IsCommand(key, 'k') && !IsCommand(key, 'j')
             && !IsCommand(key, 'l')) ==> ApplyKey(key, c) == c
  {
    CommandsExclusive(key, 'i', 'k');
    CommandsExclusive(key, 'j', 'l');
    CommandsExclusive(key, 'i', 'j');
    CommandsExclusive(key, 'i', 'l');
    CommandsExclusive(key, 'k', 'j');
    CommandsExclusive(key, 'k', 'l');
  }

  function AfterKeys(keys: seq<seq<nat>>, c: Controls): Controls
    decreases |keys|
  {
    if keys == [] then c else AfterKeys(keys[1..], ApplyKey(keys[0], c))
  }

  /** After any sequence of keys the acceleration has moved by 0.1 per `i`
      less 0.1 per `k`, and the angular rate by 0.01 per `j` less 0.01 per
      `l`. */
  lemma {:induction false} KeyCounts(keys: seq<seq<nat>>, c: Controls)
    ensures AfterKeys(keys, c) == Controls(
      c.acceleration + 0.1 * (CountCommand(keys, 'i') - CountCommand(keys, 'k')) as real,
      c.angularRate + 0.01 * (CountCommand(keys, 'j') - CountCommand(keys, 'l')) as real)
    decreases |keys|
  {
    if keys != [] {
      KeyEffects(keys[0], c);
      KeyCounts(keys[1..], ApplyKey(keys[0], c));
    }
  }

  /** From the initial state: acceleration = 0.1 (#i - #k) and angular rate
      = 0.01 (#j - #l). */
  lemma FromInitial(keys: seq<seq<nat>>)
    ensures AfterKeys(keys, Initial) == Controls(
      0.1 * (CountCommand(keys, 'i') - CountCommand(keys, 'k')) as real,
      0.01 * (CountCommand(keys, 'j') - CountCommand(keys, 'l')) as real)
  {
    KeyCounts(keys, Initial);
  }
}
