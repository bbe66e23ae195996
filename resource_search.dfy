/** The first-match search that every road demo uses to resolve a resource
    against a `:`-separated list of resource roots taken from an environment
    variable. Whether a path exists on disk is an abstract predicate. */
module ResourceSearch {
  import opened Text

  /** The environment a resolver runs in: the value of its resource-root
      variable and the file system's `os.path.exists`. */
  datatype ResourceEnv = ResourceEnv(rootVar: string, pathExists: string -> bool)

  /** The paths tried, in order: `os.path.join(root, parts...)` for every
      root of the `:`-separated list. */
  function Candidates(rootVar: string, parts: seq<string>): (c: seq<string>)
    ensures |c| == |Split(rootVar, ':')|
    ensures forall k :: 0 <= k < |c| ==> c[k] == PathJoinAll(Split(rootVar, ':')[k], parts)
  {
    var roots := Split(rootVar, ':');
    seq(|roots|, k requires 0 <= k < |roots| => PathJoinAll(roots[k], parts))
  }

  /** The first candidate that exists, or the empty string when none does. */
  function FirstExisting(c: seq<string>, pathExists: string -> bool): string
    decreases |c|
  {
    if c == [] then "" else if pathExists(c[0]) then c[0] else FirstExisting(c[1..], pathExists)
  }

  /** `k` is the index of the first existing candidate. */
  predicate IsFirstMatch(c: seq<string>, pathExists: string -> bool, k: int) {
    0 <= k < |c| && pathExists(c[k]) && forall j :: 0 <= j < k ==> !pathExists(c[j])
  }

  /** The search returns the first candidate, in list order, that exists;
      and the empty string exactly when it finds none (or when the first
      existing candidate is itself empty). */
  lemma {:induction false} FirstExistingIsFirstMatch(c: seq<string>, pathExists: string -> bool)
    ensures (exists k :: IsFirstMatch(c, pathExists, k) && FirstExisting(c, pathExists) == c[k])
         || (FirstExisting(c, pathExists) == "" && forall j :: 0 <= j < |c| ==> !pathExists(c[j]))
    decreases |c|
  {
    if c == [] {
    } else if pathExists(c[0]) {
      assert IsFirstMatch(c, pathExists, 0);
    } else {
      FirstExistingIsFirstMatch(c[1..], pathExists);
      if k :| IsFirstMatch(c[1..], pathExists, k) && FirstExisting(c[1..], pathExists) == c[1..][k] {
        forall j | 0 <= j < k + 1 ensures !pathExists(c[j]) {
          if j > 0 { assert c[j] == c[1..][j - 1]; }
        }
        assert IsFirstMatch(c, pathExists, k + 1);
      } else {
        forall j | 0 <= j < |c| ensures !pathExists(c[j]) {
          if j > 0 { assert c[j] == c[1..][j - 1]; }
        }
      }
    }
  }

  /** When a later candidate exists but an earlier one does too, the later
      one is never returned: roots earlier in the list take precedence. */
  lemma {:induction false} EarlierRootWins(c: seq<string>, pathExists: string -> bool, i: nat)
    requires i < |c| && pathExists(c[i])
    ensures exists k :: 0 <= k <= i && FirstExisting(c, pathExists) == c[k] && pathExists(c[k])
    decreases |c|
  {
    if !pathExists(c[0]) {
      assert i > 0;
      assert c[1..][i - 1] == c[i];
      EarlierRootWins(c[1..], pathExists, i - 1);
      var k :| 0 <= k <= i - 1 && FirstExisting(c[1..], pathExists) == c[1..][k] && pathExists(c[1..][k]);
      assert c[1..][k] == c[k + 1];
    }
  }

  /** The loop of the resolvers: try each root in turn and return the first
      joined path that exists; fall through to the empty string. */
  method FindFirst(env: ResourceEnv, parts: seq<string>) returns (resolved: string)
    ensures resolved == FirstExisting(Candidates(env.rootVar, parts), env.pathExists)
  {
    var roots := Split(env.rootVar, ':');
    ghost var c := Candidates(env.rootVar, parts);
    var i := 0;
    while i < |roots|
      invariant 0 <= i <= |roots|
      invariant FirstExisting(c[i..], env.pathExists) == FirstExisting(c, env.pathExists)
    {
      var path := PathJoinAll(roots[i], parts);
      assert c[i..][0] == path;
      if env.pathExists(path) {
        return path;
      }
      assert c[i..][1..] == c[i + 1..];
      i := i + 1;
    }
    return "";
  }
}
