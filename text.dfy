/** The few Python string built-ins the demos rely on: `str()` of a
    non-negative integer, `str.split` on one separator character and
    `os.path.join` / `os.path.isabs` with POSIX semantics. */
module Text {

  /** The decimal digit character of `d`. */
  function Digit(d: nat): (c: char)
    requires d < 10
    ensures '0' <= c <= '9'
  {
    ['0', '1', '2', '3', '4', '5', '6', '7', '8', '9'][d]
  }

  /** `str(n)` for a non-negative integer `n`: its decimal digits, no sign,
      no leading zero. */
  function NatToDecimal(n: nat): (s: string)
    ensures |s| >= 1
    ensures forall k :: 0 <= k < |s| ==> '0' <= s[k] <= '9'
    ensures n < 10 <==> |s| == 1
    decreases n
  {
    if n < 10 then [Digit(n)] else NatToDecimal(n / 10) + [Digit(n % 10)]
  }

  lemma DigitInjective(a: nat, b: nat)
    requires a < 10 && b < 10 && Digit(a) == Digit(b)
    ensures a == b
  {
  }

  /** Distinct integers have distinct decimal renderings, so names built
      from a counter never collide. */
  lemma {:induction false} NatToDecimalInjective(n: nat, m: nat)
    requires NatToDecimal(n) == NatToDecimal(m)
    ensures n == m
    decreases n
  {
    var s := NatToDecimal(n);
    if n < 10 {
      assert m < 10;
      DigitInjective(n, m);
    } else {
      assert m >= 10;
      var p, q := NatToDecimal(n / 10), NatToDecimal(m / 10);
      assert s == p + [Digit(n % 10)] == q + [Digit(m % 10)];
      assert |p| == |q|;
      assert p == s[..|s| - 1] == q;
      DigitInjective(n % 10, m % 10);
      NatToDecimalInjective(n / 10, m / 10);
    }
  }

  /** `prefix + str(i)` and `prefix + str(j)` differ when `i` and `j` do. */
  lemma PrefixedNamesDistinct(prefix: string, i: nat, j: nat)
    requires i != j
    ensures prefix + NatToDecimal(i) != prefix + NatToDecimal(j)
  {
    if prefix + NatToDecimal(i) == prefix + NatToDecimal(j) {
      assert NatToDecimal(i) == (prefix + NatToDecimal(i))[|prefix|..];
      assert NatToDecimal(j) == (prefix + NatToDecimal(j))[|prefix|..];
      NatToDecimalInjective(i, j);
    }
  }

  /** `s.split(sep)`: the pieces between occurrences of `sep`; there is
      always at least one piece, the empty string splitting into `[""]`. */
  function Split(s: string, sep: char): (pieces: seq<string>)
    ensures |pieces| >= 1
    decreases |s|
  {
    if s == [] then [""]
    else if s[0] == sep then [""] + Split(s[1..], sep)
    else
      var rest := Split(s[1..], sep);
      [[s[0]] + rest[0]] + rest[1..]
  }

  /** `sep.join(pieces)`. */
  function JoinWith(pieces: seq<string>, sep: char): string
    requires |pieces| >= 1
    decreases |pieces|
  {
    if |pieces| == 1 then pieces[0] else pieces[0] + [sep] + JoinWith(pieces[1..], sep)
  }

  /** Splitting loses nothing: joining the pieces back with the separator
      gives the original string, and no piece contains the separator. */
  lemma {:induction false} SplitJoinRoundTrip(s: string, sep: char)
    ensures JoinWith(Split(s, sep), sep) == s
    ensures forall k :: 0 <= k < |Split(s, sep)| ==> sep !in Split(s, sep)[k]
    decreases |s|
  {
    if s == [] {
    } else if s[0] == sep {
      SplitJoinRoundTrip(s[1..], sep);
      var rest := Split(s[1..], sep);
      assert Split(s, sep) == [""] + rest;
      assert Split(s, sep)[1..] == rest;
      assert JoinWith(Split(s, sep), sep) == "" + [sep] + JoinWith(rest, sep);
      assert [s[0]] + s[1..] == s;
    } else {
      SplitJoinRoundTrip(s[1..], sep);
      var rest := Split(s[1..], sep);
      var pieces := Split(s, sep);
      assert pieces == [[s[0]] + rest[0]] + rest[1..];
      if |rest| == 1 {
        assert JoinWith(pieces, sep) == [s[0]] + rest[0];
        assert JoinWith(rest, sep) == rest[0];
      } else {
        assert pieces[1..] == rest[1..];
        assert JoinWith(rest, sep) == rest[0] + [sep] + JoinWith(rest[1..], sep);
        assert JoinWith(pieces, sep) == [s[0]] + rest[0] + [sep] + JoinWith(rest[1..], sep);
      }
      assert [s[0]] + s[1..] == s;
      forall k | 0 <= k < |pieces| ensures sep !in pieces[k] {
        if k == 0 {
          assert sep !in rest[0];
        } else {
          assert pieces[k] == rest[k];
        }
      }
    }
  }

  /** `os.path.isabs` on POSIX: the path starts with a slash. */
  predicate IsAbsolute(path: string) {
    |path| > 0 && path[0] == '/'
  }

  /** `os.path.join(a, b)` on POSIX: an absolute `b` replaces `a`; otherwise
      a slash is inserted unless `a` is empty or already ends with one. */
  function PathJoin(a: string, b: string): (p: string)
    ensures IsAbsolute(b) ==> p == b
    ensures !IsAbsolute(b) ==> |p| >= |a| + |b| && p[..|a|] == a && p[|p| - |b|..] == b
  {
    if IsAbsolute(b) then b
    else if a == [] || a[|a| - 1] == '/' then a + b
    else a + "/" + b
  }

  /** `os.path.join(parts[0], parts[1], ...)`, folding from the left. */
  function PathJoinAll(first: string, rest: seq<string>): string
    decreases |rest|
  {
    if rest == [] then first else PathJoinAll(PathJoin(first, rest[0]), rest[1..])
  }
}
