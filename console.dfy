/** The process's standard input as the keyboard handlers see it: a text
    stream of decoded characters (code points) and the terminal settings of
    its file descriptor, as read and written with `tcgetattr`/`tcsetattr`
    (POSIX.1-2017 Base Definitions, chapter 11, General Terminal Interface).
    Also the rules the handlers apply to it: the key-decoding rule, Python's
    `str.lower()` for the command letters and the raw-mode flag mask. */
module Console {
  import opened Wrappers

  /** A first character after which the handler reads a second one: NUL or
      any code point from 0xA1 up. */
  predicate IsPrefix(c: nat) {
    c == 0 || c >= 0xA1
  }

  /** Reading from an empty stream yields '' and `ord('')` raises. */
  datatype ReadError = EmptyRead

  /** A decoded key and what remains of the stream after it. */
  datatype KeyRead = KeyRead(key: seq<nat>, rest: seq<nat>)

  /** `get_character` on the pending input `stream`. */
  function ReadKey(stream: seq<nat>): (r: Result<KeyRead, ReadError>)
    ensures r.Err? <==> stream == []
    ensures r.Ok? ==> r.value.key + r.value.rest == stream
    ensures r.Ok? ==> |r.value.key| == (if IsPrefix(stream[0]) && |stream| >= 2 then 2 else 1)
  {
    if stream == [] then Err(EmptyRead)
    else if IsPrefix(stream[0]) then
      var n := if |stream| >= 2 then 2 else 1;
      Ok(KeyRead(stream[..n], stream[n..]))
    else Ok(KeyRead(stream[..1], stream[1..]))
  }

  /** The keys obtained by calling `get_character` until nothing is left. */
  function ReadAll(stream: seq<nat>): seq<seq<nat>>
    decreases |stream|
  {
    match ReadKey(stream)
    case Err(_) => []
    case Ok(kr) => [kr.key] + ReadAll(kr.rest)
  }

  function Concat(keys: seq<seq<nat>>): seq<nat>
    decreases |keys|
  {
    if keys == [] then [] else keys[0] + Concat(keys[1..])
  }

  /** A well-formed key: one character, or a prefix character and one more. */
  predicate WellFormedKey(key: seq<nat>) {
    |key| == 1 || (|key| == 2 && IsPrefix(key[0]))
  }

  /** Repeated reads neither skip nor reorder input: the keys, concatenated,
      are exactly the stream, and each key is well formed. */
  lemma {:induction false} ReadAllRoundTrip(stream: seq<nat>)
    ensures Concat(ReadAll(stream)) == stream
    ensures forall k :: 0 <= k < |ReadAll(stream)| ==> WellFormedKey(ReadAll(stream)[k])
    decreases |stream|
  {
    match ReadKey(stream)
    case Err(_) =>
    case Ok(kr) =>
      ReadAllRoundTrip(kr.rest);
      var keys := ReadAll(stream);
      assert keys == [kr.key] + ReadAll(kr.rest);
      assert keys[1..] == ReadAll(kr.rest);
      forall k | 0 <= k < |keys| ensures WellFormedKey(keys[k]) {
        if k > 0 { assert keys[k] == ReadAll(kr.rest)[k - 1]; }
      }
  }

  /** A prefix character is followed by a second one unless it is the last
      character of the stream, where the second read yields ''. */
  lemma PrefixAtEnd(stream: seq<nat>)
    requires |stream| == 1 && IsPrefix(stream[0])
    ensures ReadKey(stream) == Ok(KeyRead(stream, []))
  {
    assert stream[..1] == stream;
  }

  /** Python's `str.lower()` on one code point, for the characters whose
      lower case is an ASCII letter: A-Z and U+212A KELVIN SIGN (lower case
      'k'). Every other code point is left as it is. */
  function LowerChar(c: nat): (l: nat)
    ensures 'a' as nat <= l <= 'z' as nat ==>
      c == l || c == l - 32 || (l == 'k' as nat && c == 0x212A)
  {
    if 'A' as nat <= c <= 'Z' as nat then c + 32
    else if c == 0x212A then 'k' as nat
    else c
  }

  function Lower(key: seq<nat>): (l: seq<nat>)
    ensures |l| == |key|
    ensures forall k :: 0 <= k < |key| ==> l[k] == LowerChar(key[k])
  {
    seq(|key|, k requires 0 <= k < |key| => LowerChar(key[k]))
  }

  /** `key.lower() == letter` for a lower-case ASCII letter. */
  predicate IsCommand(key: seq<nat>, letter: char)
    requires 'a' <= letter <= 'z'
  {
    Lower(key) == [letter as nat]
  }

  /** A command letter is recognised from exactly one character: the
      letter itself, its upper case, or for 'k' also the Kelvin sign. A
      two-character key is never a command. */
  lemma CommandKeys(key: seq<nat>, letter: char)
    requires 'a' <= letter <= 'z'
    ensures IsCommand(key, letter) <==>
      |key| == 1 && (key[0] == letter as nat || key[0] == letter as nat - 32
                     || (letter == 'k' && key[0] == 0x212A))
  {
    if |key| == 1 && (key[0] == letter as nat || key[0] == letter as nat - 32
                      || (letter == 'k' && key[0] == 0x212A)) {
      assert Lower(key)[0] == letter as nat;
    }
  }

  /** How many of `keys` are recognised as the command `letter`. */
  function CountCommand(keys: seq<seq<nat>>, letter: char): nat
    requires 'a' <= letter <= 'z'
    decreases |keys|
  {
    if keys == [] then 0
    else (if IsCommand(keys[0], letter) then 1 else 0) + CountCommand(keys[1..], letter)
  }

  /** Distinct command letters are never recognised from the same key. */
  lemma CommandsExclusive(key: seq<nat>, a: char, b: char)
    requires 'a' <= a <= 'z' && 'a' <= b <= 'z' && a != b
    ensures !(IsCommand(key, a) && IsCommand(key, b))
  {
  }

  /** The local-mode flags the handler clears (Linux values). */
  const ICANON: bv32 := 0x2
  const ECHO: bv32 := 0x8

  /** `lflag & ~ICANON & ~ECHO`: canonical input and echo off, every other
      local-mode flag kept. */
  function RawLflag(lflag: bv32): (raw: bv32)
    ensures raw & (ICANON | ECHO) == 0
    ensures raw | (lflag & (ICANON | ECHO)) == lflag
  {
    lflag & !ICANON & !ECHO
  }

  /** Clearing the flags twice is clearing them once. */
  lemma RawLflagIdempotent(lflag: bv32)
    ensures RawLflag(RawLflag(lflag)) == RawLflag(lflag)
  {
  }

  /** The attribute list returned by `tcgetattr`. */
  datatype Termios = Termios(
    iflag: bv32, oflag: bv32, cflag: bv32, lflag: bv32,
    ispeed: nat, ospeed: nat, cc: seq<nat>)

  /** The handler's new settings: the old ones with only `lflag` changed. */
  function RawMode(t: Termios): (r: Termios)
    ensures r.(lflag := t.lflag) == t
    ensures r.lflag == RawLflag(t.lflag)
  {
    t.(lflag := RawLflag(t.lflag))
  }

  /** `sys.stdin`: whether it is a terminal, the input waiting to be read
      and the settings of its terminal. */
  class StdIn {
    const isTty: bool
    var pending: seq<nat>
    var attrs: Termios

    constructor (tty: bool, input: seq<nat>, settings: Termios)
      ensures isTty == tty && pending == input && attrs == settings
    {
      isTty := tty;
      pending := input;
      attrs := settings;
    }

    /** `read(1)`: one character, or '' at the end of the input. */
    method Read1() returns (s: seq<nat>)
      modifies this
      ensures old(pending) == [] ==> s == [] && pending == []
      ensures old(pending) != [] ==> s == old(pending)[..1] && pending == old(pending)[1..]
      ensures attrs == old(attrs)
    {
      if pending == [] {
        s := [];
      } else {
        s := pending[..1];
        pending := pending[1..];
      }
    }

    /** `tcsetattr(fd, TCSAFLUSH, settings)`: the settings take effect and
        input received but not yet read is discarded. */
    method SetAttrFlush(settings: Termios)
      modifies this
      ensures attrs == settings && pending == []
    {
      attrs := settings;
      pending := [];
    }
  }
}
