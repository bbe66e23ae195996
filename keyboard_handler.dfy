/** The keyboard handlers of the demos: a non-blocking poller over standard
    input that switches the terminal to raw mode, a stub for when standard
    input is not a terminal, and the factory that picks one of them. */
module KeyboardHandler {
  import opened Wrappers
  import opened Console

  /** The interactive handler. */
  class KeyboardStdIn {
    const inputStream: StdIn
    var newTerminal: Termios
    var oldTerminal: Termios

    /** Saves the terminal settings and installs a copy with canonical
        mode and echo turned off. */
    constructor (stdin: StdIn)
      modifies stdin
      ensures inputStream == stdin
      ensures oldTerminal == old(stdin.attrs)
      ensures newTerminal == RawMode(oldTerminal)
      ensures stdin.attrs == newTerminal && stdin.pending == []
    {
      inputStream := stdin;
      var settings := stdin.attrs;
      oldTerminal := stdin.attrs;
      newTerminal := settings.(lflag := settings.lflag & !ICANON & !ECHO);
      new;
      stdin.SetAttrFlush(newTerminal);
    }

    /** The exit hook: writes the saved settings back unchanged. */
    method SetNormalTerm()
      modifies inputStream
      ensures inputStream.attrs == oldTerminal && inputStream.pending == []
    {
      inputStream.SetAttrFlush(oldTerminal);
    }

    /** Reads one character, and a second one after NUL or a code point
        from 0xA1 up; the empty stream is the `ord('')` error. */
    method GetCharacter() returns (r: Result<seq<nat>, ReadError>)
      modifies inputStream
      ensures inputStream.attrs == old(inputStream.attrs)
      ensures ReadKey(old(inputStream.pending))
           == if r.Ok? then Ok(KeyRead(r.value, inputStream.pending)) else Err(EmptyRead)
    {
      var c := inputStream.Read1();
      if c == [] {
        return Err(EmptyRead);
      }
      if c[0] == 0 || c[0] >= 0xA1 {
        var d := inputStream.Read1();
        assert old(inputStream.pending)[..|c + d|] == c + d;
        return Ok(c + d);
      }
      return Ok(c);
    }

    /** Whether input is waiting; nothing is consumed. */
    method KeyHit() returns (hit: bool)
      ensures hit <==> inputStream.pending != []
    {
      hit := inputStream.pending != [];
    }
  }

  /** What `get_keyboard_handler` returns: the interactive handler or the
      stub, whose `key_hit` is always false and whose `get_character`
      returns None. */
  datatype Handler = Interactive(kb: KeyboardStdIn) | Stub

  function Footprint(h: Handler): set<object> {
    if h.Interactive? then {h.kb.inputStream} else {}
  }

  /** The input a handler can still deliver: none for the stub. */
  function Pending(h: Handler): seq<nat>
    reads Footprint(h)
  {
    if h.Interactive? then h.kb.inputStream.pending else []
  }

  /** `handler.key_hit()`. */
  method KeyHit(h: Handler) returns (hit: bool)
    ensures hit <==> Pending(h) != []
    ensures h.Stub? ==> !hit
  {
    if h.Interactive? {
      hit := h.kb.KeyHit();
    } else {
      hit := false;
    }
  }

  /** `handler.get_character()`: a key from the interactive handler, None
      from the stub. */
  method GetCharacter(h: Handler) returns (r: Result<Option<seq<nat>>, ReadError>)
    modifies Footprint(h)
    ensures h.Stub? ==> r == Ok(None)
    ensures h.Interactive? ==>
      h.kb.inputStream.attrs == old(h.kb.inputStream.attrs)
      && ReadKey(old(Pending(h)))
         == if r.Ok? && r.value.Some? then Ok(KeyRead(r.value.value, Pending(h))) else Err(EmptyRead)
    ensures r.Ok? && h.Interactive? ==> r.value.Some?
  {
    if h.Interactive? {
      var c := h.kb.GetCharacter();
      match c
      case Ok(key) => r := Ok(Some(key));
      case Err(e) => r := Err(e);
    } else {
      r := Ok(None);
    }
  }

  /** The interactive handler when standard input is a terminal, otherwise
      the stub, which leaves the terminal alone. */
  method GetKeyboardHandler(stdin: StdIn) returns (h: Handler)
    modifies stdin
    ensures h.Interactive? <==> stdin.isTty
    ensures h.Interactive? ==>
      fresh(h.kb) && h.kb.inputStream == stdin && h.kb.oldTerminal == old(stdin.attrs)
      && stdin.attrs == RawMode(old(stdin.attrs)) && stdin.pending == []
    ensures h.Stub? ==> stdin.attrs == old(stdin.attrs) && stdin.pending == old(stdin.pending)
  {
    if stdin.isTty {
      var kb := new KeyboardStdIn(stdin);
      h := Interactive(kb);
    } else {
      h := Stub;
    }
  }
}
