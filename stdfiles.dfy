/**
 * The output sink of src/stdfiles.rs: one capture flag, a capture buffer per
 * stream, and the routing rule of the `print!`, `println!`, `eprint!` and
 * `eprintln!` macros. The thread-local cells become one owned `Sink` object;
 * the real terminal streams become two sequences of "escaped" text, so that
 * every write can be accounted for.
 */
module StdFiles {

  datatype Stream = Stdout | Stderr

  /** Which routing macro is used: its stream and whether it adds a newline. */
  datatype Route = Route(stream: Stream, newline: bool)

  const PrintRoute := Route(Stdout, false)
  const PrintlnRoute := Route(Stdout, true)
  const EPrintRoute := Route(Stderr, false)
  const EPrintlnRoute := Route(Stderr, true)

  /** One invocation of a routing macro with its already formatted text. */
  datatype Write = Write(route: Route, text: string)

  /** What the macro emits: `writeln!` and `println!` add a trailing newline. */
  function Line(w: Write): (r: string)
    ensures w.route.newline ==> r == w.text + "\n"
    ensures !w.route.newline ==> r == w.text
  {
    if w.route.newline then w.text + "\n" else w.text
  }

  /**
   * The abstract state of the sink: the flag, the two capture buffers, and
   * everything that went to the real stdout and stderr.
   */
  datatype SinkState = SinkState(enabled: bool, outBuf: string, errBuf: string,
                                 realOut: string, realErr: string)

  const Initial := SinkState(false, [], [], [], [])

  /**
   * The routing rule of the four macros: when the flag is set, append to the
   * matching capture buffer, otherwise to the matching real stream. Exactly
   * one of the four sequences grows, by exactly the emitted line.
   */
  function Routed(s: SinkState, w: Write): (t: SinkState)
    ensures t.enabled == s.enabled
    ensures t.outBuf == s.outBuf + (if s.enabled && w.route.stream == Stdout then Line(w) else [])
    ensures t.errBuf == s.errBuf + (if s.enabled && w.route.stream == Stderr then Line(w) else [])
    ensures t.realOut == s.realOut + (if !s.enabled && w.route.stream == Stdout then Line(w) else [])
    ensures t.realErr == s.realErr + (if !s.enabled && w.route.stream == Stderr then Line(w) else [])
  {
    var line := Line(w);
    match (s.enabled, w.route.stream)
    case (true, Stdout) => s.(outBuf := s.outBuf + line)
    case (true, Stderr) => s.(errBuf := s.errBuf + line)
    case (false, Stdout) => s.(realOut := s.realOut + line)
    case (false, Stderr) => s.(realErr := s.realErr + line)
  }

  /** The state after a sequence of writes, in order. */
  function Emitted(s: SinkState, ws: seq<Write>): (t: SinkState)
    ensures t.enabled == s.enabled
    decreases |ws|
  {
    if ws == [] then s else Routed(Emitted(s, ws[..|ws| - 1]), ws[|ws| - 1])
  }

  lemma EmittedSnoc(s: SinkState, ws: seq<Write>, w: Write)
    ensures Emitted(s, ws + [w]) == Routed(Emitted(s, ws), w)
  {
    assert (ws + [w])[..|ws|] == ws;
  }

  /** The concatenation, in write order, of the lines written to `st`. */
  function Text(ws: seq<Write>, st: Stream): string
    decreases |ws|
  {
    if ws == [] then []
    else Text(ws[..|ws| - 1], st)
         + (if ws[|ws| - 1].route.stream == st then Line(ws[|ws| - 1]) else [])
  }

  /** `Text` grows by the last write's line, on the last write's stream only. */
  lemma TextSnoc(ws: seq<Write>, w: Write)
    ensures Text(ws + [w], w.route.stream) == Text(ws, w.route.stream) + Line(w)
    ensures forall st :: st != w.route.stream ==> Text(ws + [w], st) == Text(ws, st)
  {
    assert (ws + [w])[..|ws|] == ws;
  }

  /**
   * Nothing is lost and nothing is duplicated while capture is on: each
   * buffer receives exactly the text of its stream, in write order, and
   * nothing reaches the real streams.
   */
  lemma {:induction false} EmittedCaptured(s: SinkState, ws: seq<Write>)
    requires s.enabled
    ensures Emitted(s, ws) == s.(outBuf := s.outBuf + Text(ws, Stdout),
                                 errBuf := s.errBuf + Text(ws, Stderr))
    decreases |ws|
  {
    if ws == [] {
      assert Text(ws, Stdout) == [] && Text(ws, Stderr) == [];
    } else {
      var init := ws[..|ws| - 1];
      var last := ws[|ws| - 1];
      assert ws == init + [last];
      EmittedCaptured(s, init);
      TextSnoc(init, last);
      EmittedSnoc(s, init, last);
      if last.route.stream == Stdout {
        assert (s.outBuf + Text(init, Stdout)) + Line(last) == s.outBuf + (Text(init, Stdout) + Line(last));
      } else {
        assert (s.errBuf + Text(init, Stderr)) + Line(last) == s.errBuf + (Text(init, Stderr) + Line(last));
      }
    }
  }

  /**
   * Nothing is lost and nothing is duplicated while capture is off: each
   * real stream receives exactly the text of its stream, in write order, and
   * no buffer changes, so a later take never sees these writes.
   */
  lemma {:induction false} EmittedEscaped(s: SinkState, ws: seq<Write>)
    requires !s.enabled
    ensures Emitted(s, ws) == s.(realOut := s.realOut + Text(ws, Stdout),
                                 realErr := s.realErr + Text(ws, Stderr))
    decreases |ws|
  {
    if ws == [] {
      assert Text(ws, Stdout) == [] && Text(ws, Stderr) == [];
    } else {
      var init := ws[..|ws| - 1];
      var last := ws[|ws| - 1];
      assert ws == init + [last];
      EmittedEscaped(s, init);
      TextSnoc(init, last);
      EmittedSnoc(s, init, last);
      if last.route.stream == Stdout {
        assert (s.realOut + Text(init, Stdout)) + Line(last) == s.realOut + (Text(init, Stdout) + Line(last));
      } else {
        assert (s.realErr + Text(init, Stderr)) + Line(last) == s.realErr + (Text(init, Stderr) + Line(last));
      }
    }
  }

  /** Writing `a` and then `b` is writing `a + b`. */
  lemma {:induction false} EmittedAppend(s: SinkState, a: seq<Write>, b: seq<Write>)
    ensures Emitted(s, a + b) == Emitted(Emitted(s, a), b)
    decreases |b|
  {
    if b == [] {
      assert a + b == a;
    } else {
      var b' := b[..|b| - 1];
      assert (a + b)[..|a + b| - 1] == a + b';
      assert (a + b)[|a + b| - 1] == b[|b| - 1];
      EmittedAppend(s, a, b');
    }
  }

  /**
   * `Cursor::write_all` on a `Vec`: overwrite from the cursor position,
   * padding with zeros if the position lies past the end, and extend.
   */
  function CursorWrite(data: string, pos: nat, b: string): (r: string)
    ensures |r| == if pos + |b| <= |data| then |data| else pos + |b|
    ensures r[pos..pos + |b|] == b
    ensures pos <= |data| ==> r[..pos] == data[..pos]
    ensures pos > |data| ==> r[..|data|] == data
    ensures pos + |b| < |data| ==> r[pos + |b|..] == data[pos + |b|..]
    ensures pos == |data| ==> r == data + b
    ensures forall k :: |data| <= k < pos ==> r[k] == '\0'
  {
    var padded := if pos <= |data| then data else data + seq(pos - |data|, _ => '\0');
    padded[..pos] + b + (if pos + |b| < |padded| then padded[pos + |b|..] else [])
  }

  /**
   * `StdFile`: a `Cursor<Vec<u8>>` behind a `RefCell`. The cursor only ever
   * moves by writing, so it always sits at the end of the data.
   */
  class StdFile {
    var data: string
    var pos: nat

    ghost predicate Valid()
      reads this
    {
      pos == |data|
    }

    /** `StdFile::new`: an empty buffer with the cursor at 0. */
    constructor ()
      ensures Valid() && data == []
    {
      data := [];
      pos := 0;
    }

    /** `StdFile::write`: a plain append, since the cursor is at the end. */
    method Write(b: string)
      requires Valid()
      modifies this
      ensures Valid() && data == old(data) + b
    {
      data := CursorWrite(data, pos, b);
      pos := pos + |b|;
    }

    /**
     * `StdFile::take`: swap the cursor for a default one and return the whole
     * vector it held.
     */
    method Take() returns (r: string)
      requires Valid()
      modifies this
      ensures r == old(data)
      ensures Valid() && data == []
    {
      r := data;
      data, pos := [], 0;
    }
  }

  /**
   * The `ENABLED`, `STDOUT_FILE` and `STDERR_FILE` thread-locals as one
   * object, together with the real streams that receive un-captured output.
   */
  class Sink {
    var enabled: bool
    const outFile: StdFile
    const errFile: StdFile
    var realOut: string
    var realErr: string
    ghost const Repr: set<object>

    ghost predicate Valid()
      reads this, Repr
    {
      Repr == {this, outFile, errFile} && outFile != errFile &&
      outFile.Valid() && errFile.Valid()
    }

    ghost function State(): SinkState
      reads this, Repr
      requires Valid()
    {
      SinkState(enabled, outFile.data, errFile.data, realOut, realErr)
    }

    /** The thread-locals' initial values: disabled, both buffers empty. */
    constructor ()
      ensures Valid() && fresh(Repr - {this})
      ensures State() == Initial
    {
      enabled := false;
      outFile := new StdFile();
      errFile := new StdFile();
      realOut, realErr := [], [];
      Repr := {this, outFile, errFile};
    }

    /** `is_enabled`: reads the flag and changes nothing. */
    method IsEnabled() returns (e: bool)
      requires Valid()
      ensures e == State().enabled
    {
      e := enabled;
    }

    /** `enable`: sets the flag; no buffer or stream is touched. */
    method Enable()
      requires Valid()
      modifies this
      ensures Valid() && State() == old(State()).(enabled := true)
    {
      enabled := true;
    }

    /** `disable`: clears the flag; no buffer or stream is touched. */
    method Disable()
      requires Valid()
      modifies this
      ensures Valid() && State() == old(State()).(enabled := false)
    {
      enabled := false;
    }

    /** The `print!` macro. */
    method Print(text: string)
      requires Valid()
      modifies this, outFile
      ensures Valid() && State() == Routed(old(State()), Write(PrintRoute, text))
    {
      var on := IsEnabled();
      if on {
        outFile.Write(text);
      } else {
        realOut := realOut + text;
      }
    }

    /** The `println!` macro. */
    method Println(text: string)
      requires Valid()
      modifies this, outFile
      ensures Valid() && State() == Routed(old(State()), Write(PrintlnRoute, text))
    {
      var on := IsEnabled();
      if on {
        outFile.Write(text + "\n");
      } else {
        realOut := realOut + text + "\n";
      }
    }

    /** The `eprint!` macro. */
    method EPrint(text: string)
      requires Valid()
      modifies this, errFile
      ensures Valid() && State() == Routed(old(State()), Write(EPrintRoute, text))
    {
      var on := IsEnabled();
      if on {
        errFile.Write(text);
      } else {
        realErr := realErr + text;
      }
    }

    /** The `eprintln!` macro. */
    method EPrintln(text: string)
      requires Valid()
      modifies this, errFile
      ensures Valid() && State() == Routed(old(State()), Write(EPrintlnRoute, text))
    {
      var on := IsEnabled();
      if on {
        errFile.Write(text + "\n");
      } else {
        realErr := realErr + text + "\n";
      }
    }

    /** Dispatch on the route: the macro a formatted write goes through. */
    method Emit(w: Write)
      requires Valid()
      modifies Repr
      ensures Valid() && State() == Routed(old(State()), w)
    {
      match w.route
      case Route(Stdout, false) => Print(w.text);
      case Route(Stdout, true) => Println(w.text);
      case Route(Stderr, false) => EPrint(w.text);
      case Route(Stderr, true) => EPrintln(w.text);
    }
  }
}
