/**
 * The script host and capture facade of src/script.rs. The embedded engine is
 * abstract: compiling maps source text to a program, and evaluating the top
 * level or calling a function maps a scope to a new scope, the output events
 * the script produced, and an optional runtime error. Around it the model
 * keeps what the host does: one top-level evaluation at load time, calls that
 * reuse the persistent scope, the print and debug hooks, and the capture window.
 */
module Script {
  import opened Wrappers
  import opened StdFiles
  import opened Painter

  /** The engine's runtime error (`Box<EvalAltResult>`), kept opaque. */
  datatype EvalError = EvalError(message: string)
  /** The engine's compile error (`ParseError`), kept opaque. */
  datatype ParseError = ParseError(message: string)
  /** A failure to read the script file (`io::Error`), kept opaque. */
  datatype IoError = IoError(message: string)

  /** `Error`: a tagged union of the three failure kinds. */
  datatype Error = Rhai(eval: EvalError) | Parse(parse: ParseError) | Io(io: IoError)

  /** A script value as `print_arr` sees it: a string, or some other type by name. */
  datatype Dynamic = Str(s: string) | Other(typeName: string)

  /** Output the script produces while the engine runs. */
  datatype Event =
    | PrintHook(text: string)                                   // a script `print`, through `on_print`
    | DebugHook(text: string, source: Option<string>, pos: string) // a script `debug`, through `on_debug`
    | HostWrite(route: Route, text: string)                     // a host function using a routing macro
    | HostPaint(route: Route, style: Style, text: string)       // a host function using a painting macro

  /** What one engine run leaves behind: its scope, its output and its error. */
  datatype Outcome<S> = Outcome(scope: S, events: seq<Event>, error: Option<EvalError>)

  /**
   * The embedded engine's primitives: an empty scope, compilation against a
   * scope, evaluation of the top-level statements, and a call of one named
   * function against a scope without evaluating the top level and without
   * rewinding the scope afterwards.
   */
  datatype Engine<!S, !A> = Engine(
    emptyScope: S,
    compile: (S, string) -> Result<A, ParseError>,
    evalAst: (S, A) -> Outcome<S>,
    call: (S, A, string, seq<string>) -> Outcome<S>)

  /** `Output`: what a captured call returns. */
  datatype Output = Output(error: Option<Error>, stdout: string, stderr: string)

  /** The `?` conversion after `call_fn_with_options`: a runtime failure becomes `Rhai`. */
  function CallResult<S>(o: Outcome<S>): (r: Result<(), Error>)
    ensures r.Failure? <==> o.error.Some?
    ensures r.Failure? ==> r.error == Rhai(o.error.value)
  {
    match o.error
    case None => Success(())
    case Some(e) => Failure(Rhai(e))
  }

  // ---------------------------------------------------------------------
  // Text helpers: the debug line, print_bool, print_arr and prompt's test.

  /**
   * The text the debug hook paints: the source name or "unkown" (spelled as
   * the source spells it), " @ ", the position, " > ", the debug text.
   */
  function DebugLine(text: string, source: Option<string>, pos: string): (r: string)
    ensures |r| == |source.UnwrapOr("unkown")| + |pos| + |text| + 6
    ensures source.None? ==> r[..6] == "unkown"
    ensures source.Some? ==> r[..|source.value|] == source.value
    ensures var n := |source.UnwrapOr("unkown")|;
      r[n..n + 3] == " @ " && r[n + 3..n + 3 + |pos|] == pos &&
      r[n + 3 + |pos|..n + 6 + |pos|] == " > "
    ensures r[|r| - |text|..] == text
  {
    source.UnwrapOr("unkown") + " @ " + pos + " > " + text
  }

  /** `print_bool`. */
  function PrintBool(b: bool): (r: string)
    ensures (r == "true") == b
    ensures (r == "false") == !b
  {
    if b then "true" else "false"
  }

  /** How `print_arr` renders one element. */
  function Render(d: Dynamic): (r: string)
    ensures d.Str? ==> r == d.s
    ensures d.Other? ==> |r| == 7 + |d.typeName| && r[..7] == "error: " && r[7..] == d.typeName
  {
    match d
    case Str(s) => s
    case Other(t) => "error: " + t
  }

  function Rendered(arr: seq<Dynamic>): (r: seq<string>)
    ensures |r| == |arr|
    ensures forall i :: 0 <= i < |arr| ==> r[i] == Render(arr[i])
  {
    seq(|arr|, i requires 0 <= i < |arr| => Render(arr[i]))
  }

  /** The lines of `xs` joined by "\n", with no leading or trailing separator. */
  function JoinLines(xs: seq<string>): string
    decreases |xs|
  {
    if xs == [] then ""
    else if |xs| == 1 then xs[0]
    else xs[0] + "\n" + JoinLines(xs[1..])
  }

  /**
   * A joined array starts with its first line, followed by a separator when
   * more lines come, and ends with its last line.
   */
  lemma {:induction false} JoinLinesEnds(xs: seq<string>)
    requires xs != []
    ensures |JoinLines(xs)| >= |xs[0]| && JoinLines(xs)[..|xs[0]|] == xs[0]
    ensures |xs| > 1 ==> |JoinLines(xs)| > |xs[0]| && JoinLines(xs)[|xs[0]|] == '\n'
    ensures var last := xs[|xs| - 1];
      |JoinLines(xs)| >= |last| && JoinLines(xs)[|JoinLines(xs)| - |last|..] == last
    decreases |xs|
  {
    if |xs| > 1 {
      JoinLinesEnds(xs[1..]);
      var j := JoinLines(xs[1..]);
      assert JoinLines(xs) == xs[0] + "\n" + j;
      assert xs[|xs| - 1] == xs[1..][|xs[1..]| - 1];
      assert JoinLines(xs)[|JoinLines(xs)| - |xs[|xs| - 1]|..] == j[|j| - |xs[|xs| - 1]|..];
    }
  }

  lemma {:induction false} JoinLinesSnoc(xs: seq<string>, x: string)
    requires xs != []
    ensures JoinLines(xs + [x]) == JoinLines(xs) + "\n" + x
    decreases |xs|
  {
    if |xs| > 1 {
      assert (xs + [x])[1..] == xs[1..] + [x];
      JoinLinesSnoc(xs[1..], x);
    }
  }

  /** The position of the first "\n" in `s`, or `|s|` if there is none. */
  function FirstNewline(s: string): (i: nat)
    ensures i <= |s|
    ensures forall k :: 0 <= k < i ==> s[k] != '\n'
    ensures i < |s| ==> s[i] == '\n'
    decreases |s|
  {
    if s == [] then 0
    else if s[0] == '\n' then 0
    else 1 + FirstNewline(s[1..])
  }

  /** `s` cut at every "\n": the inverse of `JoinLines` on lines without newlines. */
  function SplitLines(s: string): (r: seq<string>)
    ensures r != []
    decreases |s|
  {
    var i := FirstNewline(s);
    if i == |s| then [s] else [s[..i]] + SplitLines(s[i + 1..])
  }

  predicate NoNewlines(xs: seq<string>) {
    forall x :: x in xs ==> '\n' !in x
  }

  /** Splitting the joined lines gives the lines back. */
  lemma {:induction false} SplitJoinLines(xs: seq<string>)
    requires xs != [] && NoNewlines(xs)
    ensures SplitLines(JoinLines(xs)) == xs
    decreases |xs|
  {
    var x := xs[0];
    assert x in xs;
    if |xs| == 1 {
      assert FirstNewline(x) == |x|;
    } else {
      var rest := xs[1..];
      var j := JoinLines(xs);
      assert j == x + "\n" + JoinLines(rest);
      assert j[|x|] == '\n';
      assert forall k :: 0 <= k < |x| ==> j[k] == x[k];
      assert FirstNewline(j) == |x|;
      assert j[..|x|] == x;
      assert j[|x| + 1..] == JoinLines(rest);
      assert NoNewlines(rest) by {
        forall y | y in rest ensures '\n' !in y {
          assert y in xs;
        }
      }
      SplitJoinLines(rest);
    }
  }

  /**
   * `print_arr`: the rendered elements joined by "\n"; an empty array gives
   * the empty string. Built with the source's loop.
   */
  method PrintArr(arr: seq<Dynamic>) returns (s: string)
    ensures s == JoinLines(Rendered(arr))
    ensures arr == [] ==> s == ""
  {
    s := "";
    for i := 0 to |arr|
      invariant s == JoinLines(Rendered(arr[..i]))
    {
      assert Rendered(arr[..i + 1]) == Rendered(arr[..i]) + [Render(arr[i])];
      if i != 0 {
        JoinLinesSnoc(Rendered(arr[..i]), Render(arr[i]));
        s := s + "\n";
      }
      ghost var prev := s;
      match arr[i]
      case Str(t) =>
        s := s + t;
      case Other(ty) =>
        s := s + "error: ";
        s := s + ty;
        assert s == prev + ("error: " + ty);
    }
    assert arr[..|arr|] == arr;
  }

  /** Split the output of `print_arr` at "\n" and the rendered elements come back. */
  lemma PrintArrLines(arr: seq<Dynamic>)
    requires arr != [] && NoNewlines(Rendered(arr))
    ensures SplitLines(JoinLines(Rendered(arr))) == Rendered(arr)
  {
    SplitJoinLines(Rendered(arr));
  }

  /** `char::is_whitespace`: the Unicode White_Space property. */
  predicate IsWhitespace(c: char) {
    c == ' ' || ('\t' <= c <= '\r') || c == '\U{85}' || c == '\U{A0}' || c == '\U{1680}'
    || ('\U{2000}' <= c <= '\U{200A}') || c == '\U{2028}' || c == '\U{2029}'
    || c == '\U{202F}' || c == '\U{205F}' || c == '\U{3000}'
  }

  /** The ASCII blanks are whitespace; digits and Latin letters are not. */
  lemma WhitespaceAscii(c: char)
    ensures c == ' ' || c == '\t' || c == '\n' || c == '\r' ==> IsWhitespace(c)
    ensures ('0' <= c <= '9') || ('a' <= c <= 'z') || ('A' <= c <= 'Z') ==> !IsWhitespace(c)
  {
  }

  predicate AllWhitespace(s: string) {
    forall i :: 0 <= i < |s| ==> IsWhitespace(s[i])
  }

  /** The length of the whitespace run at the start of `s`. */
  function LeadingWhitespace(s: string): (n: nat)
    ensures n <= |s| && AllWhitespace(s[..n])
    ensures n < |s| ==> !IsWhitespace(s[n])
    decreases |s|
  {
    if s != [] && IsWhitespace(s[0]) then 1 + LeadingWhitespace(s[1..]) else 0
  }

  /**
   * A whitespace run of length `k` at the end of `s` without its last
   * character, then a whitespace last character, is a run of `k + 1`.
   */
  lemma TrailingSnoc(s: string, k: nat)
    requires k < |s| && IsWhitespace(s[|s| - 1])
    requires AllWhitespace(s[..|s| - 1][|s| - 1 - k..])
    requires k < |s| - 1 ==> !IsWhitespace(s[..|s| - 1][|s| - 1 - k - 1])
    ensures AllWhitespace(s[|s| - (k + 1)..])
    ensures k + 1 < |s| ==> !IsWhitespace(s[|s| - (k + 1) - 1])
  {
    var u := s[..|s| - 1];
    assert s[|s| - (k + 1)..] == u[|u| - k..] + [s[|s| - 1]];
  }

  /** The length of the whitespace run at the end of `s`. */
  function TrailingWhitespace(s: string): (n: nat)
    ensures n <= |s| && AllWhitespace(s[|s| - n..])
    ensures n < |s| ==> !IsWhitespace(s[|s| - n - 1])
    decreases |s|
  {
    if s != [] && IsWhitespace(s[|s| - 1]) then
      var k := TrailingWhitespace(s[..|s| - 1]);
      TrailingSnoc(s, k);
      1 + k
    else 0
  }

  /** Cutting `s` at `n` and again `k` further on gives three pieces that add up to `s`. */
  lemma SliceThree(s: string, n: nat, k: nat)
    requires n + k <= |s|
    ensures s == s[..n] + s[n..][..k] + s[n + k..]
    ensures s[n..][k..] == s[n + k..]
  {
  }

  /** `str::trim`: `s` without its leading and trailing whitespace. */
  function Trim(s: string): (r: string)
    ensures LeadingWhitespace(s) + |r| <= |s|
    ensures s == s[..LeadingWhitespace(s)] + r + s[LeadingWhitespace(s) + |r|..]
    ensures AllWhitespace(s[..LeadingWhitespace(s)])
    ensures AllWhitespace(s[LeadingWhitespace(s) + |r|..])
    ensures r != [] ==> !IsWhitespace(r[0]) && !IsWhitespace(r[|r| - 1])
  {
    var n := LeadingWhitespace(s);
    var t := s[n..];
    var m := TrailingWhitespace(t);
    SliceThree(s, n, |t| - m);
    t[..|t| - m]
  }

  /** The decision rule of `prompt`: the trimmed line is "y" or "Y". */
  predicate IsYes(line: string): (b: bool)
    ensures b <==> |Trim(line)| == 1 && IsYesChar(Trim(line)[0])
  {
    var s := Trim(line);
    s == "y" || s == "Y"
  }

  /** A whitespace run followed by a non-whitespace character is the leading run. */
  lemma {:induction false} LeadingWhitespaceAt(s: string, i: nat)
    requires i < |s| && AllWhitespace(s[..i]) && !IsWhitespace(s[i])
    ensures LeadingWhitespace(s) == i
    decreases i
  {
    if i > 0 {
      assert s[..i][0] == s[0];
      assert s[1..][..i - 1] == s[1..i];
      assert forall k :: 0 <= k < i - 1 ==> s[1..i][k] == s[..i][k + 1];
      LeadingWhitespaceAt(s[1..], i - 1);
    }
  }

  /** A whitespace run preceded by a non-whitespace character is the trailing run. */
  lemma {:induction false} TrailingWhitespaceAt(s: string, m: nat)
    requires m < |s| && AllWhitespace(s[|s| - m..]) && !IsWhitespace(s[|s| - m - 1])
    ensures TrailingWhitespace(s) == m
    decreases m
  {
    if m > 0 {
      var u := s[..|s| - 1];
      assert s[|s| - m..][m - 1] == s[|s| - 1];
      var w := s[|s| - m..];
      assert u[|u| - (m - 1)..] == s[|s| - m..|s| - 1] == w[..m - 1];
      assert u[|u| - (m - 1) - 1] == s[|s| - m - 1];
      TrailingWhitespaceAt(u, m - 1);
    }
  }

  predicate IsYesChar(c: char) {
    c == 'y' || c == 'Y'
  }

  /** A yes line has its 'y' right after the leading whitespace. */
  lemma YesAtTrimStart(line: string)
    requires IsYes(line)
    ensures var n := LeadingWhitespace(line);
      n < |line| && IsYesChar(line[n]) &&
      AllWhitespace(line[..n]) && AllWhitespace(line[n + 1..])
  {
    var n := LeadingWhitespace(line);
    var r := Trim(line);
    assert line[n] == r[0];
  }

  /** One 'y' or 'Y' surrounded by whitespace is a yes line. */
  lemma YesSurrounded(line: string, i: nat)
    requires i < |line| && IsYesChar(line[i])
    requires AllWhitespace(line[..i]) && AllWhitespace(line[i + 1..])
    ensures IsYes(line)
  {
    LeadingWhitespaceAt(line, i);
    var t := line[i..];
    assert t[|t| - (|t| - 1)..] == line[i + 1..];
    TrailingWhitespaceAt(t, |t| - 1);
    assert Trim(line) == [line[i]];
  }

  /**
   * A line is a yes exactly when it is one 'y' or 'Y' surrounded by nothing
   * but whitespace.
   */
  lemma IsYesIff(line: string)
    ensures IsYes(line) <==>
      exists i :: 0 <= i < |line| && IsYesChar(line[i]) &&
                  AllWhitespace(line[..i]) && AllWhitespace(line[i + 1..])
  {
    if IsYes(line) {
      YesAtTrimStart(line);
    }
    if exists i :: 0 <= i < |line| && IsYesChar(line[i]) &&
                   AllWhitespace(line[..i]) && AllWhitespace(line[i + 1..]) {
      var i :| 0 <= i < |line| && IsYesChar(line[i]) &&
               AllWhitespace(line[..i]) && AllWhitespace(line[i + 1..]);
      YesSurrounded(line, i);
    }
  }

  // ---------------------------------------------------------------------
  // The hooks of `new_engine` and the replay of a run's output.

  /**
   * The write an event turns into, given the flag at the time: `on_print` is
   * `println!`, `on_debug` is `paint_dbg!` of the debug line, and host
   * functions use their own macro.
   */
  function EventWrite(enabled: bool, palette: Palette, ev: Event): (w: Write)
    ensures ev.PrintHook? ==> w == Write(PrintlnRoute, ev.text)
    ensures ev.DebugHook? ==> w.route == EPrintlnRoute
    ensures ev.DebugHook? && enabled ==> w.text == DebugLine(ev.text, ev.source, ev.pos)
    ensures ev.DebugHook? && !enabled ==>
      w.text == palette.dimmedWhite.prefix + DebugLine(ev.text, ev.source, ev.pos) + palette.dimmedWhite.suffix
    ensures ev.HostWrite? ==> w == Write(ev.route, ev.text)
    ensures ev.HostPaint? ==> w.route == ev.route
    ensures ev.HostPaint? && enabled ==> w.text == ev.text
    ensures ev.HostPaint? && !enabled ==> w.text == ev.style.prefix + ev.text + ev.style.suffix
  {
    match ev
    case PrintHook(t) => Write(PrintlnRoute, t)
    case DebugHook(t, src, pos) => PaintWrite(enabled, EPrintlnRoute, palette.dimmedWhite, DebugLine(t, src, pos))
    case HostWrite(r, t) => Write(r, t)
    case HostPaint(r, st, t) => PaintWrite(enabled, r, st, t)
  }

  function Writes(enabled: bool, palette: Palette, evs: seq<Event>): (ws: seq<Write>)
    ensures |ws| == |evs|
    decreases |evs|
  {
    if evs == [] then []
    else Writes(enabled, palette, evs[..|evs| - 1]) + [EventWrite(enabled, palette, evs[|evs| - 1])]
  }

  lemma WritesSnoc(enabled: bool, palette: Palette, evs: seq<Event>, i: nat)
    requires i < |evs|
    ensures Writes(enabled, palette, evs[..i + 1]) ==
            Writes(enabled, palette, evs[..i]) + [EventWrite(enabled, palette, evs[i])]
  {
    assert evs[..i + 1][..i] == evs[..i];
  }

  /** An event with any style it carries replaced by the empty style. */
  function Unstyled(ev: Event): Event {
    match ev
    case HostPaint(r, _, t) => HostPaint(r, Style([], []), t)
    case _ => ev
  }

  function UnstyledAll(evs: seq<Event>): (r: seq<Event>)
    ensures |r| == |evs|
    decreases |evs|
  {
    if evs == [] then [] else UnstyledAll(evs[..|evs| - 1]) + [Unstyled(evs[|evs| - 1])]
  }

  /**
   * Captured output does not depend on the styles: with capture enabled the
   * text of each stream is the same as for the same events with every
   * painted style emptied, under any other palette.
   */
  lemma {:induction false} CapturedTextIgnoresStyles(p: Palette, q: Palette, evs: seq<Event>, st: Stream)
    ensures Text(Writes(true, p, evs), st) == Text(Writes(true, q, UnstyledAll(evs)), st)
    decreases |evs|
  {
    if evs != [] {
      var init := evs[..|evs| - 1];
      var plain := UnstyledAll(evs);
      assert plain[..|plain| - 1] == UnstyledAll(init);
      var wp := Writes(true, p, evs);
      var wq := Writes(true, q, plain);
      assert wp[..|wp| - 1] == Writes(true, p, init);
      assert wq[..|wq| - 1] == Writes(true, q, UnstyledAll(init));
      assert Line(wp[|wp| - 1]) == Line(wq[|wq| - 1]);
      CapturedTextIgnoresStyles(p, q, init, st);
    }
  }

  /** Perform one event through the hook the engine is configured with. */
  method Handle(sink: Sink, palette: Palette, ev: Event)
    requires sink.Valid()
    modifies sink.Repr
    ensures sink.Valid()
    ensures sink.State() == Routed(old(sink.State()), EventWrite(old(sink.State().enabled), palette, ev))
  {
    match ev
    case PrintHook(t) =>
      sink.Println(t);
    case DebugHook(t, src, pos) =>
      PaintDbg(sink, palette, DebugLine(t, src, pos));
    case HostWrite(r, t) =>
      sink.Emit(Write(r, t));
    case HostPaint(r, st, t) =>
      match r
      case Route(Stdout, false) => Paint(sink, st, t);
      case Route(Stdout, true) => Paintln(sink, st, t);
      case Route(Stderr, false) => EPaint(sink, st, t);
      case Route(Stderr, true) => EPaintln(sink, st, t);
  }

  /** Perform a run's events in order. */
  method Replay(sink: Sink, palette: Palette, evs: seq<Event>)
    requires sink.Valid()
    modifies sink.Repr
    ensures sink.Valid()
    ensures sink.State() == Emitted(old(sink.State()), Writes(old(sink.State().enabled), palette, evs))
  {
    ghost var s0 := sink.State();
    for i := 0 to |evs|
      invariant sink.Valid()
      invariant sink.State() == Emitted(s0, Writes(s0.enabled, palette, evs[..i]))
    {
      ghost var done := Writes(s0.enabled, palette, evs[..i]);
      WritesSnoc(s0.enabled, palette, evs, i);
      EmittedSnoc(s0, done, EventWrite(s0.enabled, palette, evs[i]));
      Handle(sink, palette, evs[i]);
    }
    assert evs[..|evs|] == evs;
  }

  /** The output a prompt shows: the yellow message, then the hint line. */
  function PromptWrites(enabled: bool, palette: Palette, message: string): seq<Write> {
    [PaintWrite(enabled, EPrintlnRoute, palette.yellow, message), Write(PrintlnRoute, "y/n")]
  }

  /**
   * `prompt`: shows the message and the hint, then decides on the line read
   * from the real standard input, which is given here as `input`.
   */
  method Prompt(sink: Sink, palette: Palette, message: string, input: string) returns (yes: bool)
    requires sink.Valid()
    modifies sink.Repr
    ensures sink.Valid()
    ensures yes == IsYes(input)
    ensures sink.State() == Emitted(old(sink.State()), PromptWrites(old(sink.State().enabled), palette, message))
  {
    ghost var s0 := sink.State();
    ghost var ws := PromptWrites(s0.enabled, palette, message);
    PaintAct(sink, palette, message);
    sink.Println("y/n");
    EmittedSnoc(s0, [], ws[0]);
    EmittedSnoc(s0, [ws[0]], ws[1]);
    assert [] + [ws[0]] == [ws[0]] && [ws[0]] + [ws[1]] == ws;
    var s := Trim(input);
    yes := s == "y" || s == "Y";
  }

  // ---------------------------------------------------------------------
  // Loading a script.

  /** What loading leaves behind: the top level's output and the host's parts or the error. */
  datatype Loaded<S, A> = Loaded(events: seq<Event>, result: Result<(S, A), Error>)

  /**
   * `Script::new`: read, compile against an empty scope, evaluate the top
   * level once. Each failure maps to its own error kind.
   */
  function Load<S, A>(engine: Engine<S, A>, read: Result<string, IoError>): (l: Loaded<S, A>)
    ensures l.result.Failure? && l.result.error.Io? <==> read.Failure?
    ensures read.Failure? ==> l.result.error == Io(read.error) && l.events == []
    ensures l.result.Failure? && l.result.error.Parse? <==>
      read.Success? && engine.compile(engine.emptyScope, read.value).Failure?
    ensures l.result.Failure? && l.result.error.Parse? ==>
      l.result.error.parse == engine.compile(engine.emptyScope, read.value).error && l.events == []
    ensures l.result.Failure? && l.result.error.Rhai? <==>
      read.Success? && engine.compile(engine.emptyScope, read.value).Success? &&
      engine.evalAst(engine.emptyScope, engine.compile(engine.emptyScope, read.value).value).error.Some?
    ensures read.Success? && engine.compile(engine.emptyScope, read.value).Success? ==>
      var ast := engine.compile(engine.emptyScope, read.value).value;
      var top := engine.evalAst(engine.emptyScope, ast);
      l.events == top.events &&
      (l.result.Success? ==> l.result.value == (top.scope, ast)) &&
      (l.result.Failure? ==> l.result.error == Rhai(top.error.value))
  {
    match read
    case Failure(e) => Loaded([], Failure(Io(e)))
    case Success(ctn) =>
      match engine.compile(engine.emptyScope, ctn)
      case Failure(p) => Loaded([], Failure(Parse(p)))
      case Success(ast) =>
        var top := engine.evalAst(engine.emptyScope, ast);
        match top.error
        case Some(e) => Loaded(top.events, Failure(Rhai(e)))
        case None => Loaded(top.events, Success((top.scope, ast)))
  }

  // ---------------------------------------------------------------------
  // The host.

  /** `Script`: the engine, the persistent scope and the compiled program. */
  class Script<S, A> {
    const engine: Engine<S, A>
    const palette: Palette
    const ast: A
    var scope: S

    constructor (engine: Engine<S, A>, palette: Palette, scope: S, ast: A)
      ensures this.engine == engine && this.palette == palette
      ensures this.scope == scope && this.ast == ast
    {
      this.engine := engine;
      this.palette := palette;
      this.ast := ast;
      this.scope := scope;
    }

    /**
     * `Script::new`, with the file's contents (or the read error) given. The
     * top level's output goes through the sink as it stands.
     */
    static method New(engine: Engine<S, A>, palette: Palette, read: Result<string, IoError>, sink: Sink)
      returns (r: Result<Script<S, A>, Error>)
      requires sink.Valid()
      modifies sink.Repr
      ensures sink.Valid()
      ensures sink.State() == Emitted(old(sink.State()), Writes(old(sink.State().enabled), palette, Load(engine, read).events))
      ensures r.Failure? <==> Load(engine, read).result.Failure?
      ensures r.Failure? ==> r.error == Load(engine, read).result.error
      ensures r.Success? ==> fresh(r.value)
      ensures r.Success? ==> r.value.engine == engine && r.value.palette == palette
      ensures r.Success? ==> (r.value.scope, r.value.ast) == Load(engine, read).result.value
    {
      var scope := engine.emptyScope;
      if read.Failure? {
        return Failure(Io(read.error));
      }
      var compiled := engine.compile(scope, read.value);
      if compiled.Failure? {
        return Failure(Parse(compiled.error));
      }
      var top := engine.evalAst(scope, compiled.value);
      Replay(sink, palette, top.events);
      if top.error.Some? {
        return Failure(Rhai(top.error.value));
      }
      var script := new Script(engine, palette, top.scope, compiled.value);
      return Success(script);
    }

    /** What calling `name` with `args` against the current scope does. */
    ghost function Invoked(name: string, args: seq<string>): Outcome<S>
      reads this
    {
      engine.call(scope, ast, name, args)
    }

    /**
     * `call_fn`: call the function against the persistent scope. The top
     * level is not run again, and the scope the call leaves, also after a
     * failure, is the scope of the next call.
     */
    method CallFn(sink: Sink, name: string, args: seq<string>) returns (r: Result<(), Error>)
      requires sink.Valid()
      modifies this, sink.Repr
      ensures sink.Valid()
      ensures scope == old(Invoked(name, args)).scope
      ensures r == CallResult(old(Invoked(name, args)))
      ensures sink.State() == Emitted(old(sink.State()), Writes(old(sink.State().enabled), palette, old(Invoked(name, args)).events))
    {
      var outcome := engine.call(scope, ast, name, args);
      scope := outcome.scope;
      Replay(sink, palette, outcome.events);
      r := CallResult(outcome);
    }

    /** `execute`: direct mode; the flag is left alone and errors propagate. */
    method Execute(sink: Sink, cmd: string, args: seq<string>) returns (r: Result<(), Error>)
      requires sink.Valid()
      modifies this, sink.Repr
      ensures sink.Valid()
      ensures scope == old(Invoked(cmd, args)).scope
      ensures r == CallResult(old(Invoked(cmd, args)))
      ensures sink.State().enabled == old(sink.State().enabled)
      ensures sink.State() == Emitted(old(sink.State()), Writes(old(sink.State().enabled), palette, old(Invoked(cmd, args)).events))
    {
      r := CallFn(sink, cmd, args);
    }

    /**
     * `execute_capture`: enable, call, disable, take both buffers. It always
     * returns an `Output`; the error is the call's, the text is what the call
     * wrote (after whatever was still buffered), nothing reaches the real
     * streams, and afterwards capture is off and both buffers are empty.
     */
    method ExecuteCapture(sink: Sink, cmd: string, args: seq<string>) returns (out: Output)
      requires sink.Valid()
      modifies this, sink.Repr
      ensures sink.Valid()
      ensures scope == old(Invoked(cmd, args)).scope
      ensures out.error == CallResult(old(Invoked(cmd, args))).Err()
      ensures out.stdout == old(sink.State().outBuf) + Text(Writes(true, palette, old(Invoked(cmd, args)).events), Stdout)
      ensures out.stderr == old(sink.State().errBuf) + Text(Writes(true, palette, old(Invoked(cmd, args)).events), Stderr)
      ensures sink.State() == old(sink.State()).(enabled := false, outBuf := [], errBuf := [])
    {
      ghost var s0 := sink.State();
      ghost var ws := Writes(true, palette, Invoked(cmd, args).events);
      sink.Enable();
      var r := CallFn(sink, cmd, args);
      EmittedCaptured(s0.(enabled := true), ws);
      sink.Disable();
      var o := sink.outFile.Take();
      var e := sink.errFile.Take();
      out := Output(r.Err(), o, e);
    }
  }
}
