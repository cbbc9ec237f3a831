/**
 * Client scenarios: what callers of the host can prove from its contracts
 * alone, with small concrete engines standing in for compiled scripts.
 */
module CaptureTests {
  import opened Wrappers
  import opened StdFiles
  import opened Painter
  import opened Script

  const TestPalette := Palette(Style("<red>", "</red>"), Style("<green>", "</green>"),
                               Style("<dim>", "</dim>"), Style("<yellow>", "</yellow>"))

  const NotFound := EvalError("function not found")

  /**
   * The script of tests/test_capture.rs: `run_test` prints "hello" and
   * debugs the string "error" at line 3, column 2 of an unnamed source.
   */
  function CaptureEngine(): Engine<int, string> {
    Engine(
      0,
      (sc: int, src: string) => Success(src),
      (sc: int, ast: string) => Outcome(sc, [], None),
      (sc: int, ast: string, name: string, args: seq<string>) =>
        if name == "run_test"
        then Outcome(sc, RunTestEvents, None)
        else Outcome(sc, [], Some(NotFound)))
  }

  const RunTestEvents := [PrintHook("hello"), DebugHook("\"error\"", None, "3:2")]

  const Hello := Write(PrintlnRoute, "hello")
  const Debug := Write(EPrintlnRoute, "unkown @ 3:2 > \"error\"")

  /** The writes `run_test`'s events turn into under capture, whatever the styles. */
  lemma RunTestWrites(p: Palette)
    ensures Writes(true, p, RunTestEvents) == [Hello, Debug]
  {
    var evs := RunTestEvents;
    assert DebugLine("\"error\"", None, "3:2") == "unkown" + " @ " + "3:2" + " > " + "\"error\"";
    assert DebugLine("\"error\"", None, "3:2") == "unkown @ 3:2 > \"error\"";
    assert EventWrite(true, p, evs[1]) == Debug;
    assert evs[..1][..0] == [] && evs[..1] == [evs[0]];
    assert Writes(true, p, evs[..1]) == [Hello];
  }

  /** What `run_test` writes under capture, whatever the styles. */
  lemma CaptureScenarioText(p: Palette)
    ensures Text(Writes(true, p, RunTestEvents), Stdout) == "hello\n"
    ensures Text(Writes(true, p, RunTestEvents), Stderr) == "unkown @ 3:2 > \"error\"\n"
  {
    RunTestWrites(p);
    var ws := [Hello, Debug];
    assert ws[..1] == [Hello] && [Hello][..0] == [];
    assert Text([Hello], Stdout) == "hello\n";
    assert Text([Hello], Stderr) == "";
  }

  /** tests/test_capture.rs: no error, "hello\n" on stdout, the debug line on stderr. */
  method TestCapture() returns (out: Output)
    ensures out == Output(None, "hello\n", "unkown @ 3:2 > \"error\"\n")
  {
    var sink := new Sink();
    var loaded := Script.New(CaptureEngine(), TestPalette, Success("fn run_test() { ... }"), sink);
    assert Load(CaptureEngine(), Success("fn run_test() { ... }")).result.Success?;
    var script := loaded.value;
    out := script.ExecuteCapture(sink, "run_test", []);
    CaptureScenarioText(TestPalette);
  }

  /** An engine whose compiler rejects every source. */
  function BrokenEngine(): Engine<int, string> {
    Engine(
      0,
      (sc: int, src: string) => Failure(ParseError("unexpected token")),
      (sc: int, ast: string) => Outcome(sc, [], None),
      (sc: int, ast: string, name: string, args: seq<string>) => Outcome(sc, [], None))
  }

  /** Loading a file with a syntax error gives `Parse` and no host. */
  method TestSyntaxError() returns (e: Error)
    ensures e == Parse(ParseError("unexpected token"))
  {
    var sink := new Sink();
    var loaded := Script.New(BrokenEngine(), TestPalette, Success("fn ("), sink);
    e := loaded.error;
  }

  /** A missing file gives `Io`. */
  method TestMissingFile() returns (e: Error)
    ensures e == Io(IoError("not found"))
  {
    var sink := new Sink();
    var loaded := Script.New(CaptureEngine(), TestPalette, Failure(IoError("not found")), sink);
    e := loaded.error;
  }

  /**
   * The scope is a counter. The top level sets it to 10; `bump` adds one;
   * `bump_then_fail` adds one and then fails; anything else is not found.
   */
  function CounterEngine(): Engine<int, string> {
    Engine(
      0,
      (sc: int, src: string) => Success(src),
      (sc: int, ast: string) => Outcome(10, [], None),
      (sc: int, ast: string, name: string, args: seq<string>) =>
        if name == "bump" then Outcome(sc + 1, [], None)
        else if name == "bump_then_fail" then Outcome(sc + 1, [], Some(EvalError("raised")))
        else Outcome(sc, [], Some(NotFound)))
  }

  /**
   * Calls share one scope: the top level runs once, each call sees the
   * previous call's changes, a failed call keeps its partial change, and an
   * unknown function fails without making the host unusable.
   */
  method TestPersistentScope() returns (missing: Result<(), Error>, last: Result<(), Error>, counter: int)
    ensures missing == Failure(Rhai(NotFound))
    ensures last == Success(())
    ensures counter == 13
  {
    var sink := new Sink();
    var loaded := Script.New(CounterEngine(), TestPalette, Success("let n = 10;"), sink);
    assert Load(CounterEngine(), Success("let n = 10;")).result.Success?;
    var script := loaded.value;
    var r := script.Execute(sink, "bump", []);
    missing := script.Execute(sink, "does_not_exist", []);
    var failed := script.ExecuteCapture(sink, "bump_then_fail", []);
    assert failed.error == Some(Rhai(EvalError("raised")));
    last := script.Execute(sink, "bump", []);
    counter := script.scope;
  }
}
