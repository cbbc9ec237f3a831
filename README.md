# riji output capture, modelled in Dafny

riji runs named tasks from a Rhai script. A `Script` compiles a script file once and runs its top level once. After that it calls script functions by name against one persistent scope. There are two modes:

- direct mode (`execute`): output goes to the terminal, styled with ANSI colours;
- captured mode (`execute_capture`): output is collected in two in-memory buffers and returned, without styles, in an `Output` record.

This project models the three parts that make up that protocol:

- `StdFiles` (stdfiles.dfy): the output sink. It holds the capture flag, one `StdFile` buffer per stream, and the routing rule of `print!`, `println!`, `eprint!` and `eprintln!`. The three thread-locals (the flag and the two buffers) become one owned `Sink` object. The real stdout and stderr become two sequences of escaped text, so that every write can be accounted for.
- `Painter` (paint.dfy): the conditional painter. While capture is on, the painting macros emit the plain text. While it is off, they emit the style's prefix, the text and the style's suffix.
- `Script` (script.dfy): the host. This covers the error kinds, loading, `call_fn` against the persistent scope, direct and captured execution, the hooks `new_engine` installs, `print_arr`, `print_bool`, and the decision rule of `prompt`.

`CaptureTests` (capture_tests.dfy) replays the scenario of `tests/test_capture.rs` and three more, using small concrete engines.

The Rhai engine is abstract. An `Engine` value supplies four things:

- an empty scope;
- a compiler from source text to a program;
- an evaluator for the top level;
- a function call that runs one named function against a scope. It neither re-runs the top level nor rewinds the scope.

Each run yields an `Outcome`: a new scope, the output events the script produced, and an optional runtime error. The host replays those events through its hooks and the sink. The capture flag cannot change during a call, so replaying after the call gives the same buffers and streams as writing during it.

The debug hook's fallback source name is spelled "unkown", as in the code and in the assertion of `tests/test_capture.rs`.

## Model

| member | source | states |
|---|---|---|
| `StdFiles.Routed` | src/stdfiles.rs:49-103 | The routing rule. When the flag is on, only the matching capture buffer grows, by the text plus "\n" for the `ln` forms. When it is off, only the matching real stream grows. The flag never changes. |
| `StdFiles.Emitted` | src/stdfiles.rs:49-103 | A sequence of routed writes never changes the capture flag. |
| `StdFiles.EmittedCaptured` | src/stdfiles.rs:49-103 | While capture is on, each buffer receives exactly the concatenation, in order, of what was written to its stream. The real streams are untouched, so nothing is lost and nothing is duplicated. |
| `StdFiles.EmittedEscaped` | src/stdfiles.rs:49-103 | While capture is off, each real stream receives exactly its writes, in order. Neither buffer changes, so a later take never sees these writes. |
| `StdFiles.EmittedAppend` | src/stdfiles.rs:49-103 | Routing writes `a` and then writes `b` is the same as routing `a + b`. |
| `StdFiles.CursorWrite` | src/stdfiles.rs:44-46 | `Cursor::write_all` overwrites the data from the cursor on, keeps what lies before and after, and fills any gap between the end of the data and a cursor past it with zero characters. With the cursor at the end, this is exactly an append. |
| `StdFiles.StdFile.constructor` | src/stdfiles.rs:30-34 | A new buffer is empty and its cursor is at the end. |
| `StdFiles.StdFile.Write` | src/stdfiles.rs:44-46 | The new contents are the old contents followed by the bytes written. The cursor stays at the end. |
| `StdFiles.StdFile.Take` | src/stdfiles.rs:40-42 | Returns exactly the buffered contents and leaves the buffer empty, so an immediate second take returns "". |
| `StdFiles.Sink.constructor` | src/stdfiles.rs:6-10 | The sink starts disabled, with both buffers and both real streams empty. |
| `StdFiles.Sink.IsEnabled` | src/stdfiles.rs:12-14 | Returns the flag and changes nothing. |
| `StdFiles.Sink.Enable` | src/stdfiles.rs:16-18 | Sets the flag. No buffer or stream changes, and enabling twice is the same as enabling once. |
| `StdFiles.Sink.Disable` | src/stdfiles.rs:20-22 | Clears the flag. No buffer or stream changes, and disabling twice is the same as disabling once. |
| `StdFiles.Sink.Emit` | src/stdfiles.rs:49-103 | Any of the four macros, given by its route, changes the sink exactly as the routing rule says. |
| `StdFiles.Sink.EPrint` | src/stdfiles.rs:49-61 | `eprint!` is the routing rule on the stderr route, without a newline. |
| `StdFiles.Sink.EPrintln` | src/stdfiles.rs:63-75 | `eprintln!` is the routing rule on the stderr route, with a trailing "\n". |
| `StdFiles.Sink.Print` | src/stdfiles.rs:77-89 | `print!` is the routing rule on the stdout route, without a newline. |
| `StdFiles.Sink.Println` | src/stdfiles.rs:91-103 | `println!` is the routing rule on the stdout route, with a trailing "\n". |
| `Painter.PaintedText` | src/paint.rs:18-22 | When capture is on, the emitted text is exactly the formatted text. When it is off, the text is the prefix, then the formatted text, then the suffix, and each part can be read back at its position. |
| `Painter.PaintedTextChanges` | src/paint.rs:18-22 | Painting leaves the text unchanged exactly when capture is on or the style has no escape text. |
| `Painter.PaintWrite` | src/paint.rs:15-56 | A painting macro writes on the route it was given. For the `ln` forms, the newline comes after the suffix. |
| `Painter.Paint` | src/paint.rs:15-24 | `paint!` routes the painted text through `print!`. It reads the flag but does not change it. |
| `Painter.Paintln` | src/paint.rs:25-34 | `paintln!` routes the painted text through `println!`. |
| `Painter.EPaint` | src/paint.rs:36-45 | `epaint!` routes the painted text through `eprint!`. |
| `Painter.EPaintln` | src/paint.rs:47-56 | `epaintln!` routes the painted text through `eprintln!`. |
| `Painter.PaintErr` | src/paint.rs:58-63 | `paint_err!` writes a line to stderr in the red style. |
| `Painter.PaintOk` | src/paint.rs:65-70 | `paint_ok!` writes a line to stderr in the green style. |
| `Painter.PaintDbg` | src/paint.rs:72-77 | `paint_dbg!` writes a line to stderr in the dimmed white style. |
| `Painter.PaintAct` | src/paint.rs:79-85 | `paint_act!` writes a line to stderr in the yellow style. |
| `Script.CallResult` | src/script.rs:24-28 | A call's result is an error exactly when the engine reported one. That error becomes `Rhai`, carried unchanged. |
| `Script.Load` | src/script.rs:50-58 | A read failure gives `Io`, a compile failure gives `Parse`, and a failed top-level evaluation gives `Rhai`, each in both directions. On success, the host holds the top level's scope and the compiled program. |
| `Script.Script.New` | src/script.rs:50-59 | Construction fails exactly as `Load` does. On success, it produces a fresh host holding the compiled program and the scope the top level's run left. The top level's output goes through the sink. |
| `Script.Script.CallFn` | src/script.rs:61-71 | The next scope is the one the engine's function call leaves on the current scope, even after a failure; nothing else (in particular no top-level evaluation) touches it. The call's output is routed with the current flag. |
| `Script.Script.Execute` | src/script.rs:73-75 | Direct mode behaves as `CallFn`: the flag is unchanged and errors propagate. |
| `Script.Script.ExecuteCapture` | src/script.rs:77-89 | Always returns an `Output`. Its error is the call's error. Its stdout and stderr are whatever was still buffered, followed by exactly what the call wrote to each stream, in order. Nothing reaches the real streams. Afterwards, capture is off and both buffers are empty. |
| `Script.DebugLine` | src/script.rs:106-108 | The debug line is the source name (or "unkown" when there is none), " @ ", the position, " > ", then the debug text, each part read back at its position. |
| `Script.EventWrite` | src/script.rs:106-111 | `on_print` writes its text with `println!`. `on_debug` writes the debug line on the stderr line route, plain under capture and wrapped in the dimmed white style otherwise. A host write keeps its route and text, and a host paint keeps its route and writes its plain text under capture, or its style's prefix, the text and the suffix otherwise. |
| `Script.Handle` | src/script.rs:106-111 | An event goes through its hook: `on_print` is `println!` of the text, `on_debug` is `paint_dbg!` of the debug line, and a host function uses its own macro. |
| `Script.Replay` | src/script.rs:106-111 | A run's events are performed in order, all with the flag as it stood. |
| `Script.CapturedTextIgnoresStyles` | src/paint.rs:18-19 | Under capture, the text of each stream is the same as for the same events with every painted style replaced by the empty style, under any palette: neither the palette nor any event's own style reaches captured output. |
| `Script.Render` | src/script.rs:135-141 | A string element renders as itself; any other element renders as "error: " followed by its type name. |
| `Script.JoinLinesEnds` | src/script.rs:128-145 | The joined text starts with the first line, has a separator right after it when more lines follow, and ends with the last line. |
| `Script.PrintArr` | src/script.rs:128-145 | Returns the rendered elements joined by "\n", with no leading or trailing separator. A non-string element renders as "error: " followed by its type name, and an empty array gives "". |
| `Script.JoinLinesSnoc` | src/script.rs:130-133 | Appending one element adds exactly one separator, before that element. |
| `Script.SplitJoinLines` | src/script.rs:128-145 | Splitting the joined text at "\n" gives back the lines, when no line contains "\n". |
| `Script.PrintArrLines` | src/script.rs:128-145 | Splitting `print_arr`'s output at "\n" gives back the rendered elements. |
| `Script.PrintBool` | src/script.rs:147-149 | The result is "true" exactly when the input is true, and "false" exactly when it is false. |
| `Script.LeadingWhitespace` | src/script.rs:158 | The leading run of Unicode whitespace is all whitespace and is maximal. |
| `Script.TrailingWhitespace` | src/script.rs:158 | The trailing run of Unicode whitespace is all whitespace and is maximal. |
| `Script.WhitespaceAscii` | src/script.rs:158 | Space, tab, newline and carriage return are whitespace; digits and Latin letters are not. |
| `Script.Trim` | src/script.rs:158 | The text is its leading whitespace run, the trimmed text, and a whitespace rest. Both runs are all whitespace, and the trimmed text neither starts nor ends with whitespace. |
| `Script.IsYes` | src/script.rs:158-160 | A line is a yes exactly when its trimmed text is a single 'y' or 'Y'. |
| `Script.IsYesIff` | src/script.rs:158-160 | A line counts as a yes exactly when it is a single 'y' or 'Y', surrounded by whitespace only. |
| `Script.Prompt` | src/script.rs:151-161 | Writes the message in the yellow style, then the line "y/n". Returns the decision rule applied to the line it read. |
| `CaptureTests.CaptureScenarioText` | tests/test_capture.rs:8-10 | Under capture, `run_test`'s print and debug events produce "hello\n" on stdout and the debug line on stderr, whatever the styles. |
| `CaptureTests.TestCapture` | tests/test_capture.rs:3-11 | `execute_capture("run_test")` returns no error, "hello\n" on stdout and "unkown @ 3:2 > \"error\"\n" on stderr. |
| `CaptureTests.TestSyntaxError` | src/script.rs:54 | Loading a source the compiler rejects gives `Parse` and no host. |
| `CaptureTests.TestMissingFile` | src/script.rs:53 | Loading a file that cannot be read gives `Io`. |
| `CaptureTests.TestPersistentScope` | src/script.rs:61-71 | Calls share one scope. The value the top level sets (10) is never reset, each call sees the previous call's change, and a failed call keeps its partial change. An unknown function gives `Rhai` and the host stays usable. |

## Left out

- The Rhai engine: compiling, evaluating, `call_fn_with_options`, `Scope`, `AST` and `Dynamic`. It is replaced by the abstract `Engine`, whose `call` already means "no top-level evaluation, no scope rewind"; the two `CallFnOptions` flags themselves are not modelled.
- The domain API registrations (`crate::api::*`): those modules are not part of this model. Their output is covered by the `HostWrite` and `HostPaint` events.
- File reading and the blocking stdin read in `prompt`. The file's contents (or the read error) and the input line are parameters.
- `panic`, which aborts the process. It is not an error value and has no place in any result.
- The thread-local cells, `RefCell` borrowing and concurrency. One owned `Sink` replaces them.
- The ANSI escape bytes and the Windows VT100 setup. Styles are opaque prefix and suffix strings, and the four styles the wrapper macros use are given as a `Palette`.
- Bytes and UTF-8. The buffers hold characters, so encoding text into bytes and `String::from_utf8_lossy` are identity here. Every write in this core comes from a formatting macro, so it is valid UTF-8.
- Formatting (`format_args!` and Rhai's `{:?}` for positions and debug values). Each macro receives its formatted text, and the debug hook receives the position and the debug text as strings. In direct mode the painting macros pass the style's prefix as the first format argument, so a format string with an explicit positional index (`{0}`) would bind the prefix; every painted format in this core uses implicit positions only, and for those the output is the prefix, the formatted text, then the suffix, as `PaintedText` states.
- `StdFile::borrow_mut`: the model exposes only writing and taking, which are the only ways the core uses the buffer.
- Interleaving inside a call: a run's output is replayed after the engine returns its new scope. No hook reads anything the call changes except the flag, and the flag is constant during a call, so this gives the same buffers and streams.
