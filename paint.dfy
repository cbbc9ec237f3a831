/**
 * The conditional painter of src/paint.rs: the same text is printed plain
 * while capture is enabled and wrapped in the style's escape sequences while
 * it is disabled. The escape sequences themselves are opaque strings.
 */
module Painter {
  import opened StdFiles

  /** A terminal style, known only by the text it puts before and after. */
  datatype Style = Style(prefix: string, suffix: string)

  /** The styles the wrapper macros use: Red, Green, dimmed White and Yellow. */
  datatype Palette = Palette(red: Style, green: Style, dimmedWhite: Style, yellow: Style)

  /**
   * The text a painting macro hands to its routing macro: the formatted text
   * itself while capture is enabled, otherwise prefix, text and suffix.
   */
  function PaintedText(enabled: bool, style: Style, text: string): (r: string)
    ensures enabled ==> r == text
    ensures !enabled ==> |r| == |style.prefix| + |text| + |style.suffix|
    ensures !enabled ==> r[..|style.prefix|] == style.prefix
    ensures !enabled ==> r[|style.prefix|..|style.prefix| + |text|] == text
    ensures !enabled ==> r[|style.prefix| + |text|..] == style.suffix
  {
    if enabled then text else style.prefix + text + style.suffix
  }

  /**
   * Off capture, a style with any escape text changes every output;
   * on capture, no style ever does.
   */
  lemma PaintedTextChanges(enabled: bool, style: Style, text: string)
    ensures PaintedText(enabled, style, text) == text <==> enabled || style.prefix + style.suffix == []
  {
    if !enabled && style.prefix + style.suffix != [] {
      assert |PaintedText(enabled, style, text)| > |text|;
    }
  }

  /** The write a painting macro performs, given the flag it read. */
  function PaintWrite(enabled: bool, route: Route, style: Style, text: string): (w: Write)
    ensures w.route == route
    ensures Line(w) == PaintedText(enabled, style, text) + (if route.newline then "\n" else "")
  {
    Write(route, PaintedText(enabled, style, text))
  }

  /** `paint!`: through `print!`. */
  method Paint(sink: Sink, style: Style, text: string)
    requires sink.Valid()
    modifies sink, sink.outFile
    ensures sink.Valid()
    ensures sink.State() == Routed(old(sink.State()), PaintWrite(old(sink.State().enabled), PrintRoute, style, text))
  {
    var on := sink.IsEnabled();
    if on {
      sink.Print(text);
    } else {
      sink.Print(style.prefix + text + style.suffix);
    }
  }

  /** `paintln!`: through `println!`, the newline after the suffix. */
  method Paintln(sink: Sink, style: Style, text: string)
    requires sink.Valid()
    modifies sink, sink.outFile
    ensures sink.Valid()
    ensures sink.State() == Routed(old(sink.State()), PaintWrite(old(sink.State().enabled), PrintlnRoute, style, text))
  {
    var on := sink.IsEnabled();
    if on {
      sink.Println(text);
    } else {
      sink.Println(style.prefix + text + style.suffix);
    }
  }

  /** `epaint!`: through `eprint!`. */
  method EPaint(sink: Sink, style: Style, text: string)
    requires sink.Valid()
    modifies sink, sink.errFile
    ensures sink.Valid()
    ensures sink.State() == Routed(old(sink.State()), PaintWrite(old(sink.State().enabled), EPrintRoute, style, text))
  {
    var on := sink.IsEnabled();
    if on {
      sink.EPrint(text);
    } else {
      sink.EPrint(style.prefix + text + style.suffix);
    }
  }

  /** `epaintln!`: through `eprintln!`, the newline after the suffix. */
  method EPaintln(sink: Sink, style: Style, text: string)
    requires sink.Valid()
    modifies sink, sink.errFile
    ensures sink.Valid()
    ensures sink.State() == Routed(old(sink.State()), PaintWrite(old(sink.State().enabled), EPrintlnRoute, style, text))
  {
    var on := sink.IsEnabled();
    if on {
      sink.EPrintln(text);
    } else {
      sink.EPrintln(style.prefix + text + style.suffix);
    }
  }

  /** `paint_err!`: a red line on stderr. */
  method PaintErr(sink: Sink, palette: Palette, text: string)
    requires sink.Valid()
    modifies sink, sink.errFile
    ensures sink.Valid()
    ensures sink.State() == Routed(old(sink.State()), PaintWrite(old(sink.State().enabled), EPrintlnRoute, palette.red, text))
  {
    EPaintln(sink, palette.red, text);
  }

  /** `paint_ok!`: a green line on stderr. */
  method PaintOk(sink: Sink, palette: Palette, text: string)
    requires sink.Valid()
    modifies sink, sink.errFile
    ensures sink.Valid()
    ensures sink.State() == Routed(old(sink.State()), PaintWrite(old(sink.State().enabled), EPrintlnRoute, palette.green, text))
  {
    EPaintln(sink, palette.green, text);
  }

  /** `paint_dbg!`: a dimmed white line on stderr. */
  method PaintDbg(sink: Sink, palette: Palette, text: string)
    requires sink.Valid()
    modifies sink, sink.errFile
    ensures sink.Valid()
    ensures sink.State() == Routed(old(sink.State()), PaintWrite(old(sink.State().enabled), EPrintlnRoute, palette.dimmedWhite, text))
  {
    EPaintln(sink, palette.dimmedWhite, text);
  }

  /** `paint_act!`: a yellow line on stderr. */
  method PaintAct(sink: Sink, palette: Palette, text: string)
    requires sink.Valid()
    modifies sink, sink.errFile
    ensures sink.Valid()
    ensures sink.State() == Routed(old(sink.State()), PaintWrite(old(sink.State().enabled), EPrintlnRoute, palette.yellow, text))
  {
    EPaintln(sink, palette.yellow, text);
  }
}
