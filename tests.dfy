/**
  The end-to-end expectations of lerror/tests/test.rs: the reports of the errors that the
  functions `c` and `b` of that file return, built by the macro and `Context` models and
  written by the `Debug` formatter.

  `c` fails with `bail!("Image not found")` at line 18, column 5. `b` calls `c` and attaches
  `"file not found"` at line 12, column 9 before propagating the error with `?`. Each
  expected report is written one output line per string literal.
*/
module ReportTests {
  import opened Wrappers
  import opened ErrorChain
  import opened Fmt
  import Lerror
  import Macros

  /** The index column of a one-digit frame index: four spaces, the digit, a colon and a space. */
  lemma PrefixOfDigit(n: nat)
    requires n < 10
    ensures Prefix(Some(n)) == "    " + [Digit(n)] + ": "
  {
    assert NatToString(n) == [Digit(n)];
    assert Spaces(4) == "    ";
  }

  /**
    A one-line message on a one-line file name, at index `i` below 10: the location line, then
    the message line under the continuation indent.
  */
  lemma FrameLines(i: nat, frame: ContextError, line: string, column: string)
    requires i < 10 && frame.context != [] && '\n' !in frame.file && '\n' !in frame.context
    requires NatToString(frame.line as nat) == line && NatToString(frame.column as nat) == column
    ensures FrameText(i, frame) ==
      ("    " + [Digit(i)] + ": " + (frame.file + ":" + line + ":" + column) + "\n") +
      (Continuation(Some(i)) + frame.context + "\n")
  {
    var indent := Continuation(Some(i));
    FrameWithMessage(i, frame);
    ReplaceAbsent(frame.context, '\n', "\n" + indent);
    PrefixOfDigit(i);
    LinesRegroup(Prefix(Some(i)), LocationText(frame), indent, frame.context);
  }

  /**
    The regrouping of a frame's two lines.
    Kept apart, on plain strings, so that no definition around them is unfolded.
  */
  lemma LinesRegroup(prefix: string, location: string, indent: string, message: string)
    ensures prefix + location + "\n" + indent + message + "\n" == (prefix + location + "\n") + (indent + message + "\n")
  {
  }

  /**
    The test's file name and messages are one line.
    Kept apart, on parameters, so that the literals are compared in a small context.
  */
  lemma SingleLine(s: string)
    requires s == "lerror/tests/test.rs" || s == "Image not found" || s == "file not found"
    ensures '\n' !in s
  {
  }

  /**
    The location line of `c`'s frame at index 0.
    Kept apart, on parameters, so that the literals are compared in a small context.
  */
  lemma ImageLocationLineZero(d: char, file: string, line: string, column: string)
    requires d == '0' && file == "lerror/tests/test.rs" && line == "18" && column == "5"
    ensures "    " + [d] + ": " + (file + ":" + line + ":" + column) + "\n" == "    0: lerror/tests/test.rs:18:5\n"
  {
  }

  /**
    The location line of `c`'s frame at index 1.
    Kept apart, on parameters, so that the literals are compared in a small context.
  */
  lemma ImageLocationLineOne(d: char, file: string, line: string, column: string)
    requires d == '1' && file == "lerror/tests/test.rs" && line == "18" && column == "5"
    ensures "    " + [d] + ": " + (file + ":" + line + ":" + column) + "\n" == "    1: lerror/tests/test.rs:18:5\n"
  {
  }

  /**
    The location line of `b`'s frame at index 0.
    Kept apart, on parameters, so that the literals are compared in a small context.
  */
  lemma FileLocationLine(d: char, file: string, line: string, column: string)
    requires d == '0' && file == "lerror/tests/test.rs" && line == "12" && column == "9"
    ensures "    " + [d] + ": " + (file + ":" + line + ":" + column) + "\n" == "    0: lerror/tests/test.rs:12:9\n"
  {
  }

  /**
    A message line under the numbered continuation indent.
    Kept apart, on parameters, so that the literals are compared in a small context.
  */
  lemma MessageLine(indent: string, message: string)
    requires indent == "       " && (message == "Image not found" || message == "file not found")
    ensures message == "Image not found" ==> indent + message + "\n" == "       Image not found\n"
    ensures message == "file not found" ==> indent + message + "\n" == "       file not found\n"
  {
  }

  /** The frame `bail!("Image not found")` records in `c`, rendered as frame 0 or 1. */
  lemma ImageNotFoundFrame(i: nat, frame: ContextError)
    requires i < 2
    requires frame == NewContextError("Image not found", Location("lerror/tests/test.rs", 18, 5))
    ensures i == 0 ==> FrameText(i, frame) == "    0: lerror/tests/test.rs:18:5\n" + "       Image not found\n"
    ensures i == 1 ==> FrameText(i, frame) == "    1: lerror/tests/test.rs:18:5\n" + "       Image not found\n"
  {
    assert NatToString(18) == "18" && NatToString(5) == "5";
    SingleLine(frame.file);
    SingleLine(frame.context);
    FrameLines(i, frame, "18", "5");
    if i == 0 {
      ImageLocationLineZero(Digit(i), frame.file, "18", "5");
    } else {
      ImageLocationLineOne(Digit(i), frame.file, "18", "5");
    }
    MessageLine(Continuation(Some(i)), frame.context);
  }

  /** The frame `.context("file not found")` attaches in `b`, rendered as frame 0. */
  lemma FileNotFoundFrame(frame: ContextError)
    requires frame == NewContextError("file not found", Location("lerror/tests/test.rs", 12, 9))
    ensures FrameText(0, frame) == "    0: lerror/tests/test.rs:12:9\n" + "       file not found\n"
  {
    assert NatToString(12) == "12" && NatToString(9) == "9";
    SingleLine(frame.file);
    SingleLine(frame.context);
    FrameLines(0, frame, "12", "9");
    FileLocationLine(Digit(0), frame.file, "12", "9");
    MessageLine(Continuation(Some(0)), frame.context);
  }

  /** `format!("{:?}", c().unwrap_err())`, lines 23-27 of the test. */
  lemma ReportOfC(origin: ContextError)
    requires origin == NewContextError("Image not found", Location("lerror/tests/test.rs", 18, 5))
    ensures Render([origin]) ==
      "lerror::Error\n\n" +
      "    0: lerror/tests/test.rs:18:5\n" +
      "       Image not found\n"
  {
    ImageNotFoundFrame(0, origin);
    RenderOrder([origin], 0);
  }

  /** A report of two frames: the header, then frame 0, then frame 1. */
  lemma RenderOfTwo(frames: seq<ContextError>)
    requires |frames| == 2
    ensures Render(frames) == Header + (FrameText(0, frames[0]) + FrameText(1, frames[1]))
  {
    var texts := FrameTexts(frames);
    assert Concat(texts, 2, 2) == "";
    assert Concat(texts, 1, 2) == texts[1];
  }

  /**
    The regrouping of a two-frame report into its five lines.
    Kept apart, on plain strings, so that no definition around them is unfolded.
  */
  lemma ReportRegroup(header: string, a: string, b: string, c: string, d: string)
    ensures header + ((a + b) + (c + d)) == header + a + b + c + d
  {
  }

  /** `format!("{:?}", b().unwrap_err())`, lines 28-32 of the test: the attached frame first. */
  lemma ReportOfB(origin: ContextError)
    requires origin == NewContextError("Image not found", Location("lerror/tests/test.rs", 18, 5))
    ensures Render(Attach([origin], Attachment("file not found", Location("lerror/tests/test.rs", 12, 9)))) ==
      "lerror::Error\n\n" +
      "    0: lerror/tests/test.rs:12:9\n" +
      "       file not found\n" +
      "    1: lerror/tests/test.rs:18:5\n" +
      "       Image not found\n"
  {
    var frames := Attach([origin], Attachment("file not found", Location("lerror/tests/test.rs", 12, 9)));
    RenderOfTwo(frames);
    FileNotFoundFrame(frames[0]);
    ImageNotFoundFrame(1, frames[1]);
    ReportRegroup(Header, "    0: lerror/tests/test.rs:12:9\n", "       file not found\n",
      "    1: lerror/tests/test.rs:18:5\n", "       Image not found\n");
  }

  /**
    The literal `"Image not found"` formats to itself.
    Kept apart, on parameters, so that the literals are compared in a small context.
  */
  lemma ImageLiteral(image: Lerror.Arguments)
    requires image == Lerror.Arguments(["Image not found"], [])
    ensures image.WellFormed() && Lerror.Format(image) == "Image not found"
  {
  }

  /**
    `test_io_error`: `c()` fails through `bail!("Image not found")` at line 18, column 5; `b()`
    calls `c()` and attaches `"file not found"` at line 12, column 9, and its `?` propagates
    that error unchanged (the rewrite leaves that `?` alone, see `TryRewriter.BodyOfB`). Both
    errors are written with `{:?}` into a `String`.
  */
  method TestIoError() returns (reportC: string, reportB: string)
    ensures reportC ==
      "lerror::Error\n\n" +
      "    0: lerror/tests/test.rs:18:5\n" +
      "       Image not found\n"
    ensures reportB ==
      "lerror::Error\n\n" +
      "    0: lerror/tests/test.rs:12:9\n" +
      "       file not found\n" +
      "    1: lerror/tests/test.rs:18:5\n" +
      "       Image not found\n"
  {
    var atBail := Location("lerror/tests/test.rs", 18, 5);
    var atContext := Location("lerror/tests/test.rs", 12, 9);
    var image := Lerror.Arguments(["Image not found"], []);
    ImageLiteral(image);
    var origin := NewContextError("Image not found", atBail);

    // let c = c().unwrap_err();
    var c := Macros.Bail<()>(Macros.Literal(image), atBail);
    assert c.error.inner == [origin];
    ReportOfC(origin);
    reportC := DebugString(c.error);

    // let b = b().unwrap_err();
    var inB := Macros.Bail<()>(Macros.Literal(image), atBail);
    var b := Lerror.ResultContext<()>(Lerror.Err(inB.error), "file not found", atContext);
    assert b.error.inner == Attach([origin], Attachment("file not found", atContext));
    ReportOfB(origin);
    reportB := DebugString(b.error);
  }

  /** `format!("{:?}", e)`: the report written into a `String`, which always has room for it. */
  method DebugString(e: Error) returns (report: string)
    ensures report == Render(e.inner)
  {
    var out := new Sink(|Render(e.inner)|);
    var ok := DebugFmt(e, out);
    WroteReportsOverflow([], out.out, out.capacity, Render(e.inner), ok);
    report := out.out;
  }
}
