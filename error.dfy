/**
  The error chain (src/error.rs, and the `Error` struct of lerror/src/lib.rs).

  An `Error` is an ordered list of context frames, newest first. It is created with
  exactly one frame, the origin, and every `context` call pushes one more frame onto
  the front. Rust's `#[track_caller]` location capture is an explicit `Location`
  argument here: the caller of each operation passes the call site it would report.
*/
module ErrorChain {

  /** Rust's `u32`, the type of the line and column that `Location::caller()` reports. */
  newtype u32 = x: int | 0 <= x < 0x1_0000_0000

  /** A call site: what `Location::caller()` yields. */
  datatype Location = Location(file: string, line: u32, column: u32)

  /** `ContextError<String>`: the Display text of one attached message and where it was attached. */
  datatype ContextError = ContextError(context: string, line: u32, column: u32, file: string)

  /** The location a frame records. */
  function FrameLocation(frame: ContextError): Location {
    Location(frame.file, frame.line, frame.column)
  }

  /** `ContextError::new`: the message's Display text together with the caller's file, line and column. */
  function NewContextError(c: string, caller: Location): (frame: ContextError)
    ensures frame.context == c && FrameLocation(frame) == caller
  {
    ContextError(c, caller.line, caller.column, caller.file)
  }

  /** A frame loses nothing: two frames are equal exactly when their messages and call sites are. */
  lemma NewContextErrorInjective(c1: string, caller1: Location, c2: string, caller2: Location)
    ensures NewContextError(c1, caller1) == NewContextError(c2, caller2) <==> c1 == c2 && caller1 == caller2
  {
    if NewContextError(c1, caller1) == NewContextError(c2, caller2) {
      assert FrameLocation(NewContextError(c1, caller1)) == caller1;
      assert FrameLocation(NewContextError(c2, caller2)) == caller2;
    }
  }

  /** One `context` call: its message and its call site. */
  datatype Attachment = Attachment(context: string, caller: Location)

  /** The frames after one `context` call. */
  function Attach(frames: seq<ContextError>, a: Attachment): (r: seq<ContextError>)
    ensures |r| == |frames| + 1
    ensures r[0] == NewContextError(a.context, a.caller) && r[1..] == frames
  {
    [NewContextError(a.context, a.caller)] + frames
  }

  /** The frames after the `context` calls `atts`, made in that order (the first one first). */
  function AttachAll(frames: seq<ContextError>, atts: seq<Attachment>): seq<ContextError>
    decreases |atts|
  {
    if atts == [] then frames
    else Attach(AttachAll(frames, atts[..|atts| - 1]), atts[|atts| - 1])
  }

  /** The frames the attachments `atts` create, the most recent first. */
  function NewestFirst(atts: seq<Attachment>): (r: seq<ContextError>)
    ensures |r| == |atts|
    decreases |atts|
  {
    if atts == [] then []
    else [NewContextError(atts[|atts| - 1].context, atts[|atts| - 1].caller)] + NewestFirst(atts[..|atts| - 1])
  }

  /** Frame k of `NewestFirst(atts)` comes from attachment |atts| - 1 - k. */
  lemma {:induction false} NewestFirstAt(atts: seq<Attachment>, k: nat)
    requires k < |atts|
    ensures NewestFirst(atts)[k] == NewContextError(atts[|atts| - 1 - k].context, atts[|atts| - 1 - k].caller)
    decreases |atts|
  {
    if k > 0 {
      var init := atts[..|atts| - 1];
      NewestFirstAt(init, k - 1);
      assert init[|init| - 1 - (k - 1)] == atts[|atts| - 1 - k];
    }
  }

  /**
    After the attachments `atts`, the chain is their frames, newest first, followed by the
    old frames unchanged and in their old order.
  */
  lemma {:induction false} AttachAllFrames(frames: seq<ContextError>, atts: seq<Attachment>)
    ensures AttachAll(frames, atts) == NewestFirst(atts) + frames
    decreases |atts|
  {
    if atts != [] {
      AttachAllFrames(frames, atts[..|atts| - 1]);
    }
  }

  /**
    After n `context` calls on a fresh chain whose origin is `origin`: n + 1 frames, frame 0
    is the most recent attachment and the last frame is still the origin.
  */
  lemma ContextCallsOnFreshChain(origin: ContextError, atts: seq<Attachment>)
    ensures |AttachAll([origin], atts)| == |atts| + 1
    ensures atts != [] ==>
      AttachAll([origin], atts)[0] == NewContextError(atts[|atts| - 1].context, atts[|atts| - 1].caller)
    ensures AttachAll([origin], atts)[|atts|] == origin
  {
    AttachAllFrames([origin], atts);
    if atts != [] {
      NewestFirstAt(atts, 0);
    }
  }

  /**
    `lerror::Error`: the frames, newest first. Created with one frame; `Context` pushes onto
    the front; nothing removes a frame, so `Valid` (never empty) always holds.
  */
  class Error {
    var inner: seq<ContextError>

    ghost predicate Valid()
      reads this
    {
      inner != []
    }

    /** `Error::from_display`: a fresh list holding the single origin frame. */
    constructor FromDisplay(message: string, caller: Location)
      ensures Valid()
      ensures inner == [NewContextError(message, caller)]
    {
      var l: seq<ContextError> := [];
      l := [NewContextError(message, caller)] + l;
      inner := l;
    }

    /** `Error::msg`: the same as `from_display`. */
    static method Msg(message: string, caller: Location) returns (e: Error)
      ensures fresh(e) && e.Valid()
      ensures e.inner == [NewContextError(message, caller)]
    {
      e := new Error.FromDisplay(message, caller);
    }

    /**
      `Error::new`: wraps a foreign error by its Display text only (`display` stands for its
      `Display` impl); no reference to the foreign error is kept.
    */
    static method New<E>(error: E, display: E -> string, caller: Location) returns (e: Error)
      ensures fresh(e) && e.Valid()
      ensures e.inner == [NewContextError(display(error), caller)]
    {
      e := new Error.FromDisplay(display(error), caller);
    }

    /** `Error::context`: one new frame in front; every older frame stays, in order, behind it. */
    method Context(c: string, caller: Location)
      modifies this
      ensures Valid()
      ensures |inner| == |old(inner)| + 1
      ensures inner[0] == NewContextError(c, caller) && inner[1..] == old(inner)
      ensures inner == Attach(old(inner), Attachment(c, caller))
    {
      inner := [NewContextError(c, caller)] + inner;
    }
  }
}
