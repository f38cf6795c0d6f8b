/**
  The crate root of lerror (lerror/src/lib.rs): the `Result` alias, the `Ok` helper, the
  `Context` extension on results and the two helpers that macro-generated code calls,
  `__private::format_err` and `__private::must_use`.
*/
module Lerror {
  import opened Wrappers
  import opened ErrorChain

  /** `lerror::Result<T>`, that is `Result<T, lerror::Error>`. */
  datatype Result<T> = Ok(value: T) | Err(error: Error)

  /** `lerror::Ok`: the success value, nothing else. */
  function OkOf<T>(t: T): (r: Result<T>)
    ensures r.Ok? && r.value == t
  {
    Ok(t)
  }

  /**
    `fmt::Arguments` as `format_args!` builds it: the literal pieces of the format string
    and the Display text of each argument that goes between them.
  */
  datatype Arguments = Arguments(pieces: seq<string>, args: seq<string>) {
    /** `format_args!` emits one piece before each argument and at most one piece after the last. */
    predicate WellFormed() {
      |args| <= |pieces| <= |args| + 1
    }
  }

  /** `Arguments::as_str`: the text, when it is a plain literal with nothing interpolated. */
  function AsStr(a: Arguments): Option<string> {
    if a.args == [] && a.pieces == [] then Some("")
    else if a.args == [] && |a.pieces| == 1 then Some(a.pieces[0])
    else None
  }

  /** `fmt::format`: each piece followed by its argument, then the trailing piece if any. */
  function Format(a: Arguments): string
    requires a.WellFormed()
    decreases |a.args|
  {
    if a.args == [] then
      (if a.pieces == [] then "" else a.pieces[0])
    else
      a.pieces[0] + a.args[0] + Format(Arguments(a.pieces[1..], a.args[1..]))
  }

  /** When `as_str` gives a text, it is the text `fmt::format` would produce, and it exists exactly when nothing is interpolated. */
  lemma AsStrIsFormat(a: Arguments)
    requires a.WellFormed()
    ensures AsStr(a).Some? <==> a.args == []
    ensures AsStr(a).Some? ==> AsStr(a).value == Format(a)
  {
  }

  /** The length of a formatted string is the total length of its pieces and its arguments' texts. */
  lemma {:induction false} FormatLength(a: Arguments)
    requires a.WellFormed()
    ensures |Format(a)| == SumLengths(a.pieces) + SumLengths(a.args)
    decreases |a.args|
  {
    if a.args != [] {
      FormatLength(Arguments(a.pieces[1..], a.args[1..]));
      assert a.pieces == [a.pieces[0]] + a.pieces[1..];
      assert a.args == [a.args[0]] + a.args[1..];
      SumLengthsCons(a.pieces[0], a.pieces[1..]);
      SumLengthsCons(a.args[0], a.args[1..]);
    } else if a.pieces != [] {
      assert a.pieces == [a.pieces[0]] + a.pieces[1..];
      SumLengthsCons(a.pieces[0], a.pieces[1..]);
    }
  }

  /**
    Argument `k` is interpolated right after pieces 0 to k and arguments 0 to k - 1: its text
    appears unchanged at that offset.
  */
  lemma {:induction false} FormatArgAt(a: Arguments, k: nat)
    requires a.WellFormed() && k < |a.args|
    ensures SumLengths(a.pieces[..k + 1]) + SumLengths(a.args[..k]) + |a.args[k]| <= |Format(a)|
    ensures var o := SumLengths(a.pieces[..k + 1]) + SumLengths(a.args[..k]);
      Format(a)[o..o + |a.args[k]|] == a.args[k]
    decreases |a.args|
  {
    var rest := Arguments(a.pieces[1..], a.args[1..]);
    var lead := a.pieces[0] + a.args[0];
    assert Format(a) == lead + Format(rest);
    if k == 0 {
      OffsetsStart(a.pieces, a.args);
      assert Format(a)[|a.pieces[0]|..|lead|] == a.args[0];
    } else {
      FormatArgAt(rest, k - 1);
      OffsetsStep(a.pieces, a.args, k + 1, k);
      AfterPrefix(lead, Format(rest), SumLengths(rest.pieces[..k]) + SumLengths(rest.args[..k - 1]), |a.args[k]|);
    }
  }

  /**
    Piece `k` is written right after pieces 0 to k - 1 and arguments 0 to k - 1: it appears
    unchanged at that offset.
  */
  lemma {:induction false} FormatPieceAt(a: Arguments, k: nat)
    requires a.WellFormed() && k < |a.pieces|
    ensures SumLengths(a.pieces[..k]) + SumLengths(a.args[..k]) + |a.pieces[k]| <= |Format(a)|
    ensures var o := SumLengths(a.pieces[..k]) + SumLengths(a.args[..k]);
      Format(a)[o..o + |a.pieces[k]|] == a.pieces[k]
    decreases |a.args|
  {
    if k == 0 {
      assert a.pieces[..0] == [] && a.args[..0] == [];
      if a.args != [] {
        assert Format(a) == a.pieces[0] + (a.args[0] + Format(Arguments(a.pieces[1..], a.args[1..])));
      }
    } else {
      var rest := Arguments(a.pieces[1..], a.args[1..]);
      var lead := a.pieces[0] + a.args[0];
      assert Format(a) == lead + Format(rest);
      FormatPieceAt(rest, k - 1);
      OffsetsStep(a.pieces, a.args, k, k);
      AfterPrefix(lead, Format(rest), SumLengths(rest.pieces[..k - 1]) + SumLengths(rest.args[..k - 1]), |a.pieces[k]|);
    }
  }

  /** The offset of argument 0: the length of piece 0. */
  lemma OffsetsStart(pieces: seq<string>, args: seq<string>)
    requires |pieces| >= 1
    ensures SumLengths(pieces[..1]) + SumLengths(args[..0]) == |pieces[0]|
  {
    assert pieces[..1] == [pieces[0]] + [];
    SumLengthsCons(pieces[0], []);
  }

  /** Offsets into a formatted string, measured after its first piece and first argument. */
  lemma OffsetsStep(pieces: seq<string>, args: seq<string>, i: nat, j: nat)
    requires 1 <= i <= |pieces| && 1 <= j <= |args|
    ensures SumLengths(pieces[..i]) + SumLengths(args[..j]) ==
      |pieces[0] + args[0]| + (SumLengths(pieces[1..][..i - 1]) + SumLengths(args[1..][..j - 1]))
  {
    assert pieces[..i] == [pieces[0]] + pieces[1..][..i - 1];
    SumLengthsCons(pieces[0], pieces[1..][..i - 1]);
    assert args[..j] == [args[0]] + args[1..][..j - 1];
    SumLengthsCons(args[0], args[1..][..j - 1]);
  }

  /** A slice of the part after `x` is the same slice of `x + y`, shifted by |x|. */
  lemma AfterPrefix(x: string, y: string, i: nat, n: nat)
    requires i + n <= |y|
    ensures |x| + i + n <= |x + y|
    ensures (x + y)[|x| + i..|x| + i + n] == y[i..i + n]
  {
  }

  /** The total length of some texts. */
  function SumLengths(ss: seq<string>): nat {
    if ss == [] then 0 else |ss[0]| + SumLengths(ss[1..])
  }

  lemma SumLengthsCons(s: string, ss: seq<string>)
    ensures SumLengths([s] + ss) == |s| + SumLengths(ss)
  {
    assert ([s] + ss)[1..] == ss;
  }

  /**
    `__private::format_err`: a one-frame chain whose message is the literal text when
    `as_str` has one, and the fully formatted string otherwise; either way, the formatted text.
  */
  method FormatErr(args: Arguments, caller: Location) returns (e: Error)
    requires args.WellFormed()
    ensures fresh(e) && e.Valid()
    ensures AsStr(args).Some? ==> e.inner == [NewContextError(AsStr(args).value, caller)]
    ensures e.inner == [NewContextError(Format(args), caller)]
  {
    AsStrIsFormat(args);
    var literal := AsStr(args);
    if literal.Some? {
      e := new Error.FromDisplay(literal.value, caller);
    } else {
      e := new Error.FromDisplay(Format(args), caller);
    }
  }

  /** `__private::must_use`: returns its argument unchanged. */
  function MustUse(error: Error): (r: Error)
    ensures r == error
  {
    error
  }

  /** The objects a result's error lets a method change: its `Error`, if it has one. */
  function ErrorFootprint<T>(r: Result<T>): set<Error> {
    if r.Err? then {r.error} else {}
  }

  /**
    `Context::context` on a `Result<T>`: an `Ok` passes through untouched; an `Err` gets one
    new frame on its chain, and the same result is returned.
  */
  method ResultContext<T>(r: Result<T>, context: string, caller: Location) returns (r': Result<T>)
    requires r.Err? ==> r.error.Valid()
    modifies ErrorFootprint(r)
    ensures r' == r
    ensures r.Err? ==> r.error.Valid() && r.error.inner == Attach(old(r.error.inner), Attachment(context, caller))
  {
    if r.Err? {
      r.error.Context(context, caller);
    }
    r' := r;
  }

  /**
    The closure handed to `with_context` (`FnOnce() -> C`); `calls` counts how often it ran, so
    that a contract can say when it is evaluated.
  */
  class MessageProducer {
    const message: string
    var calls: nat

    constructor (message: string)
      ensures this.message == message && calls == 0
    {
      this.message := message;
      calls := 0;
    }

    method Call() returns (m: string)
      modifies this
      ensures m == message && calls == old(calls) + 1
    {
      m := message;
      calls := calls + 1;
    }
  }

  /**
    `Context::with_context` on a `Result<T>`: like `context`, but the message is produced by
    `f` only once an error does occur; on `Ok` the closure is never called.
  */
  method WithContext<T>(r: Result<T>, f: MessageProducer, caller: Location) returns (r': Result<T>)
    requires r.Err? ==> r.error.Valid()
    modifies f, ErrorFootprint(r)
    ensures r' == r
    ensures f.calls == old(f.calls) + (if r.Err? then 1 else 0)
    ensures r.Err? ==> r.error.Valid() && r.error.inner == Attach(old(r.error.inner), Attachment(f.message, caller))
  {
    if r.Err? {
      var m := f.Call();
      r.error.Context(m, caller);
    }
    r' := r;
  }
}
