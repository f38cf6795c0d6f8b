/**
  The macros of lerror/src/macros.rs, each as the expression it expands to. A macro that may
  `return` from the enclosing function yields a `Step`: either the value the expression
  evaluates to, or the error the enclosing function returns early with.
*/
module Macros {
  import opened ErrorChain
  import opened Lerror

  /** How control leaves a macro expansion. */
  datatype Step<T> = Proceed(value: T) | EarlyReturn(error: Error)

  /** The three argument forms of `lerror!`, `__lerror!` and `bail!`. */
  datatype MacroArgs =
    | Literal(literal: Arguments)  // `($msg:literal)`: `format_args!($msg)`, possibly with inline captures
    | Value(display: string)       // `($err:expr)`: a value, wrapped by its Display text
    | Formatted(fmt: Arguments)    // `($fmt:expr, $($arg:tt)*)`: `format!($fmt, ...)`
  {
    predicate WellFormed() {
      match this
      case Literal(a) => a.WellFormed()
      case Value(_) => true
      case Formatted(a) => a.WellFormed()
    }
  }

  /** The message of the one frame a `lerror!` expansion creates. */
  function MacroMessage(a: MacroArgs): string
    requires a.WellFormed()
  {
    match a
    case Literal(args) => Format(args)
    case Value(d) => d
    case Formatted(args) => Format(args)
  }

  /** `__lerror!`: a fresh one-frame chain holding the macro's message. */
  method LerrorInner(a: MacroArgs, caller: Location) returns (e: Error)
    requires a.WellFormed()
    ensures fresh(e) && e.Valid()
    ensures e.inner == [NewContextError(MacroMessage(a), caller)]
  {
    match a
    case Literal(args) =>
      e := FormatErr(args, caller);
    case Value(d) =>
      e := Error.Msg(d, caller);
    case Formatted(args) =>
      e := Error.Msg(Format(args), caller);
  }

  /** `lerror!`: the same error as `__lerror!`; the first two arms only add the identity `must_use`. */
  method LerrorMacro(a: MacroArgs, caller: Location) returns (e: Error)
    requires a.WellFormed()
    ensures fresh(e) && e.Valid()
    ensures e.inner == [NewContextError(MacroMessage(a), caller)]
  {
    match a
    case Literal(args) =>
      var error := FormatErr(args, caller);
      e := MustUse(error);
    case Value(d) =>
      var error := Error.Msg(d, caller);
      e := MustUse(error);
    case Formatted(args) =>
      e := Error.Msg(Format(args), caller);
  }

  /** `bail!`: always returns early, with a fresh one-frame chain built from its arguments. */
  method Bail<T>(a: MacroArgs, caller: Location) returns (s: Step<T>)
    requires a.WellFormed()
    ensures s.EarlyReturn? && fresh(s.error) && s.error.Valid()
    ensures s.error.inner == [NewContextError(MacroMessage(a), caller)]
  {
    var e := LerrorInner(a, caller);
    s := EarlyReturn(e);
  }

  /** The three argument forms of `du!`: no message, a message, or a format string with arguments. */
  datatype DuArgs = NoMessage | Message(text: string) | FormatMessage(fmt: Arguments) {
    predicate WellFormed() {
      FormatMessage? ==> fmt.WellFormed()
    }
  }

  /** The message of the frame `du!` attaches: empty, the given Display text, or the formatted string. */
  function DuMessage(a: DuArgs): string
    requires a.WellFormed()
  {
    match a
    case NoMessage => ""
    case Message(text) => text
    case FormatMessage(args) => Format(args)
  }

  /**
    `du!(r, ...)` on `r: Result<T>`: `Ok(v)` evaluates to `v` with no early return; `Err(e)`
    returns early with `e` carrying exactly one new front frame with the `du!` message.
  */
  method Du<T>(r: Result<T>, a: DuArgs, caller: Location) returns (s: Step<T>)
    requires a.WellFormed()
    requires r.Err? ==> r.error.Valid()
    modifies ErrorFootprint(r)
    ensures r.Ok? ==> s == Proceed(r.value)
    ensures r.Err? ==> s == EarlyReturn(r.error) && r.error.Valid()
    ensures r.Err? ==> r.error.inner == Attach(old(r.error.inner), Attachment(DuMessage(a), caller))
  {
    match r
    case Ok(v) =>
      s := Proceed(v);
    case Err(e) =>
      var r' := ResultContext<T>(Err(e), DuMessage(a), caller);
      s := EarlyReturn(r'.error);
  }

  /** The arguments of the documented `ensure!`: a bare condition (its source text), or a condition and a message. */
  datatype EnsureArgs = Bare(condText: string) | WithMessage(message: MacroArgs) {
    predicate WellFormed() {
      WithMessage? ==> message.WellFormed()
    }
  }

  /** The message of the frame a failed `ensure!` creates. */
  function EnsureMessage(a: EnsureArgs): string
    requires a.WellFormed()
  {
    match a
    case Bare(condText) => "Condition failed: `" + condText + "`"
    case WithMessage(m) => MacroMessage(m)
  }

  /**
    The documented `ensure!(cond, ...)`: nothing happens when `cond` holds; otherwise it returns
    early with a fresh one-frame chain, ``Condition failed: `<cond>` `` for the bare form.
  */
  method Ensure(cond: bool, a: EnsureArgs, caller: Location) returns (s: Step<()>)
    requires a.WellFormed()
    ensures cond ==> s == Proceed(())
    ensures !cond ==> s.EarlyReturn? && fresh(s.error) && s.error.Valid()
    ensures !cond ==> s.error.inner == [NewContextError(EnsureMessage(a), caller)]
  {
    if !cond {
      match a
      case Bare(condText) =>
        var e := Error.Msg("Condition failed: `" + condText + "`", caller);
        return EarlyReturn(e);
      case WithMessage(m) =>
        var e := LerrorInner(m, caller);
        return EarlyReturn(e);
    }
    s := Proceed(());
  }
}
