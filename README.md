# lerror in Dafny

lerror is a Rust error library. An `Error` is a chain of context frames, newest first. Each frame
holds a message and the file, line and column of the call that attached it. Three things put
frames on a chain:

- the macros `lerror!`, `bail!`, `du!` and `ensure!`;
- `Context::context` and `Context::with_context` on results;
- the `#[lerror_trace]` attribute, which rewrites every `expr?` in a function into
  `expr.context("")?` unless `expr` is already a `.context(..)` call.

`{:?}` prints the chain as a numbered report, one indented block per frame.

The project models these parts:

- `error.dfy` (module `ErrorChain`): frames, the `Error` class and its constructors, and
  `context`, which pushes a new frame onto the front.
- `lib.dfy` (module `Lerror`):
  - `Result` and `Ok`;
  - `Context::context` and `Context::with_context` on `Result<T>`;
  - `__private::format_err` over a model of `fmt::Arguments`;
  - `__private::must_use`.
- `macros.dfy` (module `Macros`): `__lerror!`, `lerror!`, `bail!`, `du!` and the documented
  `ensure!`. Each macro is modelled as the expression it expands to. `Step` says whether the
  macro produced a value or made the enclosing function return early.
- `fmt.dfy` (module `Fmt`):
  - the `Debug` report;
  - the `Indented` writer, as an imperative class over a bounded `Sink`, so that a failing
    write is observable;
  - `Render`, the function that specifies the report.
- `tests.dfy` (module `ReportTests`): the two expected reports of `lerror/tests/test.rs`. The
  errors are built by the `bail!` and `Context` models and written by the `Debug` formatter.
- `rewriter.dfy` (module `TryRewriter`): the `?` rewrite done by `#[lerror_trace]`, on a small
  expression tree.
- `wrappers.dfy`: `Option`.

Location capture (`#[track_caller]` and `Location::caller()`) is an explicit `Location`
argument. The caller passes the call site that Rust would report.

## Model

| member | source | states |
|---|---|---|
| ErrorChain.NewContextError | src/error.rs:19-27 | the frame holds the message's Display text and exactly the caller's file, line and column |
| ErrorChain.NewContextErrorInjective | src/error.rs:19-27 | two frames are equal exactly when their messages and call sites are equal |
| ErrorChain.Attach | src/error.rs:55 | one attachment gives one more frame: the new frame at index 0, and the old frames unchanged behind it |
| ErrorChain.NewestFirstAt | src/error.rs:51-57 | frame k of the attached frames comes from the k-th most recent `context` call |
| ErrorChain.AttachAllFrames | src/error.rs:51-57 | after a sequence of `context` calls, the chain is the new frames newest first, followed by the old chain unchanged |
| ErrorChain.ContextCallsOnFreshChain | src/error.rs:51-68 | after n `context` calls on a fresh error there are n + 1 frames; frame 0 is the latest call and the last frame is still the origin |
| ErrorChain.Error.FromDisplay | src/error.rs:61-68 | a fresh error holds exactly one frame: the message at the caller's location |
| ErrorChain.Error.Msg | src/error.rs:72-77 | `msg` is `from_display`: a fresh one-frame chain |
| ErrorChain.Error.New | src/error.rs:41-46 | a foreign error becomes a fresh one-frame chain holding its Display text |
| ErrorChain.Error.Context | src/error.rs:51-57 | pushes one frame onto the front; the chain stays non-empty and every older frame stays, in order, behind the new one |
| Lerror.OkOf | lerror/src/lib.rs:37-39 | `Ok(t)` is a success that holds `t` |
| Lerror.AsStrIsFormat | lerror/src/lib.rs:62-69 | `as_str` yields a text exactly when nothing is interpolated, and that text is what `fmt::format` produces |
| Lerror.FormatLength | lerror/src/lib.rs:69 | the formatted string is exactly as long as all pieces and argument texts together |
| Lerror.FormatArgAt | lerror/src/lib.rs:69 | argument k's text appears unchanged in the formatted string, right after pieces 0 to k and arguments 0 to k-1 |
| Lerror.FormatPieceAt | lerror/src/lib.rs:69 | literal piece k appears unchanged in the formatted string, right after pieces 0 to k-1 and arguments 0 to k-1 |
| Lerror.FormatErr | lerror/src/lib.rs:61-71 | both branches build a fresh one-frame chain whose message is the formatted text; the literal branch uses the `as_str` text |
| Lerror.MustUse | lerror/src/lib.rs:77-79 | returns its argument unchanged |
| Lerror.ResultContext | lerror/src/lib.rs:24-26 | `Ok` passes through untouched; an `Err` gets exactly one new front frame and is returned as the same result |
| Lerror.WithContext | lerror/src/lib.rs:30-33 | like `context`; the closure runs once on `Err` and never on `Ok` |
| Macros.LerrorInner | lerror/src/macros.rs:198-213 | every arm of `__lerror!` gives a fresh one-frame chain whose message is the literal, the Display text, or the formatted string |
| Macros.LerrorMacro | lerror/src/macros.rs:172-191 | `lerror!` gives the same error as `__lerror!` (`must_use` changes nothing) |
| Macros.Bail | lerror/src/macros.rs:30-40 | `bail!` always returns early, with a fresh one-frame chain built from its arguments |
| Macros.Du | lerror/src/macros.rs:43-62 | on `Ok(v)` the expression is `v` and no frame is added; on `Err(e)` it returns early with `e`, which now has one new front frame holding the `du!` message (empty, given or formatted) |
| Macros.Ensure | lerror/src/macros.rs:99-122 | nothing happens when the condition holds; otherwise it returns early with a fresh one-frame chain whose message is ``Condition failed: `<cond>` `` or the given message |
| Fmt.Sink.WriteStr | lerror/src/fmt.rs:59-65 | appends the whole text and succeeds exactly when it fits; otherwise appends nothing and fails |
| Fmt.Sink.WriteChar | lerror/src/fmt.rs:57 | appends the character and succeeds exactly when it fits |
| Fmt.WroteReportsOverflow | lerror/src/fmt.rs:48-69 | every formatting step reports failure exactly when its text would not fit; errors are propagated, never swallowed |
| Fmt.WroteThen | lerror/src/fmt.rs:53-65 | a successful write followed by another write is one write of both texts, with the second write's outcome |
| Fmt.WroteStops | lerror/src/fmt.rs:53-65 | after a failed write (`?` returns), the whole remaining text counts as not written |
| Fmt.NatToString | lerror/src/fmt.rs:53 | an index prints as at least one decimal digit, with no leading zero |
| Fmt.NatToStringRoundTrip | lerror/src/fmt.rs:53 | reading the printed index back as a decimal number gives the index |
| Fmt.NatToStringWidth | lerror/src/fmt.rs:53 | an index below 10^k prints in at most k digits |
| Fmt.PadLeft | lerror/src/fmt.rs:53 | `{: >5}`: the text right-aligned in at least 5 columns, with spaces on the left and the text unchanged |
| Fmt.Split | lerror/src/fmt.rs:49 | `split('\n')` gives at least one part, and no part contains the separator |
| Fmt.SplitRoundTrip | lerror/src/fmt.rs:49 | joining the parts of `split` with the separator gives back the text |
| Fmt.JoinSplit | lerror/src/fmt.rs:49-66 | the lines of `split`, joined with a glue, are the text with each separator replaced by the glue |
| Fmt.ReplaceSelf | lerror/src/fmt.rs:49-66 | replacing each line break by itself leaves the text unchanged |
| Fmt.ReplaceConcat | lerror/src/fmt.rs:49-66 | replacing line breaks distributes over concatenation |
| Fmt.ReplaceAbsent | lerror/src/fmt.rs:49-66 | a text without line breaks is unchanged |
| Fmt.PrefixAligned | lerror/src/fmt.rs:53-61 | for every index below 100000, the first-line prefix and the 7-space continuation indent have the same width, so continuation lines sit under the first line's text |
| Fmt.IndentedSplitInvariant | lerror/src/fmt.rs:48-66 | the prefix is written once per writer: writing `a` and then `b` gives the same text as writing `a + b` |
| Fmt.IndentedTwoLines | lerror/src/fmt.rs:48-66 | two lines go out as the prefix, the first line, a line break, the continuation indent and the second line |
| Fmt.VerifyThis | lerror/src/fmt.rs:78-79 | `"verify\nthis"` is written as the prefix, `verify`, a line break, the indent and `this`, for any numbering |
| Fmt.IndentedIndexTwo | lerror/src/fmt.rs:77-91 | index 2 gives `"    2: verify\n       this"` |
| Fmt.IndentedIndexTwelve | lerror/src/fmt.rs:94-108 | index 12 gives `"   12: verify\n       this"` |
| Fmt.IndentedNoIndex | lerror/src/fmt.rs:111-125 | no index gives `"    verify\n    this"` |
| Fmt.Indented.constructor | lerror/src/fmt.rs:10-14 | a new writer has not started yet |
| Fmt.Indented.WriteStr | lerror/src/fmt.rs:48-69 | writes the prefix if not yet started, then the text with every line break followed by the indent; succeeds exactly when all of that fits, and marks the writer started |
| Fmt.Indented.WriteLines | lerror/src/fmt.rs:49-66 | the loop over the lines of `split` writes the lead, then the lines joined by a line break and the indent; on failure, what was written is a prefix of that text and the text did not fit |
| Fmt.Indented.WriteLine | lerror/src/fmt.rs:50-65 | one iteration writes the prefix on first use, or a line break and the indent before every later line, and then the line |
| Fmt.LocationTextSingleLine | lerror/src/fmt.rs:18-19 | `file:line:column` contains no line break when the file name has none |
| Fmt.FrameWithoutMessage | lerror/src/fmt.rs:15-20 | when the file name has no line break, a frame with an empty message is one line: prefix, location, line break |
| Fmt.FrameWithMessage | lerror/src/fmt.rs:21-29 | when the file name has no line break, a frame with a message is the location line, then the message, with every line of it under the indent |
| Fmt.RenderShape | lerror/src/fmt.rs:7-33 | a report starts with `lerror::Error\n\n` and, when it has a frame, ends with a line break |
| Fmt.RenderOrder | lerror/src/fmt.rs:9-33 | frame i's text sits after the header and the texts of frames 0 to i-1, in chain order |
| Fmt.WriteFrame | lerror/src/fmt.rs:10-32 | one iteration writes the frame's indented block and then `writeln!` |
| Fmt.DebugFmt | lerror/src/fmt.rs:6-35 | writes exactly the rendered report and succeeds exactly when it fits; on failure, what was written is a prefix of the report |
| ReportTests.FrameLines | lerror/src/fmt.rs:21-29 | a one-line message at an index below 10 is rendered as two lines: the location line and the message line |
| ReportTests.ImageNotFoundFrame | lerror/tests/test.rs:16-19 | the frame that `c` records renders as its two expected lines at index 0 and at index 1 |
| ReportTests.FileNotFoundFrame | lerror/tests/test.rs:12 | the frame that `b` attaches renders as its two expected lines |
| ReportTests.ReportOfC | lerror/tests/test.rs:23-27 | the report of `c()`'s error is the expected three-line string |
| ReportTests.ReportOfB | lerror/tests/test.rs:28-32 | the report of `b()`'s error lists the attached frame first, and is the expected five-line string |
| ReportTests.TestIoError | lerror/tests/test.rs:21-34 | the errors of `c()` (built by `bail!`) and of `b()` (the same error with `.context("file not found")` attached), written by `{:?}`, are exactly the two expected strings |
| ReportTests.DebugString | lerror/tests/test.rs:25 | `format!("{:?}", e)` into a `String` always succeeds and gives exactly the rendered report |
| TryRewriter.ContextWrap | lerror-macros/src/lib.rs:40-42 | the replacement operand is a `context` call on the old operand, with `""` as its argument |
| TryRewriter.Rewrite | lerror-macros/src/lib.rs:27-45 | after the rewrite every `?` has a `context` call as its operand; the rewrite keeps whether an expression is a `context` call and whether it is a `?` |
| TryRewriter.RewriteSeq | lerror-macros/src/lib.rs:29 | lists are rewritten element by element, in place |
| TryRewriter.RewriteFixpoint | lerror-macros/src/lib.rs:32-37 | a tree whose every `?` already has a `context` operand is left as it is |
| TryRewriter.RewriteIdempotent | lerror-macros/src/lib.rs:27-45 | rewriting twice gives the same tree as rewriting once |
| TryRewriter.RewriteChangesIffUntraced | lerror-macros/src/lib.rs:31-44 | the rewrite changes a tree exactly when some `?` in it lacks a `context` operand |
| TryRewriter.RewriteCountsTry | lerror-macros/src/lib.rs:39-44 | the rewrite neither adds nor removes a `?` |
| TryRewriter.RewriteOnlyInserts | lerror-macros/src/lib.rs:39-44 | removing every `.context("")` directly under a `?` from the input and from the output gives the same tree, so the rewrite changes nothing else |
| TryRewriter.RewriteOrderIrrelevant | lerror-macros/src/lib.rs:28-37 | deciding on the original operand gives the same result as deciding on the rewritten one |
| TryRewriter.SkipRule | lerror-macros/src/lib.rs:33-36 | `x.context(m)?` keeps its `context` call; only `x` and `m` are rewritten |
| TryRewriter.WrapRule | lerror-macros/src/lib.rs:39-44 | any other `x?` becomes `x'.context("")?`, where `x'` is `x` rewritten |
| TryRewriter.WithContextIsWrapped | lerror-macros/src/lib.rs:34 | only the method's name is checked: `.with_context(f)?` is still wrapped |
| TryRewriter.FreeContextCallIsWrapped | lerror-macros/src/lib.rs:33 | a free call `context(x)?` is not a method call, so it is wrapped |
| TryRewriter.DoubleTry | lerror-macros/src/lib.rs:28-29 | in `x??` the inner `?` is rewritten first, and then the outer one is wrapped too |
| TryRewriter.MacroUntouched | lerror-macros/src/lib.rs:26-29 | the tokens of a macro invocation are not visited |
| TryRewriter.TransformTryOperators | lerror-macros/src/lib.rs:19-22 | the attributes and signature are kept; the body keeps its length and, afterwards, every `?` in it has a `context` operand |
| TryRewriter.LerrorTrace | lerror-macros/src/lib.rs:6-17 | the emitted function is the input with each body statement rewritten |
| TryRewriter.AttributeIgnored | lerror-macros/src/lib.rs:7 | the attribute's argument makes no difference |
| TryRewriter.LerrorTraceIdempotent | lerror-macros/src/lib.rs:6-17 | applying the attribute to its own output changes nothing |
| TryRewriter.LerrorTraceCountsTry | lerror-macros/src/lib.rs:11 | the function keeps the number of `?` operators in its body |
| TryRewriter.BodyOfA | lerror/tests/test.rs:4-8 | in `a`, `b()?` becomes `b().context("")?`, and `bail!` is untouched |
| TryRewriter.BodyOfB | lerror/tests/test.rs:10-14 | the body of `b` is already a `context` call under `?`, so it is unchanged |
| TryRewriter.BodyOfC | lerror/tests/test.rs:16-19 | the body of `c` is only `bail!`, which is unchanged |

## Left out

- The `Context` impls for `Result<T, E>` and `Option<T>` live in `context.rs`, which is not part of this model. `context` and `with_context` are modelled only on `Result<T, lerror::Error>`, where they push a frame onto the existing chain.
- `lerror!($err)` and `__lerror!($err)` pick a constructor by autoref specialisation (`lerror_kind()`, in the private `kind` module, which is not part of this model). The model wraps every such value by its Display text, as `Error::new` and `Error::msg` both do.
- The token-muncher `ensure!` (`__parse_ensure!`, with its fuel) is not part of this model. `Macros.Ensure` follows the documented four arms at lerror/src/macros.rs:99-122.
- `write!(indented, "{}:{}:{}\n{}", ..)` is modelled as one `write_str` of the formatted string, and `write!(self.inner, "{: >5}: ", n)` as one write of the padded text. `Fmt.IndentedSplitInvariant` shows that splitting the text over several `write_str` calls gives the same output.
- Fmt.Sink.WriteStr: a real `fmt::Write` destination may fail for reasons of its own. The model's only failure is a write that does not fit the sink's capacity. A `String` destination is a sink whose capacity is never reached.
- Fmt.PrefixAligned: alignment is stated only for indices below 100000. Above that, `{: >5}` is wider than the 7-space continuation indent, and the model renders it that way.
- `Display` of `usize` and of `u32` is decimal digits. Machine widths are not modelled; `u32` is a `newtype` over the range.
- TryRewriter.Rewrite: syn's parse of the function and `quote!`'s token output are not modelled; the rewrite works on an already parsed tree. Re-parsing `#inner_expr.context("")` is taken to give the method call on the operand. This holds because the operand of `?` is always a postfix-level expression.
- TryRewriter.LerrorTrace: `visit_item_fn_mut` also walks the attributes, the signature and items nested in the body. Expressions there (such as array lengths in types) are not modelled. Only the statements of the body are rewritten.
- TryRewriter.Expr: struct literals, fields, indexing, `match`, `if`, `let`, loops and other expression forms are not modelled. Each is walked the same way as the forms that are modelled: children first, with no rule of its own.
- The rewrite replaces the operand in place (`*i.expr = new_expr`). The model returns the rewritten tree as a value.
- src/wrapper.rs and tests/test.rs at the repository root are not part of this model.
- The test's expected strings (lerror/tests/test.rs:26 and :31) are each stated as one literal per output line; their concatenation is the same string.
