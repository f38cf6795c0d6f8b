/**
  The `#[lerror_trace]` attribute of lerror-macros/src/lib.rs.

  The attribute parses the function it is put on, rewrites every `expr?` in it into
  `expr.context("")?` unless `expr` is already a method call named `context`, and emits the
  function again. The rewrite is a visitor that, at each `?`, first rewrites the operand and
  then decides on the rewritten operand. Expressions are a small syntax tree: the shapes the
  visitor treats differently (a `?`, a method call, a macro invocation whose tokens it does
  not look into) and enough other shapes to nest them.
*/
module TryRewriter {

  /** A Rust expression, as far as the rewrite is concerned. */
  datatype Expr =
    | Lit(value: string)                                         // a literal; `Lit("")` is `""`
    | Path(name: string)                                         // a variable or item path
    | Call(callee: Expr, args: seq<Expr>)                        // `callee(args)`
    | MethodCall(receiver: Expr, methodName: string, args: seq<Expr>) // `receiver.method(args)`
    | Try(operand: Expr)                                         // `operand?`
    | Paren(inner: Expr)                                         // `(inner)`
    | Binary(op: string, left: Expr, right: Expr)                // `left op right`
    | Block(stmts: seq<Expr>)                                    // `{ stmts }`
    | Closure(params: seq<string>, body: Expr)                   // `|params| body`
    | Macro(path: string, tokens: string)                        // `path!(tokens)`, tokens unparsed

  /** The test of the visitor: the operand is a method call whose method is named `context`. */
  predicate IsContextCall(e: Expr) {
    e.MethodCall? && e.methodName == "context"
  }

  /** `#inner_expr.context("")`: the operand with an empty context attached. */
  function ContextWrap(operand: Expr): (r: Expr)
    ensures IsContextCall(r) && r.receiver == operand && r.args == [Lit("")]
  {
    MethodCall(operand, "context", [Lit("")])
  }

  /**
    `TryTransformer`: children first; then, at a `?`, the rewritten operand is kept if it is a
    `context` call and wrapped in `.context("")` otherwise. Macro tokens are not visited.
  */
  function Rewrite(e: Expr): (r: Expr)
    ensures IsContextCall(r) <==> IsContextCall(e)
    ensures r.Try? <==> e.Try?
    ensures Traced(r)
    decreases e, 1
  {
    match e
    case Lit(_) => e
    case Path(_) => e
    case Macro(_, _) => e
    case Call(callee, args) => Call(Rewrite(callee), RewriteSeq(args))
    case MethodCall(receiver, m, args) => MethodCall(Rewrite(receiver), m, RewriteSeq(args))
    case Paren(inner) => Paren(Rewrite(inner))
    case Binary(op, left, right) => Binary(op, Rewrite(left), Rewrite(right))
    case Block(stmts) => Block(RewriteSeq(stmts))
    case Closure(params, body) => Closure(params, Rewrite(body))
    case Try(operand) =>
      var visited := Rewrite(operand);
      if IsContextCall(visited) then Try(visited) else Try(ContextWrap(visited))
  }

  /** The rewrite of each expression of a list, in place. */
  function RewriteSeq(es: seq<Expr>): (rs: seq<Expr>)
    ensures |rs| == |es|
    ensures forall i :: 0 <= i < |es| ==> rs[i] == Rewrite(es[i])
    ensures TracedSeq(rs)
    decreases es, 0
  {
    if es == [] then [] else [Rewrite(es[0])] + RewriteSeq(es[1..])
  }

  /** Every visible `?` has a `context` call as its operand. */
  predicate Traced(e: Expr)
    decreases e, 1
  {
    match e
    case Lit(_) => true
    case Path(_) => true
    case Macro(_, _) => true
    case Call(callee, args) => Traced(callee) && TracedSeq(args)
    case MethodCall(receiver, _, args) => Traced(receiver) && TracedSeq(args)
    case Paren(inner) => Traced(inner)
    case Binary(_, left, right) => Traced(left) && Traced(right)
    case Block(stmts) => TracedSeq(stmts)
    case Closure(_, body) => Traced(body)
    case Try(operand) => IsContextCall(operand) && Traced(operand)
  }

  predicate TracedSeq(es: seq<Expr>)
    decreases es, 0
  {
    es == [] || (Traced(es[0]) && TracedSeq(es[1..]))
  }

  /** The number of visible `?` operators. */
  function CountTry(e: Expr): nat
    decreases e, 1
  {
    match e
    case Lit(_) => 0
    case Path(_) => 0
    case Macro(_, _) => 0
    case Call(callee, args) => CountTry(callee) + CountTrySeq(args)
    case MethodCall(receiver, _, args) => CountTry(receiver) + CountTrySeq(args)
    case Paren(inner) => CountTry(inner)
    case Binary(_, left, right) => CountTry(left) + CountTry(right)
    case Block(stmts) => CountTrySeq(stmts)
    case Closure(_, body) => CountTry(body)
    case Try(operand) => 1 + CountTry(operand)
  }

  function CountTrySeq(es: seq<Expr>): nat
    decreases es, 0
  {
    if es == [] then 0 else CountTry(es[0]) + CountTrySeq(es[1..])
  }

  /** The tree with every `.context("")` that is directly the operand of a `?` taken away. */
  function Strip(e: Expr): Expr
    decreases e, 1
  {
    match e
    case Lit(_) => e
    case Path(_) => e
    case Macro(_, _) => e
    case Call(callee, args) => Call(Strip(callee), StripSeq(args))
    case MethodCall(receiver, m, args) => MethodCall(Strip(receiver), m, StripSeq(args))
    case Paren(inner) => Paren(Strip(inner))
    case Binary(op, left, right) => Binary(op, Strip(left), Strip(right))
    case Block(stmts) => Block(StripSeq(stmts))
    case Closure(params, body) => Closure(params, Strip(body))
    case Try(operand) =>
      if operand.MethodCall? && operand.methodName == "context" && operand.args == [Lit("")]
      then Try(Strip(operand.receiver))
      else Try(Strip(operand))
  }

  function StripSeq(es: seq<Expr>): seq<Expr>
    decreases es, 0
  {
    if es == [] then [] else [Strip(es[0])] + StripSeq(es[1..])
  }

  /** The rewrite deciding on each operand before rewriting it, instead of after. */
  function RewritePre(e: Expr): Expr
    decreases e, 1
  {
    match e
    case Lit(_) => e
    case Path(_) => e
    case Macro(_, _) => e
    case Call(callee, args) => Call(RewritePre(callee), RewritePreSeq(args))
    case MethodCall(receiver, m, args) => MethodCall(RewritePre(receiver), m, RewritePreSeq(args))
    case Paren(inner) => Paren(RewritePre(inner))
    case Binary(op, left, right) => Binary(op, RewritePre(left), RewritePre(right))
    case Block(stmts) => Block(RewritePreSeq(stmts))
    case Closure(params, body) => Closure(params, RewritePre(body))
    case Try(operand) =>
      if IsContextCall(operand) then Try(RewritePre(operand)) else Try(ContextWrap(RewritePre(operand)))
  }

  function RewritePreSeq(es: seq<Expr>): seq<Expr>
    decreases es, 0
  {
    if es == [] then [] else [RewritePre(es[0])] + RewritePreSeq(es[1..])
  }

  // ----- Properties of the rewrite -----

  /** A tree whose every `?` already has a `context` operand is left as it is. */
  lemma {:induction false} RewriteFixpoint(e: Expr)
    requires Traced(e)
    ensures Rewrite(e) == e
    decreases e, 1
  {
    match e
    case Lit(_) =>
    case Path(_) =>
    case Macro(_, _) =>
    case Call(callee, args) => RewriteFixpoint(callee); RewriteSeqFixpoint(args);
    case MethodCall(receiver, _, args) => RewriteFixpoint(receiver); RewriteSeqFixpoint(args);
    case Paren(inner) => RewriteFixpoint(inner);
    case Binary(_, left, right) => RewriteFixpoint(left); RewriteFixpoint(right);
    case Block(stmts) => RewriteSeqFixpoint(stmts);
    case Closure(_, body) => RewriteFixpoint(body);
    case Try(operand) => RewriteFixpoint(operand);
  }

  lemma {:induction false} RewriteSeqFixpoint(es: seq<Expr>)
    requires TracedSeq(es)
    ensures RewriteSeq(es) == es
    decreases es, 0
  {
    if es != [] {
      RewriteFixpoint(es[0]);
      RewriteSeqFixpoint(es[1..]);
      assert es == [es[0]] + es[1..];
    }
  }

  /** Rewriting twice gives the same tree as rewriting once. */
  lemma RewriteIdempotent(e: Expr)
    ensures Rewrite(Rewrite(e)) == Rewrite(e)
  {
    RewriteFixpoint(Rewrite(e));
  }

  /** The rewrite changes a tree exactly when some `?` in it lacks a `context` operand. */
  lemma RewriteChangesIffUntraced(e: Expr)
    ensures Rewrite(e) == e <==> Traced(e)
  {
    if Traced(e) {
      RewriteFixpoint(e);
    }
  }

  /** The rewrite neither adds nor removes a `?`. */
  lemma {:induction false} RewriteCountsTry(e: Expr)
    ensures CountTry(Rewrite(e)) == CountTry(e)
    decreases e, 1
  {
    match e
    case Lit(_) =>
    case Path(_) =>
    case Macro(_, _) =>
    case Call(callee, args) => RewriteCountsTry(callee); RewriteSeqCountsTry(args);
    case MethodCall(receiver, _, args) => RewriteCountsTry(receiver); RewriteSeqCountsTry(args);
    case Paren(inner) => RewriteCountsTry(inner);
    case Binary(_, left, right) => RewriteCountsTry(left); RewriteCountsTry(right);
    case Block(stmts) => RewriteSeqCountsTry(stmts);
    case Closure(_, body) => RewriteCountsTry(body);
    case Try(operand) =>
      RewriteCountsTry(operand);
      var visited := Rewrite(operand);
      assert CountTrySeq([Lit("")]) == 0;
      assert CountTry(ContextWrap(visited)) == CountTry(visited);
  }

  lemma {:induction false} RewriteSeqCountsTry(es: seq<Expr>)
    ensures CountTrySeq(RewriteSeq(es)) == CountTrySeq(es)
    decreases es, 0
  {
    if es != [] {
      RewriteCountsTry(es[0]);
      RewriteSeqCountsTry(es[1..]);
      assert RewriteSeq(es)[1..] == RewriteSeq(es[1..]);
    }
  }

  /**
    The rewrite changes nothing but `.context("")` under `?`: removing every `.context("")` directly
    under a `?` from the input and from the output gives the same tree.
  */
  lemma {:induction false} RewriteOnlyInserts(e: Expr)
    ensures Strip(Rewrite(e)) == Strip(e)
    decreases e, 1
  {
    match e
    case Lit(_) =>
    case Path(_) =>
    case Macro(_, _) =>
    case Call(callee, args) => RewriteOnlyInserts(callee); RewriteSeqOnlyInserts(args);
    case MethodCall(receiver, _, args) => RewriteOnlyInserts(receiver); RewriteSeqOnlyInserts(args);
    case Paren(inner) => RewriteOnlyInserts(inner);
    case Binary(_, left, right) => RewriteOnlyInserts(left); RewriteOnlyInserts(right);
    case Block(stmts) => RewriteSeqOnlyInserts(stmts);
    case Closure(_, body) => RewriteOnlyInserts(body);
    case Try(operand) =>
      RewriteOnlyInserts(operand);
      var visited := Rewrite(operand);
      if IsContextCall(operand) {
        if operand.args == [Lit("")] {
          RewriteOnlyInserts(operand.receiver);
          assert visited.args == RewriteSeq([Lit("")]);
          assert RewriteSeq([Lit("")]) == [Lit("")];
          assert visited.receiver == Rewrite(operand.receiver);
        } else {
          assert visited.args == RewriteSeq(operand.args);
          RewriteSeqKeepsEmptyContext(operand.args);
        }
      }
  }

  /** A list of arguments is `[""]` after the rewrite exactly when it was before. */
  lemma RewriteSeqKeepsEmptyContext(args: seq<Expr>)
    ensures RewriteSeq(args) == [Lit("")] <==> args == [Lit("")]
  {
    if |args| == 1 {
      assert RewriteSeq(args)[0] == Rewrite(args[0]);
    }
  }

  lemma {:induction false} RewriteSeqOnlyInserts(es: seq<Expr>)
    ensures StripSeq(RewriteSeq(es)) == StripSeq(es)
    decreases es, 0
  {
    if es != [] {
      RewriteOnlyInserts(es[0]);
      RewriteSeqOnlyInserts(es[1..]);
      assert RewriteSeq(es)[1..] == RewriteSeq(es[1..]);
    }
  }

  /**
    Deciding on each operand before or after rewriting it gives the same tree: the rewrite
    keeps whether an expression is a `context` call.
  */
  lemma {:induction false} RewriteOrderIrrelevant(e: Expr)
    ensures RewritePre(e) == Rewrite(e)
    decreases e, 1
  {
    match e
    case Lit(_) =>
    case Path(_) =>
    case Macro(_, _) =>
    case Call(callee, args) => RewriteOrderIrrelevant(callee); RewriteSeqOrderIrrelevant(args);
    case MethodCall(receiver, _, args) => RewriteOrderIrrelevant(receiver); RewriteSeqOrderIrrelevant(args);
    case Paren(inner) => RewriteOrderIrrelevant(inner);
    case Binary(_, left, right) => RewriteOrderIrrelevant(left); RewriteOrderIrrelevant(right);
    case Block(stmts) => RewriteSeqOrderIrrelevant(stmts);
    case Closure(_, body) => RewriteOrderIrrelevant(body);
    case Try(operand) => RewriteOrderIrrelevant(operand);
  }

  lemma {:induction false} RewriteSeqOrderIrrelevant(es: seq<Expr>)
    ensures RewritePreSeq(es) == RewriteSeq(es)
    decreases es, 0
  {
    if es != [] {
      RewriteOrderIrrelevant(es[0]);
      RewriteSeqOrderIrrelevant(es[1..]);
    }
  }

  /** The skip rule: a `?` on a `context` call keeps its operand, rewritten inside. */
  lemma SkipRule(operand: Expr)
    requires IsContextCall(operand)
    ensures Rewrite(Try(operand)) == Try(MethodCall(Rewrite(operand.receiver), "context", RewriteSeq(operand.args)))
  {
  }

  /** The wrap rule: any other `?` gets `.context("")` on its rewritten operand. */
  lemma WrapRule(operand: Expr)
    requires !IsContextCall(operand)
    ensures Rewrite(Try(operand)) == Try(MethodCall(Rewrite(operand), "context", [Lit("")]))
  {
  }

  /** Only the method's name is looked at: `.with_context(f)?` still gets `.context("")`. */
  lemma WithContextIsWrapped(receiver: Expr, args: seq<Expr>)
    ensures Rewrite(Try(MethodCall(receiver, "with_context", args))) ==
      Try(ContextWrap(MethodCall(Rewrite(receiver), "with_context", RewriteSeq(args))))
  {
  }

  /** A free function named `context` is not a method call: `context(x)?` gets `.context("")`. */
  lemma FreeContextCallIsWrapped(args: seq<Expr>)
    ensures Rewrite(Try(Call(Path("context"), args))) == Try(ContextWrap(Call(Path("context"), RewriteSeq(args))))
  {
    var call := Call(Path("context"), args);
    assert Rewrite(call) == Call(Rewrite(Path("context")), RewriteSeq(args));
    assert !IsContextCall(Rewrite(call));
  }

  /** In `x??` the inner `?` is rewritten first, then the outer one is wrapped as well. */
  lemma DoubleTry(x: Expr)
    requires !IsContextCall(x)
    ensures Rewrite(Try(Try(x))) == Try(ContextWrap(Try(ContextWrap(Rewrite(x)))))
  {
  }

  /** The tokens of a macro invocation are not visited: a `?` inside `bail!(..)` stays as written. */
  lemma MacroUntouched(path: string, tokens: string)
    ensures Rewrite(Macro(path, tokens)) == Macro(path, tokens)
  {
  }

  // ----- The attribute -----

  /** A function item: its attributes, signature and body statements. */
  datatype ItemFn = ItemFn(attrs: seq<string>, signature: string, block: seq<Expr>)

  /** `transform_try_operators`: the body rewritten, the rest of the item as it was. */
  function TransformTryOperators(f: ItemFn): (r: ItemFn)
    ensures r.attrs == f.attrs && r.signature == f.signature && |r.block| == |f.block|
    ensures TracedSeq(r.block)
  {
    f.(block := RewriteSeq(f.block))
  }

  /** `#[lerror_trace(attr)]` on `input`: the argument is ignored and the item is emitted rewritten. */
  function LerrorTrace(attr: string, input: ItemFn): (output: ItemFn)
    ensures output.attrs == input.attrs && output.signature == input.signature
    ensures |output.block| == |input.block|
    ensures forall i :: 0 <= i < |input.block| ==> output.block[i] == Rewrite(input.block[i])
  {
    TransformTryOperators(input)
  }

  /** The attribute's argument makes no difference. */
  lemma AttributeIgnored(attr1: string, attr2: string, input: ItemFn)
    ensures LerrorTrace(attr1, input) == LerrorTrace(attr2, input)
  {
  }

  /** Putting the attribute on an already rewritten function changes nothing more. */
  lemma LerrorTraceIdempotent(attr1: string, attr2: string, input: ItemFn)
    ensures LerrorTrace(attr2, LerrorTrace(attr1, input)) == LerrorTrace(attr1, input)
  {
    RewriteSeqFixpoint(LerrorTrace(attr1, input).block);
  }

  /** The rewrite keeps the number of `?` of every statement of the body. */
  lemma LerrorTraceCountsTry(attr: string, input: ItemFn)
    ensures CountTrySeq(LerrorTrace(attr, input).block) == CountTrySeq(input.block)
  {
    RewriteSeqCountsTry(input.block);
  }

  // ----- The functions of lerror/tests/test.rs -----

  /** `fn a`: `b()?; bail!(..)`. The call `b()` has no context, so it gets one. */
  lemma BodyOfA(bail: Expr)
    requires bail.Macro?
    ensures RewriteSeq([Try(Call(Path("b"), [])), bail]) ==
      [Try(MethodCall(Call(Path("b"), []), "context", [Lit("")])), bail]
  {
    assert RewriteSeq([bail]) == [bail];
  }

  /** `fn b`: `c().context("file not found")?; bail!(..)`. Already a `context` call: unchanged. */
  lemma BodyOfB(bail: Expr)
    requires bail.Macro?
    ensures RewriteSeq([Try(MethodCall(Call(Path("c"), []), "context", [Lit("file not found")])), bail]) ==
      [Try(MethodCall(Call(Path("c"), []), "context", [Lit("file not found")])), bail]
  {
    var body := [Try(MethodCall(Call(Path("c"), []), "context", [Lit("file not found")])), bail];
    assert body[1..] == [bail] && [bail][1..] == [];
    assert TracedSeq([bail]);
    assert [Lit("file not found")][1..] == [];
    assert TracedSeq([Lit("file not found")]);
    assert Traced(body[0]);
    RewriteSeqFixpoint(body);
  }

  /** `fn c`: only `bail!(..)`, which is not looked into. */
  lemma BodyOfC(bail: Expr)
    requires bail.Macro?
    ensures RewriteSeq([bail]) == [bail]
  {
  }
}
