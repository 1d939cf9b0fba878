/** The expression visitors: each supported node kind is written as Coli
    expression text, binary operators fully parenthesised. */
module ExprText {
  import opened Outcomes
  import opened Ir
  import opened Text
  import opened TypeMap
  import opened Lets

  /** What the expression visitors read from the lowering state: the current
      indentation (a Select writes it) and the constant and computation registries. */
  datatype Ctx = Ctx(indent: int, constants: set<string>, computations: set<string>)

  function OpText(op: BinOp): string {
    match op
    case Add => " + "
    case Sub => " - "
    case Mul => "*"
    case Div => "/"
    case Mod => " % "
    case EQ => " == "
    case NE => " != "
    case LT => " < "
    case LE => " <= "
    case GT => " > "
    case GE => " >= "
    case And => " && "
    case Or => " || "
  }

  function ArgCount(e: Expr): nat {
    if e.Call? then |e.args| + 1 else 0
  }

  /** The text an expression is written as, or the fault its visitor raises. */
  function Render(ctx: Ctx, e: Expr): Result<string>
    decreases e, ArgCount(e)
  {
    match e
    case Binary(op, a, b) => Pair("(", Render(ctx, a), OpText(op), Render(ctx, b))
    case Min(a, b) => Pair("coli::expr(coli::o_min, ", Render(ctx, a), ", ", Render(ctx, b))
    case Max(a, b) => Pair("coli::expr(coli::o_max, ", Render(ctx, a), ", ", Render(ctx, b))
    case Not(a) => Negated(Render(ctx, a))
    case Select(c, tv, fv) => Conditional(ctx.indent, Render(ctx, c), Render(ctx, tv), Render(ctx, fv))
    case Call(_, n, ct, args) =>
      if ct != Halide && ct != Image then Err(UnsupportedConstruct)
      else if n !in ctx.computations then Err(StructuralPrecondition)
      else Applied(n, RenderArgs(ctx, e, |args|))
    case _ => Leaf(ctx, e)
  }

  /** Literals and variables, and the node kinds the backend refuses. */
  function Leaf(ctx: Ctx, e: Expr): Result<string> {
    match e
    case IntImm(t, v) => Ok("coli::expr(" + IntCast(t.bits) + Decimal(v as int) + ")")
    case UIntImm(t, v) => Ok("coli::expr(" + UIntCast(t.bits) + Decimal(v as int) + ")")
    case FloatImm(t) =>
      // the source writes the member-access text itself, not the value
      if t.bits == 32 then Ok("coli::expr((float)op->value);")
      else if t.bits == 64 then Ok("coli::expr(op->value);")
      else Err(UnsupportedConstruct)
    case Variable(_, n, hasParam, hasImage) =>
      if hasParam || hasImage then Err(UnsupportedConstruct)
      else if n in ctx.constants then Ok(n + "(0)")
      else Ok("coli::idx(\"" + n + "\")")
    case _ => Err(UnsupportedConstruct)
  }

  function Pair(open: string, ra: Result<string>, mid: string, rb: Result<string>): Result<string> {
    var ta :- ra;
    var tb :- rb;
    Ok(open + ta + mid + tb + ")")
  }

  function Negated(ra: Result<string>): Result<string> {
    var ta :- ra;
    Ok("!" + ta)
  }

  function Conditional(indent: int, rc: Result<string>, rt: Result<string>, rf: Result<string>): Result<string> {
    var tc :- rc;
    var tt :- rt;
    var tf :- rf;
    Ok(Spaces(indent) + "coli::expr(coli::o_cond, " + tc + ", " + tt + ", " + tf + ")")
  }

  function Applied(n: string, rargs: Result<string>): Result<string> {
    var ta :- rargs;
    Ok(n + "(" + ta + ")")
  }

  /** The first `n` arguments of a call, each followed by `, ` unless it is the last. */
  function RenderArgs(ctx: Ctx, e: Expr, n: nat): Result<string>
    requires e.Call? && n <= |e.args|
    decreases e, n
  {
    if n == 0 then Ok("")
    else
      var pre :- RenderArgs(ctx, e, n - 1);
      var t :- Render(ctx, e.args[n - 1]);
      Ok(pre + t + (if n - 1 < |e.args| - 1 then ", " else ""))
  }

  /** Once an argument fails, every longer prefix fails with the same fault. */
  lemma {:induction false} RenderArgsFailureSticks(ctx: Ctx, e: Expr, k: nat, n: nat)
    requires e.Call? && k <= n <= |e.args|
    requires RenderArgs(ctx, e, k).Err?
    ensures RenderArgs(ctx, e, n) == RenderArgs(ctx, e, k)
    decreases n
  {
    if k < n {
      RenderArgsFailureSticks(ctx, e, k, n - 1);
    }
  }

  /** The translatable subset: the node kinds the backend accepts, calls only to
      computations already declared, and plain scalar variables. */
  predicate Renderable(computations: set<string>, e: Expr) {
    match e
    case IntImm(_, _) => true
    case UIntImm(_, _) => true
    case FloatImm(t) => t.bits == 32 || t.bits == 64
    case Variable(_, _, hasParam, hasImage) => !hasParam && !hasImage
    case Binary(_, a, b) => Renderable(computations, a) && Renderable(computations, b)
    case Min(a, b) => Renderable(computations, a) && Renderable(computations, b)
    case Max(a, b) => Renderable(computations, a) && Renderable(computations, b)
    case Not(a) => Renderable(computations, a)
    case Select(c, tv, fv) =>
      Renderable(computations, c) && Renderable(computations, tv) && Renderable(computations, fv)
    case Call(_, n, ct, args) =>
      (ct == Halide || ct == Image) && n in computations
      && forall i :: 0 <= i < |args| ==> Renderable(computations, args[i])
    case _ => false
  }

  /** An expression renders exactly when it lies in the translatable subset; in
      particular success never depends on the indentation or the constants. */
  lemma {:induction false} RenderOk(ctx: Ctx, e: Expr)
    ensures Render(ctx, e).Ok? <==> Renderable(ctx.computations, e)
    decreases e, ArgCount(e)
  {
    match e
    case Binary(_, a, b) => RenderOk(ctx, a); RenderOk(ctx, b);
    case Min(a, b) => RenderOk(ctx, a); RenderOk(ctx, b);
    case Max(a, b) => RenderOk(ctx, a); RenderOk(ctx, b);
    case Not(a) => RenderOk(ctx, a);
    case Select(c, tv, fv) => RenderOk(ctx, c); RenderOk(ctx, tv); RenderOk(ctx, fv);
    case Call(_, n, ct, args) =>
      if (ct == Halide || ct == Image) && n in ctx.computations {
        RenderArgsOk(ctx, e, |args|);
      }
    case _ =>
  }

  lemma {:induction false} RenderArgsOk(ctx: Ctx, e: Expr, n: nat)
    requires e.Call? && n <= |e.args|
    ensures RenderArgs(ctx, e, n).Ok? <==> forall i :: 0 <= i < n ==> Renderable(ctx.computations, e.args[i])
    decreases e, n
  {
    if n > 0 {
      calc {
        RenderArgs(ctx, e, n).Ok?;
        { RenderArgsStepOk(ctx, e, n - 1); }
        RenderArgs(ctx, e, n - 1).Ok? && Render(ctx, e.args[n - 1]).Ok?;
        { RenderArgsOk(ctx, e, n - 1); RenderOk(ctx, e.args[n - 1]); }
        (forall i :: 0 <= i < n - 1 ==> Renderable(ctx.computations, e.args[i])) && Renderable(ctx.computations, e.args[n - 1]);
        { PrefixRenderable(ctx.computations, e.args, n - 1); }
        forall i :: 0 <= i < n ==> Renderable(ctx.computations, e.args[i]);
      }
    }
  }

  /** The first n + 1 arguments render exactly when the first n and the last one do. */
  lemma RenderArgsStepOk(ctx: Ctx, e: Expr, n: nat)
    requires e.Call? && n < |e.args|
    ensures RenderArgs(ctx, e, n + 1).Ok? <==> RenderArgs(ctx, e, n).Ok? && Render(ctx, e.args[n]).Ok?
  {
  }

  /** The names of all computations an expression calls. */
  function CalledNames(e: Expr): set<string>
    decreases e, ArgCount(e)
  {
    match e
    case Cast(_, v) => CalledNames(v)
    case Binary(_, a, b) => CalledNames(a) + CalledNames(b)
    case Min(a, b) => CalledNames(a) + CalledNames(b)
    case Max(a, b) => CalledNames(a) + CalledNames(b)
    case Not(a) => CalledNames(a)
    case Select(c, tv, fv) => CalledNames(c) + CalledNames(tv) + CalledNames(fv)
    case Load(_, _, idx) => CalledNames(idx)
    case Ramp(b, s, _) => CalledNames(b) + CalledNames(s)
    case Broadcast(v, _) => CalledNames(v)
    case Let(_, v, b) => CalledNames(v) + CalledNames(b)
    case Call(_, n, _, args) => {n} + CalledNamesFrom(e, |args|)
    case _ => {}
  }

  function CalledNamesFrom(e: Expr, n: nat): set<string>
    requires e.Call? && n <= |e.args|
    decreases e, n
  {
    if n == 0 then {} else CalledNamesFrom(e, n - 1) + CalledNames(e.args[n - 1])
  }

  /** Declaration before use: an expression that renders calls only computations
      already in the registry. */
  lemma {:induction false} RenderedCallsDeclared(ctx: Ctx, e: Expr)
    requires Render(ctx, e).Ok?
    ensures CalledNames(e) <= ctx.computations
    decreases e, ArgCount(e)
  {
    RenderOk(ctx, e);
    RenderableCallsDeclared(ctx.computations, e);
  }

  lemma {:induction false} RenderableCallsDeclared(computations: set<string>, e: Expr)
    requires Renderable(computations, e)
    ensures CalledNames(e) <= computations
    decreases e, ArgCount(e)
  {
    match e
    case Binary(_, a, b) => RenderableCallsDeclared(computations, a); RenderableCallsDeclared(computations, b);
    case Min(a, b) => RenderableCallsDeclared(computations, a); RenderableCallsDeclared(computations, b);
    case Max(a, b) => RenderableCallsDeclared(computations, a); RenderableCallsDeclared(computations, b);
    case Not(a) => RenderableCallsDeclared(computations, a);
    case Select(c, tv, fv) =>
      RenderableCallsDeclared(computations, c);
      RenderableCallsDeclared(computations, tv);
      RenderableCallsDeclared(computations, fv);
    case Call(_, n, _, args) => ArgsCallsDeclared(computations, e, |args|);
    case _ =>
  }

  lemma {:induction false} ArgsCallsDeclared(computations: set<string>, e: Expr, n: nat)
    requires e.Call? && n <= |e.args|
    requires forall i :: 0 <= i < |e.args| ==> Renderable(computations, e.args[i])
    ensures CalledNamesFrom(e, n) <= computations
    decreases e, n
  {
    if n > 0 {
      ArgsCallsDeclared(computations, e, n - 1);
      RenderableCallsDeclared(computations, e.args[n - 1]);
    }
  }

  /** A call to a computation that is not declared is rejected, whatever its arguments. */
  lemma CallNeedsDeclaration(ctx: Ctx, t: Type, n: string, ct: CallType, args: seq<Expr>)
    requires ct == Halide || ct == Image
    ensures Render(ctx, Call(t, n, ct, args)).Ok? ==> n in ctx.computations
    ensures n !in ctx.computations ==> Render(ctx, Call(t, n, ct, args)) == Err(StructuralPrecondition)
  {
  }

  /** print(Expr): the lets are substituted away, then the expression is visited. */
  function Printed(ctx: Ctx, e: Expr): Result<string> {
    Render(ctx, SubstLets(e))
  }

  /** A printed expression is written exactly when its let-free form lies in the
      translatable subset, so the Let visitor's error is never raised through
      print; an expression without lets prints as it renders. */
  lemma PrintedOk(ctx: Ctx, e: Expr)
    ensures Printed(ctx, e).Ok? <==> Renderable(ctx.computations, SubstLets(e))
    ensures LetFree(e) ==> Printed(ctx, e) == Render(ctx, e)
  {
    RenderOk(ctx, SubstLets(e));
    if LetFree(e) {
      SubstLetsFixes(e);
    }
  }

  /** A let over let-free parts prints as its body with the value put in place
      of the bound variable. */
  lemma PrintedLet(ctx: Ctx, n: string, v: Expr, b: Expr)
    requires LetFree(v) && LetFree(b)
    ensures Printed(ctx, Let(n, v, b)) == Render(ctx, Subst(b, n, v))
  {
    SubstLetsFixes(v);
    SubstLetsFixes(b);
  }

  /** Integer literals: the exact value, with a cast naming the width for 8, 16
      and 32 bits and none otherwise. */
  lemma IntLiteral(ctx: Ctx, t: Type, v: int64)
    ensures Render(ctx, IntImm(t, v))
         == Ok("coli::expr(" + (if t.bits in {8, 16, 32} then "(int" + Decimal(t.bits) + "_t)" else "")
               + Decimal(v as int) + ")")
  {
    LiteralCasts(t.bits);
  }

  lemma UIntLiteral(ctx: Ctx, t: Type, v: uint64)
    ensures Render(ctx, UIntImm(t, v))
         == Ok("coli::expr(" + (if t.bits in {8, 16, 32} then "(uint" + Decimal(t.bits) + "_t)" else "")
               + Decimal(v as int) + ")")
  {
    LiteralCasts(t.bits);
  }

  /** The first `n` expressions of a list, each followed by `, ` unless it is the
      last: how a Realize node's extents are written. */
  function RenderList(ctx: Ctx, es: seq<Expr>, n: nat): Result<string>
    requires n <= |es|
  {
    if n == 0 then Ok("")
    else
      var pre :- RenderList(ctx, es, n - 1);
      var t :- Render(ctx, es[n - 1]);
      Ok(pre + t + (if n - 1 < |es| - 1 then ", " else ""))
  }

  /** One more member of a list that renders so far. */
  lemma RenderListStep(ctx: Ctx, es: seq<Expr>, n: nat)
    requires n < |es| && RenderList(ctx, es, n).Ok? && Render(ctx, es[n]).Ok?
    ensures RenderList(ctx, es, n + 1)
        == Ok(RenderList(ctx, es, n).value + Render(ctx, es[n]).value + (if n < |es| - 1 then ", " else ""))
  {
  }

  /** One step of a loop that prints each member of a list with `print`: the
      member's printed text, then `, ` unless it is the last. */
  lemma PrintedListStep(ctx: Ctx, es: seq<Expr>, n: nat, base: string)
    requires n < |es| && RenderList(ctx, SubstLetsAll(es), n).Ok?
    ensures var step := RenderList(ctx, SubstLetsAll(es), n + 1);
      Printed(ctx, es[n]).Err? ==> step == Err(Printed(ctx, es[n]).fault)
    ensures var step := RenderList(ctx, SubstLetsAll(es), n + 1);
      Printed(ctx, es[n]).Ok? ==>
        step.Ok? && base + RenderList(ctx, SubstLetsAll(es), n).value + Printed(ctx, es[n]).value
                    + (if n != |es| - 1 then ", " else "") == base + step.value
  {
    var ss := SubstLetsAll(es);
    assert Printed(ctx, es[n]) == Render(ctx, ss[n]);
    if Printed(ctx, es[n]).Ok? {
      RenderListStep(ctx, ss, n);
      var pre := RenderList(ctx, ss, n).value;
      var t := Printed(ctx, es[n]).value;
      var sep := if n != |es| - 1 then ", " else "";
      assert base + pre + t + sep == base + (pre + t + sep);
    }
  }

  /** Once a member fails, every longer prefix of the list fails with the same fault. */
  lemma {:induction false} RenderListFailureSticks(ctx: Ctx, es: seq<Expr>, k: nat, n: nat)
    requires k <= n <= |es|
    requires RenderList(ctx, es, k).Err?
    ensures RenderList(ctx, es, n) == RenderList(ctx, es, k)
    decreases n
  {
    if k < n {
      RenderListFailureSticks(ctx, es, k, n - 1);
    }
  }

  /** A call's argument list is written exactly as any other expression list. */
  lemma {:induction false} RenderArgsIsList(ctx: Ctx, e: Expr, n: nat)
    requires e.Call? && n <= |e.args|
    ensures RenderArgs(ctx, e, n) == RenderList(ctx, e.args, n)
  {
    if n > 0 {
      RenderArgsIsList(ctx, e, n - 1);
    }
  }

  /** A list renders exactly when each of its members does. */
  lemma {:induction false} RenderListOk(ctx: Ctx, es: seq<Expr>, n: nat)
    requires n <= |es|
    ensures RenderList(ctx, es, n).Ok? <==> forall i :: 0 <= i < n ==> Renderable(ctx.computations, es[i])
  {
    if n > 0 {
      calc {
        RenderList(ctx, es, n).Ok?;
        { RenderListStepOk(ctx, es, n - 1); }
        RenderList(ctx, es, n - 1).Ok? && Render(ctx, es[n - 1]).Ok?;
        { RenderListOk(ctx, es, n - 1); RenderOk(ctx, es[n - 1]); }
        (forall i :: 0 <= i < n - 1 ==> Renderable(ctx.computations, es[i])) && Renderable(ctx.computations, es[n - 1]);
        { PrefixRenderable(ctx.computations, es, n - 1); }
        forall i :: 0 <= i < n ==> Renderable(ctx.computations, es[i]);
      }
    }
  }

  /** A list of n + 1 members renders exactly when its first n and its last one do. */
  lemma RenderListStepOk(ctx: Ctx, es: seq<Expr>, n: nat)
    requires n < |es|
    ensures RenderList(ctx, es, n + 1).Ok? <==> RenderList(ctx, es, n).Ok? && Render(ctx, es[n]).Ok?
  {
  }

  lemma PrefixRenderable(computations: set<string>, es: seq<Expr>, n: nat)
    requires n < |es|
    ensures (forall i :: 0 <= i < n + 1 ==> Renderable(computations, es[i]))
        <==> (forall i :: 0 <= i < n ==> Renderable(computations, es[i])) && Renderable(computations, es[n])
  {
  }

  /** A fully rendered list is the members' texts joined by `, `. */
  lemma {:induction false} RenderListJoined(ctx: Ctx, es: seq<Expr>, ts: seq<string>, n: nat)
    requires n <= |es| == |ts|
    requires forall i :: 0 <= i < |es| ==> Render(ctx, es[i]) == Ok(ts[i])
    ensures RenderList(ctx, es, n) == Ok(JoinedPrefix(ts, ", ", n))
  {
    if n > 0 {
      RenderListJoined(ctx, es, ts, n - 1);
      JoinedPrefixStep(ts, ", ", n - 1);
      assert RenderList(ctx, es, n)
          == Ok(JoinedPrefix(ts, ", ", n - 1) + ts[n - 1] + (if n - 1 < |es| - 1 then ", " else ""));
    } else {
      assert ts[..0] == [];
      assert JoinedPrefix(ts, ", ", 0) == "";
      assert RenderList(ctx, es, 0) == Ok("");
    }
  }
}
