/** The NormalizeVariableName pre-pass: renames the binders of For, Let and
    LetStmt and every Variable through print_name, and rebuilds nothing else. */
module Normalize {
  import opened Outcomes
  import opened Ir
  import opened Names

  function NormExprs(es: seq<Expr>): (r: seq<Expr>)
    ensures |r| == |es|
    ensures forall i :: 0 <= i < |es| ==> r[i] == NormExpr(es[i])
    decreases es, 0
  {
    seq(|es|, i requires 0 <= i < |es| => NormExpr(es[i]))
  }

  function NormExpr(e: Expr): Expr
    decreases e, 1
  {
    match e
    case IntImm(_, _) => e
    case UIntImm(_, _) => e
    case FloatImm(_) => e
    case StringImm(_) => e
    case Cast(t, v) => Cast(t, NormExpr(v))
    case Variable(t, n, p, i) => Variable(t, Normalized(n), p, i)
    case Binary(op, a, b) => Binary(op, NormExpr(a), NormExpr(b))
    case Min(a, b) => Min(NormExpr(a), NormExpr(b))
    case Max(a, b) => Max(NormExpr(a), NormExpr(b))
    case Not(a) => Not(NormExpr(a))
    case Select(c, tv, fv) => Select(NormExpr(c), NormExpr(tv), NormExpr(fv))
    case Load(t, n, idx) => Load(t, n, NormExpr(idx))
    case Ramp(b, s, l) => Ramp(NormExpr(b), NormExpr(s), l)
    case Broadcast(v, l) => Broadcast(NormExpr(v), l)
    case Let(n, v, b) => Let(Normalized(n), NormExpr(v), NormExpr(b))
    case Call(t, n, ct, args) => Call(t, n, ct, NormExprs(args))
  }

  function NormRanges(bs: seq<Range>): (r: seq<Range>)
    ensures |r| == |bs|
  {
    seq(|bs|, i requires 0 <= i < |bs| => Range(NormExpr(bs[i].min), NormExpr(bs[i].extent)))
  }

  function NormStmt(s: Stmt): Stmt {
    match s
    case LetStmt(n, v, b) => LetStmt(Normalized(n), NormExpr(v), NormStmt(b))
    case AssertStmt(c, m) => AssertStmt(NormExpr(c), NormExpr(m))
    case ProducerConsumer(n, p, b) => ProducerConsumer(n, p, NormStmt(b))
    case For(n, mn, ex, ft, b) => For(Normalized(n), NormExpr(mn), NormExpr(ex), ft, NormStmt(b))
    case Store(n, v, idx) => Store(n, NormExpr(v), NormExpr(idx))
    case Provide(n, vs, args) => Provide(n, NormExprs(vs), NormExprs(args))
    case Allocate(n, t, exts, b) => Allocate(n, t, NormExprs(exts), NormStmt(b))
    case Free(n) => s
    case Realize(n, ts, bs, c, b) => Realize(n, ts, NormRanges(bs), NormExpr(c), NormStmt(b))
    case Block(f, r) => Block(NormStmt(f), if r.Some? then Some(NormStmt(r.value)) else None)
    case IfThenElse(c, t, e) => IfThenElse(NormExpr(c), NormStmt(t), if e.Some? then Some(NormStmt(e.value)) else None)
    case Evaluate(v) => Evaluate(NormExpr(v))
  }

  /** Every name the pre-pass rewrites is already normal. */
  predicate NormalExpr(e: Expr) {
    match e
    case IntImm(_, _) => true
    case UIntImm(_, _) => true
    case FloatImm(_) => true
    case StringImm(_) => true
    case Cast(_, v) => NormalExpr(v)
    case Variable(_, n, _, _) => IsNormalName(n)
    case Binary(_, a, b) => NormalExpr(a) && NormalExpr(b)
    case Min(a, b) => NormalExpr(a) && NormalExpr(b)
    case Max(a, b) => NormalExpr(a) && NormalExpr(b)
    case Not(a) => NormalExpr(a)
    case Select(c, tv, fv) => NormalExpr(c) && NormalExpr(tv) && NormalExpr(fv)
    case Load(_, _, idx) => NormalExpr(idx)
    case Ramp(b, s, _) => NormalExpr(b) && NormalExpr(s)
    case Broadcast(v, _) => NormalExpr(v)
    case Let(n, v, b) => IsNormalName(n) && NormalExpr(v) && NormalExpr(b)
    case Call(_, _, _, args) => forall i :: 0 <= i < |args| ==> NormalExpr(args[i])
  }

  predicate NormalExprs(es: seq<Expr>) {
    forall i :: 0 <= i < |es| ==> NormalExpr(es[i])
  }

  predicate NormalStmt(s: Stmt) {
    match s
    case LetStmt(n, v, b) => IsNormalName(n) && NormalExpr(v) && NormalStmt(b)
    case AssertStmt(c, m) => NormalExpr(c) && NormalExpr(m)
    case ProducerConsumer(_, _, b) => NormalStmt(b)
    case For(n, mn, ex, _, b) => IsNormalName(n) && NormalExpr(mn) && NormalExpr(ex) && NormalStmt(b)
    case Store(_, v, idx) => NormalExpr(v) && NormalExpr(idx)
    case Provide(_, vs, args) => NormalExprs(vs) && NormalExprs(args)
    case Allocate(_, _, exts, b) => NormalExprs(exts) && NormalStmt(b)
    case Free(_) => true
    case Realize(_, _, bs, c, b) =>
      (forall i :: 0 <= i < |bs| ==> NormalExpr(bs[i].min) && NormalExpr(bs[i].extent))
      && NormalExpr(c) && NormalStmt(b)
    case Block(f, r) => NormalStmt(f) && (r.Some? ==> NormalStmt(r.value))
    case IfThenElse(c, t, e) => NormalExpr(c) && NormalStmt(t) && (e.Some? ==> NormalStmt(e.value))
    case Evaluate(v) => NormalExpr(v)
  }

  /** The pre-pass leaves an already normal expression exactly as it is. */
  lemma {:induction false} NormExprFixesNormal(e: Expr)
    requires NormalExpr(e)
    ensures NormExpr(e) == e
  {
    match e
    case Variable(t, n, p, i) => NormalizedFixesNormal(n);
    case Let(n, v, b) => NormalizedFixesNormal(n); NormExprFixesNormal(v); NormExprFixesNormal(b);
    case Cast(_, v) => NormExprFixesNormal(v);
    case Binary(_, a, b) => NormExprFixesNormal(a); NormExprFixesNormal(b);
    case Min(a, b) => NormExprFixesNormal(a); NormExprFixesNormal(b);
    case Max(a, b) => NormExprFixesNormal(a); NormExprFixesNormal(b);
    case Not(a) => NormExprFixesNormal(a);
    case Select(c, tv, fv) => NormExprFixesNormal(c); NormExprFixesNormal(tv); NormExprFixesNormal(fv);
    case Load(_, _, idx) => NormExprFixesNormal(idx);
    case Ramp(b, s, _) => NormExprFixesNormal(b); NormExprFixesNormal(s);
    case Broadcast(v, _) => NormExprFixesNormal(v);
    case Call(t, n, ct, args) =>
      NormExprsFixesNormal(args);
    case _ =>
  }

  lemma {:induction false} NormExprsFixesNormal(es: seq<Expr>)
    requires NormalExprs(es)
    ensures NormExprs(es) == es
    decreases es
  {
    forall i | 0 <= i < |es| ensures NormExprs(es)[i] == es[i] {
      NormExprFixesNormal(es[i]);
    }
  }

  /** Everything the pre-pass produces is normal. */
  lemma {:induction false} NormExprIsNormal(e: Expr)
    ensures NormalExpr(NormExpr(e))
  {
    match e
    case Variable(t, n, p, i) => NormalizedIsNormal(n);
    case Let(n, v, b) => NormalizedIsNormal(n); NormExprIsNormal(v); NormExprIsNormal(b);
    case Cast(_, v) => NormExprIsNormal(v);
    case Binary(_, a, b) => NormExprIsNormal(a); NormExprIsNormal(b);
    case Min(a, b) => NormExprIsNormal(a); NormExprIsNormal(b);
    case Max(a, b) => NormExprIsNormal(a); NormExprIsNormal(b);
    case Not(a) => NormExprIsNormal(a);
    case Select(c, tv, fv) => NormExprIsNormal(c); NormExprIsNormal(tv); NormExprIsNormal(fv);
    case Load(_, _, idx) => NormExprIsNormal(idx);
    case Ramp(b, s, _) => NormExprIsNormal(b); NormExprIsNormal(s);
    case Broadcast(v, _) => NormExprIsNormal(v);
    case Call(t, n, ct, args) => NormExprsIsNormal(args);
    case _ =>
  }

  lemma {:induction false} NormExprsIsNormal(es: seq<Expr>)
    ensures NormalExprs(NormExprs(es))
    decreases es
  {
    forall i | 0 <= i < |es| ensures NormalExpr(NormExprs(es)[i]) {
      NormExprIsNormal(es[i]);
    }
  }

  lemma {:induction false} NormRangesFixesNormal(bs: seq<Range>)
    requires forall i :: 0 <= i < |bs| ==> NormalExpr(bs[i].min) && NormalExpr(bs[i].extent)
    ensures NormRanges(bs) == bs
    decreases bs
  {
    forall i | 0 <= i < |bs| ensures NormRanges(bs)[i] == bs[i] {
      NormExprFixesNormal(bs[i].min);
      NormExprFixesNormal(bs[i].extent);
    }
  }

  lemma {:induction false} NormRangesIsNormal(bs: seq<Range>)
    ensures forall i :: 0 <= i < |bs| ==> NormalExpr(NormRanges(bs)[i].min) && NormalExpr(NormRanges(bs)[i].extent)
    decreases bs
  {
    forall i | 0 <= i < |bs|
      ensures NormalExpr(NormRanges(bs)[i].min) && NormalExpr(NormRanges(bs)[i].extent)
    {
      NormExprIsNormal(bs[i].min);
      NormExprIsNormal(bs[i].extent);
    }
  }

  /** The pre-pass leaves an already normal statement exactly as it is. */
  lemma {:induction false} NormStmtFixesNormal(s: Stmt)
    requires NormalStmt(s)
    ensures NormStmt(s) == s
  {
    match s
    case LetStmt(n, v, b) => NormalizedFixesNormal(n); NormExprFixesNormal(v); NormStmtFixesNormal(b);
    case AssertStmt(c, m) => NormExprFixesNormal(c); NormExprFixesNormal(m);
    case ProducerConsumer(_, _, b) => NormStmtFixesNormal(b);
    case For(n, mn, ex, _, b) =>
      NormalizedFixesNormal(n); NormExprFixesNormal(mn); NormExprFixesNormal(ex); NormStmtFixesNormal(b);
    case Store(_, v, idx) => NormExprFixesNormal(v); NormExprFixesNormal(idx);
    case Provide(_, vs, args) => NormExprsFixesNormal(vs); NormExprsFixesNormal(args);
    case Allocate(_, _, exts, b) => NormExprsFixesNormal(exts); NormStmtFixesNormal(b);
    case Free(_) =>
    case Realize(_, _, bs, c, b) => NormRangesFixesNormal(bs); NormExprFixesNormal(c); NormStmtFixesNormal(b);
    case Block(f, r) =>
      NormStmtFixesNormal(f);
      if r.Some? { NormStmtFixesNormal(r.value); }
    case IfThenElse(c, t, e) =>
      NormExprFixesNormal(c); NormStmtFixesNormal(t);
      if e.Some? { NormStmtFixesNormal(e.value); }
    case Evaluate(v) => NormExprFixesNormal(v);
  }

  /** Every statement the pre-pass produces is normal. */
  lemma {:induction false} NormStmtIsNormal(s: Stmt)
    ensures NormalStmt(NormStmt(s))
  {
    match s
    case LetStmt(n, v, b) => NormalizedIsNormal(n); NormExprIsNormal(v); NormStmtIsNormal(b);
    case AssertStmt(c, m) => NormExprIsNormal(c); NormExprIsNormal(m);
    case ProducerConsumer(_, _, b) => NormStmtIsNormal(b);
    case For(n, mn, ex, _, b) =>
      NormalizedIsNormal(n); NormExprIsNormal(mn); NormExprIsNormal(ex); NormStmtIsNormal(b);
    case Store(_, v, idx) => NormExprIsNormal(v); NormExprIsNormal(idx);
    case Provide(_, vs, args) => NormExprsIsNormal(vs); NormExprsIsNormal(args);
    case Allocate(_, _, exts, b) => NormExprsIsNormal(exts); NormStmtIsNormal(b);
    case Free(_) =>
    case Realize(_, _, bs, c, b) => NormRangesIsNormal(bs); NormExprIsNormal(c); NormStmtIsNormal(b);
    case Block(f, r) =>
      NormStmtIsNormal(f);
      if r.Some? { NormStmtIsNormal(r.value); }
    case IfThenElse(c, t, e) =>
      NormExprIsNormal(c); NormStmtIsNormal(t);
      if e.Some? { NormStmtIsNormal(e.value); }
    case Evaluate(v) => NormExprIsNormal(v);
  }

  /** Running the pre-pass twice is the same as running it once. */
  lemma NormStmtIdempotent(s: Stmt)
    ensures NormStmt(NormStmt(s)) == NormStmt(s)
  {
    NormStmtIsNormal(s);
    NormStmtFixesNormal(NormStmt(s));
  }
}
