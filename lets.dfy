/** Halide's substitute_in_all_lets, which the backend applies every time it
    prints an expression or a statement: each Let expression is replaced by its
    body with the bound variable replaced by the value. LetStmt nodes are kept;
    only the expressions inside a statement are rewritten. */
module Lets {
  import opened Outcomes
  import opened Ir

  /** The expression holds no Let node. */
  predicate LetFree(e: Expr) {
    match e
    case Cast(_, v) => LetFree(v)
    case Binary(_, a, b) => LetFree(a) && LetFree(b)
    case Min(a, b) => LetFree(a) && LetFree(b)
    case Max(a, b) => LetFree(a) && LetFree(b)
    case Not(a) => LetFree(a)
    case Select(c, tv, fv) => LetFree(c) && LetFree(tv) && LetFree(fv)
    case Load(_, _, idx) => LetFree(idx)
    case Ramp(b, s, _) => LetFree(b) && LetFree(s)
    case Broadcast(v, _) => LetFree(v)
    case Let(_, _, _) => false
    case Call(_, _, _, args) => forall i :: 0 <= i < |args| ==> LetFree(args[i])
    case _ => true
  }

  predicate LetFreeAll(es: seq<Expr>) {
    forall i :: 0 <= i < |es| ==> LetFree(es[i])
  }

  /** The names of the variables an expression mentions. */
  function VarNames(e: Expr): set<string>
    decreases e, 1
  {
    match e
    case Variable(_, n, _, _) => {n}
    case Cast(_, v) => VarNames(v)
    case Binary(_, a, b) => VarNames(a) + VarNames(b)
    case Min(a, b) => VarNames(a) + VarNames(b)
    case Max(a, b) => VarNames(a) + VarNames(b)
    case Not(a) => VarNames(a)
    case Select(c, tv, fv) => VarNames(c) + VarNames(tv) + VarNames(fv)
    case Load(_, _, idx) => VarNames(idx)
    case Ramp(b, s, _) => VarNames(b) + VarNames(s)
    case Broadcast(v, _) => VarNames(v)
    case Let(_, v, b) => VarNames(v) + VarNames(b)
    case Call(_, _, _, args) => VarNamesAll(args)
    case _ => {}
  }

  function VarNamesAll(es: seq<Expr>): set<string>
    decreases es, 0
  {
    if es == [] then {} else VarNamesAll(es[..|es| - 1]) + VarNames(es[|es| - 1])
  }

  /** Halide's graph_substitute: every variable named `n` becomes `v`; a Let that
      binds `n` again hides its body from the substitution. */
  function Subst(e: Expr, n: string, v: Expr): Expr
    decreases e, 1
  {
    match e
    case Variable(_, m, _, _) => if m == n then v else e
    case Cast(t, x) => Cast(t, Subst(x, n, v))
    case Binary(op, a, b) => Binary(op, Subst(a, n, v), Subst(b, n, v))
    case Min(a, b) => Min(Subst(a, n, v), Subst(b, n, v))
    case Max(a, b) => Max(Subst(a, n, v), Subst(b, n, v))
    case Not(a) => Not(Subst(a, n, v))
    case Select(c, tv, fv) => Select(Subst(c, n, v), Subst(tv, n, v), Subst(fv, n, v))
    case Load(t, m, idx) => Load(t, m, Subst(idx, n, v))
    case Ramp(b, s, l) => Ramp(Subst(b, n, v), Subst(s, n, v), l)
    case Broadcast(x, l) => Broadcast(Subst(x, n, v), l)
    case Let(m, x, b) => Let(m, Subst(x, n, v), if m == n then b else Subst(b, n, v))
    case Call(t, m, ct, args) => Call(t, m, ct, SubstAll(args, n, v))
    case _ => e
  }

  function SubstAll(es: seq<Expr>, n: string, v: Expr): (r: seq<Expr>)
    ensures |r| == |es|
    decreases es, 0
  {
    if es == [] then [] else SubstAll(es[..|es| - 1], n, v) + [Subst(es[|es| - 1], n, v)]
  }

  /** substitute_in_all_lets on an expression: innermost lets first, each one
      replaced by its body with its value substituted in. */
  function SubstLets(e: Expr): Expr
    decreases e, 1
  {
    match e
    case Cast(t, x) => Cast(t, SubstLets(x))
    case Binary(op, a, b) => Binary(op, SubstLets(a), SubstLets(b))
    case Min(a, b) => Min(SubstLets(a), SubstLets(b))
    case Max(a, b) => Max(SubstLets(a), SubstLets(b))
    case Not(a) => Not(SubstLets(a))
    case Select(c, tv, fv) => Select(SubstLets(c), SubstLets(tv), SubstLets(fv))
    case Load(t, m, idx) => Load(t, m, SubstLets(idx))
    case Ramp(b, s, l) => Ramp(SubstLets(b), SubstLets(s), l)
    case Broadcast(x, l) => Broadcast(SubstLets(x), l)
    case Let(m, x, b) => Subst(SubstLets(b), m, SubstLets(x))
    case Call(t, m, ct, args) => Call(t, m, ct, SubstLetsAll(args))
    case _ => e
  }

  function SubstLetsAll(es: seq<Expr>): (r: seq<Expr>)
    ensures |r| == |es| && forall i :: 0 <= i < |es| ==> r[i] == SubstLets(es[i])
    decreases es, 0
  {
    seq(|es|, i requires 0 <= i < |es| => SubstLets(es[i]))
  }

  /** Substituting a let-free value into a let-free expression leaves no Let. */
  lemma {:induction false} SubstKeepsLetFree(e: Expr, n: string, v: Expr)
    requires LetFree(e) && LetFree(v)
    ensures LetFree(Subst(e, n, v))
    decreases e, 1
  {
    match e
    case Cast(_, x) => SubstKeepsLetFree(x, n, v);
    case Binary(_, a, b) => SubstKeepsLetFree(a, n, v); SubstKeepsLetFree(b, n, v);
    case Min(a, b) => SubstKeepsLetFree(a, n, v); SubstKeepsLetFree(b, n, v);
    case Max(a, b) => SubstKeepsLetFree(a, n, v); SubstKeepsLetFree(b, n, v);
    case Not(a) => SubstKeepsLetFree(a, n, v);
    case Select(c, tv, fv) => SubstKeepsLetFree(c, n, v); SubstKeepsLetFree(tv, n, v); SubstKeepsLetFree(fv, n, v);
    case Load(_, _, idx) => SubstKeepsLetFree(idx, n, v);
    case Ramp(b, s, _) => SubstKeepsLetFree(b, n, v); SubstKeepsLetFree(s, n, v);
    case Broadcast(x, _) => SubstKeepsLetFree(x, n, v);
    case Call(_, _, _, args) => SubstAllKeepsLetFree(args, n, v);
    case _ =>
  }

  lemma {:induction false} SubstAllKeepsLetFree(es: seq<Expr>, n: string, v: Expr)
    requires LetFreeAll(es) && LetFree(v)
    ensures LetFreeAll(SubstAll(es, n, v))
    decreases es, 0
  {
    if es != [] {
      SubstAllKeepsLetFree(es[..|es| - 1], n, v);
      SubstKeepsLetFree(es[|es| - 1], n, v);
    }
  }

  /** After substitution a let-free expression no longer mentions the replaced
      name, unless the value itself does. */
  lemma {:induction false} SubstRemoves(e: Expr, n: string, v: Expr)
    requires LetFree(e) && n !in VarNames(v)
    ensures n !in VarNames(Subst(e, n, v))
    decreases e, 1
  {
    match e
    case Cast(_, x) => SubstRemoves(x, n, v);
    case Binary(_, a, b) => SubstRemoves(a, n, v); SubstRemoves(b, n, v);
    case Min(a, b) => SubstRemoves(a, n, v); SubstRemoves(b, n, v);
    case Max(a, b) => SubstRemoves(a, n, v); SubstRemoves(b, n, v);
    case Not(a) => SubstRemoves(a, n, v);
    case Select(c, tv, fv) => SubstRemoves(c, n, v); SubstRemoves(tv, n, v); SubstRemoves(fv, n, v);
    case Load(_, _, idx) => SubstRemoves(idx, n, v);
    case Ramp(b, s, _) => SubstRemoves(b, n, v); SubstRemoves(s, n, v);
    case Broadcast(x, _) => SubstRemoves(x, n, v);
    case Call(_, _, _, args) => SubstAllRemoves(args, n, v);
    case _ =>
  }

  lemma {:induction false} SubstAllRemoves(es: seq<Expr>, n: string, v: Expr)
    requires LetFreeAll(es) && n !in VarNames(v)
    ensures n !in VarNamesAll(SubstAll(es, n, v))
    decreases es, 0
  {
    if es != [] {
      var init := es[..|es| - 1];
      SubstAllRemoves(init, n, v);
      SubstRemoves(es[|es| - 1], n, v);
      var r := SubstAll(es, n, v);
      assert r[..|r| - 1] == SubstAll(init, n, v);
    }
  }

  /** What substitute_in_all_lets returns holds no Let, so the Let visitor is
      never reached through print. */
  lemma {:induction false} SubstLetsLetFree(e: Expr)
    ensures LetFree(SubstLets(e))
    decreases e, 1
  {
    match e
    case Cast(_, x) => SubstLetsLetFree(x);
    case Binary(_, a, b) => SubstLetsLetFree(a); SubstLetsLetFree(b);
    case Min(a, b) => SubstLetsLetFree(a); SubstLetsLetFree(b);
    case Max(a, b) => SubstLetsLetFree(a); SubstLetsLetFree(b);
    case Not(a) => SubstLetsLetFree(a);
    case Select(c, tv, fv) => SubstLetsLetFree(c); SubstLetsLetFree(tv); SubstLetsLetFree(fv);
    case Load(_, _, idx) => SubstLetsLetFree(idx);
    case Ramp(b, s, _) => SubstLetsLetFree(b); SubstLetsLetFree(s);
    case Broadcast(x, _) => SubstLetsLetFree(x);
    case Let(m, x, b) =>
      SubstLetsLetFree(x);
      SubstLetsLetFree(b);
      SubstKeepsLetFree(SubstLets(b), m, SubstLets(x));
    case Call(_, _, _, args) => SubstLetsAllLetFree(args);
    case _ =>
  }

  lemma {:induction false} SubstLetsAllLetFree(es: seq<Expr>)
    ensures LetFreeAll(SubstLetsAll(es))
    decreases es, 0
  {
    forall i | 0 <= i < |es| ensures LetFree(SubstLetsAll(es)[i]) {
      SubstLetsLetFree(es[i]);
    }
  }

  /** An expression without lets is returned unchanged. */
  lemma {:induction false} SubstLetsFixes(e: Expr)
    requires LetFree(e)
    ensures SubstLets(e) == e
    decreases e, 1
  {
    match e
    case Cast(_, x) => SubstLetsFixes(x);
    case Binary(_, a, b) => SubstLetsFixes(a); SubstLetsFixes(b);
    case Min(a, b) => SubstLetsFixes(a); SubstLetsFixes(b);
    case Max(a, b) => SubstLetsFixes(a); SubstLetsFixes(b);
    case Not(a) => SubstLetsFixes(a);
    case Select(c, tv, fv) => SubstLetsFixes(c); SubstLetsFixes(tv); SubstLetsFixes(fv);
    case Load(_, _, idx) => SubstLetsFixes(idx);
    case Ramp(b, s, _) => SubstLetsFixes(b); SubstLetsFixes(s);
    case Broadcast(x, _) => SubstLetsFixes(x);
    case Call(_, _, _, args) => SubstLetsAllFixes(args);
    case _ =>
  }

  lemma {:induction false} SubstLetsAllFixes(es: seq<Expr>)
    requires LetFreeAll(es)
    ensures SubstLetsAll(es) == es
    decreases es, 0
  {
    forall i | 0 <= i < |es| ensures SubstLetsAll(es)[i] == es[i] {
      SubstLetsFixes(es[i]);
    }
  }

  /** Substituting twice is substituting once. */
  lemma SubstLetsIdempotent(e: Expr)
    ensures SubstLets(SubstLets(e)) == SubstLets(e)
  {
    SubstLetsLetFree(e);
    SubstLetsFixes(SubstLets(e));
  }

  function SubstLetsRanges(bs: seq<Range>): (r: seq<Range>)
    ensures |r| == |bs|
  {
    seq(|bs|, i requires 0 <= i < |bs| => Range(SubstLets(bs[i].min), SubstLets(bs[i].extent)))
  }

  /** substitute_in_all_lets on a statement: every expression in it, while the
      statements themselves, LetStmt included, keep their shape. */
  function SubstLetsStmt(s: Stmt): (r: Stmt)
    ensures StmtSize(r) == StmtSize(s)
  {
    match s
    case LetStmt(n, v, b) => LetStmt(n, SubstLets(v), SubstLetsStmt(b))
    case AssertStmt(c, m) => AssertStmt(SubstLets(c), SubstLets(m))
    case ProducerConsumer(n, p, b) => ProducerConsumer(n, p, SubstLetsStmt(b))
    case For(n, mn, ex, ft, b) => For(n, SubstLets(mn), SubstLets(ex), ft, SubstLetsStmt(b))
    case Store(n, v, idx) => Store(n, SubstLets(v), SubstLets(idx))
    case Provide(n, vs, args) => Provide(n, SubstLetsAll(vs), SubstLetsAll(args))
    case Allocate(n, t, exts, b) => Allocate(n, t, SubstLetsAll(exts), SubstLetsStmt(b))
    case Free(n) => s
    case Realize(n, ts, bs, c, b) => Realize(n, ts, SubstLetsRanges(bs), SubstLets(c), SubstLetsStmt(b))
    case Block(f, r) => Block(SubstLetsStmt(f), if r.Some? then Some(SubstLetsStmt(r.value)) else None)
    case IfThenElse(c, t, e) => IfThenElse(SubstLets(c), SubstLetsStmt(t), if e.Some? then Some(SubstLetsStmt(e.value)) else None)
    case Evaluate(v) => Evaluate(SubstLets(v))
  }

  /** The number of statement nodes. */
  function StmtSize(s: Stmt): nat {
    match s
    case LetStmt(_, _, b) => 1 + StmtSize(b)
    case ProducerConsumer(_, _, b) => 1 + StmtSize(b)
    case For(_, _, _, _, b) => 1 + StmtSize(b)
    case Allocate(_, _, _, b) => 1 + StmtSize(b)
    case Realize(_, _, _, _, b) => 1 + StmtSize(b)
    case Block(f, r) => 1 + StmtSize(f) + (if r.Some? then StmtSize(r.value) else 0)
    case IfThenElse(_, t, e) => 1 + StmtSize(t) + (if e.Some? then StmtSize(e.value) else 0)
    case _ => 1
  }

  /** No expression inside the statement holds a Let. */
  predicate LetFreeStmt(s: Stmt) {
    match s
    case LetStmt(_, v, b) => LetFree(v) && LetFreeStmt(b)
    case AssertStmt(c, m) => LetFree(c) && LetFree(m)
    case ProducerConsumer(_, _, b) => LetFreeStmt(b)
    case For(_, mn, ex, _, b) => LetFree(mn) && LetFree(ex) && LetFreeStmt(b)
    case Store(_, v, idx) => LetFree(v) && LetFree(idx)
    case Provide(_, vs, args) => LetFreeAll(vs) && LetFreeAll(args)
    case Allocate(_, _, exts, b) => LetFreeAll(exts) && LetFreeStmt(b)
    case Free(_) => true
    case Realize(_, _, bs, c, b) =>
      (forall i :: 0 <= i < |bs| ==> LetFree(bs[i].min) && LetFree(bs[i].extent))
      && LetFree(c) && LetFreeStmt(b)
    case Block(f, r) => LetFreeStmt(f) && (r.Some? ==> LetFreeStmt(r.value))
    case IfThenElse(c, t, e) => LetFree(c) && LetFreeStmt(t) && (e.Some? ==> LetFreeStmt(e.value))
    case Evaluate(v) => LetFree(v)
  }

  /** After the substitution no expression in the statement holds a Let. */
  lemma {:induction false} SubstLetsStmtLetFree(s: Stmt)
    ensures LetFreeStmt(SubstLetsStmt(s))
  {
    match s
    case LetStmt(_, v, b) => SubstLetsLetFree(v); SubstLetsStmtLetFree(b);
    case AssertStmt(c, m) => SubstLetsLetFree(c); SubstLetsLetFree(m);
    case ProducerConsumer(_, _, b) => SubstLetsStmtLetFree(b);
    case For(_, mn, ex, _, b) => SubstLetsLetFree(mn); SubstLetsLetFree(ex); SubstLetsStmtLetFree(b);
    case Store(_, v, idx) => SubstLetsLetFree(v); SubstLetsLetFree(idx);
    case Provide(_, vs, args) => SubstLetsAllLetFree(vs); SubstLetsAllLetFree(args);
    case Allocate(_, _, exts, b) => SubstLetsAllLetFree(exts); SubstLetsStmtLetFree(b);
    case Free(_) =>
    case Realize(_, _, bs, c, b) =>
      forall i | 0 <= i < |bs|
        ensures LetFree(SubstLetsRanges(bs)[i].min) && LetFree(SubstLetsRanges(bs)[i].extent)
      {
        SubstLetsLetFree(bs[i].min);
        SubstLetsLetFree(bs[i].extent);
      }
      SubstLetsLetFree(c);
      SubstLetsStmtLetFree(b);
    case Block(f, r) =>
      SubstLetsStmtLetFree(f);
      if r.Some? { SubstLetsStmtLetFree(r.value); }
    case IfThenElse(c, t, e) =>
      SubstLetsLetFree(c);
      SubstLetsStmtLetFree(t);
      if e.Some? { SubstLetsStmtLetFree(e.value); }
    case Evaluate(v) => SubstLetsLetFree(v);
  }

  /** A statement without lets in its expressions is returned unchanged; this is
      why the substitution each nested print applies again changes nothing. */
  lemma {:induction false} SubstLetsStmtFixes(s: Stmt)
    requires LetFreeStmt(s)
    ensures SubstLetsStmt(s) == s
  {
    match s
    case LetStmt(_, v, b) => SubstLetsFixes(v); SubstLetsStmtFixes(b);
    case AssertStmt(c, m) => SubstLetsFixes(c); SubstLetsFixes(m);
    case ProducerConsumer(_, _, b) => SubstLetsStmtFixes(b);
    case For(_, mn, ex, _, b) => SubstLetsFixes(mn); SubstLetsFixes(ex); SubstLetsStmtFixes(b);
    case Store(_, v, idx) => SubstLetsFixes(v); SubstLetsFixes(idx);
    case Provide(_, vs, args) => SubstLetsAllFixes(vs); SubstLetsAllFixes(args);
    case Allocate(_, _, exts, b) => SubstLetsAllFixes(exts); SubstLetsStmtFixes(b);
    case Free(_) =>
    case Realize(_, _, bs, c, b) =>
      forall i | 0 <= i < |bs| ensures SubstLetsRanges(bs)[i] == bs[i] {
        SubstLetsFixes(bs[i].min);
        SubstLetsFixes(bs[i].extent);
      }
      SubstLetsFixes(c);
      SubstLetsStmtFixes(b);
    case Block(f, r) =>
      SubstLetsStmtFixes(f);
      if r.Some? { SubstLetsStmtFixes(r.value); }
    case IfThenElse(c, t, e) =>
      SubstLetsFixes(c);
      SubstLetsStmtFixes(t);
      if e.Some? { SubstLetsStmtFixes(e.value); }
    case Evaluate(v) => SubstLetsFixes(v);
  }

  /** Substituting a statement twice is substituting it once. */
  lemma SubstLetsStmtIdempotent(s: Stmt)
    ensures SubstLetsStmt(SubstLetsStmt(s)) == SubstLetsStmt(s)
  {
    SubstLetsStmtLetFree(s);
    SubstLetsStmtFixes(SubstLetsStmt(s));
  }
}
