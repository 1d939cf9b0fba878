/** Registry discipline of the lowering: which names a statement adds to the
    computation, constant and temporary-buffer registries, and which node shapes
    it rejects. */
module Registries {
  import opened Outcomes
  import opened Ir
  import opened LoopDims
  import opened Scopes
  import opened Lowering

  function Elems(xs: seq<string>): set<string> {
    set x | x in xs
  }

  predicate Distinct(xs: seq<string>) {
    forall i, j :: 0 <= i < j < |xs| ==> xs[i] != xs[j]
  }

  lemma DistinctAppend(a: seq<string>, b: seq<string>)
    requires Distinct(a) && Distinct(b) && Elems(a) !! Elems(b)
    ensures Distinct(a + b) && Elems(a + b) == Elems(a) + Elems(b)
  {
    forall i, j | 0 <= i < j < |a + b| ensures (a + b)[i] != (a + b)[j] {
      if j >= |a| && i < |a| {
        assert (a + b)[i] in Elems(a) && (a + b)[j] in Elems(b);
      }
    }
  }

  /** The computations a statement declares, in the order it declares them: the
      Provide nodes reached, leaving out every else branch. */
  function Provided(s: Stmt): seq<string> {
    match s
    case LetStmt(_, _, body) => Provided(body)
    case ProducerConsumer(_, _, body) => Provided(body)
    case For(_, _, _, _, body) => Provided(body)
    case Provide(n, _, _) => [n]
    case Realize(_, _, _, _, body) => Provided(body)
    case Block(first, rest) => Provided(first) + (if rest.Some? then Provided(rest.value) else [])
    case IfThenElse(_, thenCase, _) => Provided(thenCase)
    case _ => []
  }

  /** The constants a statement declares: each loop's min and extent variables. */
  function BoundConstants(s: Stmt): seq<string> {
    match s
    case LetStmt(_, _, body) => BoundConstants(body)
    case ProducerConsumer(_, _, body) => BoundConstants(body)
    case For(_, min, extent, _, body) =>
      (if min.Variable? && extent.Variable? then [min.name, extent.name] else []) + BoundConstants(body)
    case Realize(_, _, _, _, body) => BoundConstants(body)
    case Block(first, rest) => BoundConstants(first) + (if rest.Some? then BoundConstants(rest.value) else [])
    case IfThenElse(_, thenCase, _) => BoundConstants(thenCase)
    case _ => []
  }

  /** The temporary buffers a statement declares: `buff_<name>` per Realize node. */
  function Realized(s: Stmt): seq<string> {
    match s
    case LetStmt(_, _, body) => Realized(body)
    case ProducerConsumer(_, _, body) => Realized(body)
    case For(_, _, _, _, body) => Realized(body)
    case Realize(n, _, _, _, body) => ["buff_" + n] + Realized(body)
    case Block(first, rest) => Realized(first) + (if rest.Some? then Realized(rest.value) else [])
    case IfThenElse(_, thenCase, _) => Realized(thenCase)
    case _ => []
  }

  /** A successful lowering adds exactly the computations its Provide nodes
      declare, each once and none declared before. */
  lemma {:induction false} LowerComputations(lib: Library, func: string, st: State, s: Stmt)
    requires Lower(lib, func, st, s).Ok?
    ensures Lower(lib, func, st, s).value.computations == st.computations + Elems(Provided(s))
    ensures Distinct(Provided(s)) && Elems(Provided(s)) !! st.computations
    decreases s
  {
    match s
    case LetStmt(n, v, body) =>
      LowerComputations(lib, func, st.(scope := ScopePush(st.scope, n, v)), body);
    case ProducerConsumer(_, _, body) =>
      LowerComputations(lib, func, st, body);
    case For(n, min, extent, _, body) =>
      var st1 := ForEntry(lib, func, st, n, min, extent).value;
      LowerComputations(lib, func, st1, body);
    case Provide(n, _, _) =>
      assert Elems([n]) == {n};
    case Realize(n, types, bounds, _, body) =>
      var st1 := RealizeEntry(lib, func, st, n, types, bounds).value;
      LowerComputations(lib, func, st1, body);
    case Block(first, rest) =>
      LowerComputations(lib, func, st, first);
      if rest.Some? {
        var st1 := Lower(lib, func, st, first).value;
        LowerComputations(lib, func, st1, rest.value);
        DistinctAppend(Provided(first), Provided(rest.value));
      } else {
        assert Provided(s) == Provided(first);
      }
    case IfThenElse(_, thenCase, _) =>
      LowerComputations(lib, func, st, thenCase);
    case _ =>
  }

  /** A successful lowering adds exactly the bound variables of its loops as
      constants, each once and none declared before. */
  lemma {:induction false} LowerConstants(lib: Library, func: string, st: State, s: Stmt)
    requires Lower(lib, func, st, s).Ok?
    ensures Lower(lib, func, st, s).value.constants == st.constants + Elems(BoundConstants(s))
    ensures Distinct(BoundConstants(s)) && Elems(BoundConstants(s)) !! st.constants
    decreases s
  {
    match s
    case LetStmt(n, v, body) =>
      LowerConstants(lib, func, st.(scope := ScopePush(st.scope, n, v)), body);
    case ProducerConsumer(_, _, body) =>
      LowerConstants(lib, func, st, body);
    case For(n, min, extent, _, body) =>
      var st1 := ForEntry(lib, func, st, n, min, extent).value;
      LowerConstants(lib, func, st1, body);
      var own := [min.name, extent.name];
      assert Elems(own) == {min.name, extent.name};
      DistinctAppend(own, BoundConstants(body));
    case Realize(n, types, bounds, _, body) =>
      var st1 := RealizeEntry(lib, func, st, n, types, bounds).value;
      LowerConstants(lib, func, st1, body);
    case Block(first, rest) =>
      LowerConstants(lib, func, st, first);
      if rest.Some? {
        var st1 := Lower(lib, func, st, first).value;
        LowerConstants(lib, func, st1, rest.value);
        DistinctAppend(BoundConstants(first), BoundConstants(rest.value));
      } else {
        assert BoundConstants(s) == BoundConstants(first);
      }
    case IfThenElse(_, thenCase, _) =>
      LowerConstants(lib, func, st, thenCase);
    case _ =>
  }

  /** A successful lowering adds exactly the buffers of its Realize nodes as
      temporaries, each once and none declared before. */
  lemma {:induction false} LowerTemporaries(lib: Library, func: string, st: State, s: Stmt)
    requires Lower(lib, func, st, s).Ok?
    ensures Lower(lib, func, st, s).value.temporaryBuffers == st.temporaryBuffers + Elems(Realized(s))
    ensures Distinct(Realized(s)) && Elems(Realized(s)) !! st.temporaryBuffers
    decreases s
  {
    match s
    case LetStmt(n, v, body) =>
      LowerTemporaries(lib, func, st.(scope := ScopePush(st.scope, n, v)), body);
    case ProducerConsumer(_, _, body) =>
      LowerTemporaries(lib, func, st, body);
    case For(n, min, extent, _, body) =>
      var st1 := ForEntry(lib, func, st, n, min, extent).value;
      LowerTemporaries(lib, func, st1, body);
    case Realize(n, types, bounds, _, body) =>
      var st1 := RealizeEntry(lib, func, st, n, types, bounds).value;
      LowerTemporaries(lib, func, st1, body);
      var own := ["buff_" + n];
      assert Elems(own) == {"buff_" + n};
      DistinctAppend(own, Realized(body));
    case Block(first, rest) =>
      LowerTemporaries(lib, func, st, first);
      if rest.Some? {
        var st1 := Lower(lib, func, st, first).value;
        LowerTemporaries(lib, func, st1, rest.value);
        DistinctAppend(Realized(first), Realized(rest.value));
      } else {
        assert Realized(s) == Realized(first);
      }
    case IfThenElse(_, thenCase, _) =>
      LowerTemporaries(lib, func, st, thenCase);
    case _ =>
  }

  /** The node kinds and shapes the lowering rejects outright, whatever the state. */
  lemma LowerRejects(lib: Library, func: string, st: State, s: Stmt)
    ensures s.Store? || s.Allocate? || s.Free? ==> Lower(lib, func, st, s) == Err(UnsupportedConstruct)
    ensures s.ProducerConsumer? && s.body.Block? ==> Lower(lib, func, st, s) == Err(UnsupportedConstruct)
    ensures s.ProducerConsumer? && !s.body.Block? && s.isProducer && s.name in st.computations
        ==> Lower(lib, func, st, s) == Err(DuplicateDefinition)
    ensures s.For? && (!s.min.Variable? || !s.extent.Variable?) ==> Lower(lib, func, st, s) == Err(StructuralPrecondition)
  {
  }

  /** A conditional is lowered as its then-branch alone: neither the condition
      nor the else-branch has any effect. */
  lemma IfThenElseIgnoresElse(lib: Library, func: string, st: State, c1: Expr, c2: Expr, t: Stmt, e1: Option<Stmt>, e2: Option<Stmt>)
    ensures Lower(lib, func, st, IfThenElse(c1, t, e1)) == Lower(lib, func, st, IfThenElse(c2, t, e2))
  {
  }
}
