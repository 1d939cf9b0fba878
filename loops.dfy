/** The loop-dimension stack and the two strings built from it: the symbolic
    parameters of an iteration domain and its constraint. Also the Halide
    helpers the backend calls but whose code is not part of this model. */
module LoopDims {
  import opened Ir
  import opened Text

  /** One enclosing loop: its name and its min and extent expressions. */
  datatype Loop = Loop(name: string, min: Expr, extent: Expr)

  /** Halide library code the backend calls but does not define: expression
      substitution, the simplifier, the constant and zero tests, Loop::to_string
      and the IR printer's `operator<<` on expressions. */
  datatype Library = Library(
    substitute: (map<string, Expr>, Expr) -> Expr,
    simplify: Expr -> Expr,
    isConst: Expr -> bool,
    isZero: Expr -> bool,
    loopText: Loop -> string,
    exprText: Expr -> string)

  /** The printed form of each expression. */
  function Texts(lib: Library, es: seq<Expr>): (r: seq<string>)
    ensures |r| == |es| && forall i :: 0 <= i < |es| ==> r[i] == lib.exprText(es[i])
  {
    seq(|es|, i requires 0 <= i < |es| => lib.exprText(es[i]))
  }

  /** The bounds of one dimension that are not constants: min first, then extent. */
  function DimParams(lib: Library, d: Loop): seq<Expr> {
    (if !lib.isConst(d.min) then [d.min] else []) + (if !lib.isConst(d.extent) then [d.extent] else [])
  }

  /** The non-constant bounds of all dimensions, outermost dimension first. */
  function BoundParams(lib: Library, dims: seq<Loop>): seq<Expr> {
    if dims == [] then [] else BoundParams(lib, dims[..|dims| - 1]) + DimParams(lib, dims[|dims| - 1])
  }

  /** get_loop_bound_vars: empty when no bound is symbolic, otherwise the list
      of symbolic bounds. */
  function BoundVarsText(lib: Library, dims: seq<Loop>): string {
    var ps := BoundParams(lib, dims);
    if ps == [] then "" else ListText(Texts(lib, ps))
  }

  /** The printed constraint of each dimension. */
  function LoopTexts(lib: Library, dims: seq<Loop>): (r: seq<string>)
    ensures |r| == |dims| && forall i :: 0 <= i < |dims| ==> r[i] == lib.loopText(dims[i])
  {
    seq(|dims|, i requires 0 <= i < |dims| => lib.loopText(dims[i]))
  }

  /** get_loop_bounds: the parenthesised constraints joined by `) and (`. */
  function BoundsText(lib: Library, dims: seq<Loop>): string {
    "(" + Join(LoopTexts(lib, dims), ") and (") + ")"
  }

  /** The parameters of a stack are those of its outer part followed by those of
      its inner part. */
  lemma {:induction false} BoundParamsAppend(lib: Library, outer: seq<Loop>, inner: seq<Loop>)
    ensures BoundParams(lib, outer + inner) == BoundParams(lib, outer) + BoundParams(lib, inner)
    decreases |inner|
  {
    if inner == [] {
      assert outer + inner == outer;
    } else {
      var init := inner[..|inner| - 1];
      assert (outer + inner)[..|outer + inner| - 1] == outer + init;
      assert (outer + inner)[|outer + inner| - 1] == inner[|inner| - 1];
      BoundParamsAppend(lib, outer, init);
    }
  }

  /** An expression is a parameter exactly when it is a non-constant min or
      extent of some stacked dimension. */
  lemma {:induction false} BoundParamsMembers(lib: Library, dims: seq<Loop>, e: Expr)
    ensures e in BoundParams(lib, dims)
        <==> exists i :: 0 <= i < |dims| && !lib.isConst(e) && (e == dims[i].min || e == dims[i].extent)
    decreases |dims|
  {
    if dims != [] {
      var init := dims[..|dims| - 1];
      BoundParamsMembers(lib, init, e);
      if e in BoundParams(lib, dims) {
        if e in BoundParams(lib, init) {
          var i :| 0 <= i < |init| && !lib.isConst(e) && (e == init[i].min || e == init[i].extent);
          assert dims[i] == init[i];
        } else {
          assert e in DimParams(lib, dims[|dims| - 1]);
        }
      }
      if exists i :: 0 <= i < |dims| && !lib.isConst(e) && (e == dims[i].min || e == dims[i].extent) {
        var i :| 0 <= i < |dims| && !lib.isConst(e) && (e == dims[i].min || e == dims[i].extent);
        if i < |init| {
          assert init[i] == dims[i];
        } else {
          assert e in DimParams(lib, dims[|dims| - 1]);
        }
      }
    }
  }

  /** get_loop_bound_vars returns the empty string exactly when every stacked
      min and extent is a constant. */
  lemma {:induction false} BoundVarsEmpty(lib: Library, dims: seq<Loop>)
    ensures BoundVarsText(lib, dims) == ""
        <==> forall i :: 0 <= i < |dims| ==> lib.isConst(dims[i].min) && lib.isConst(dims[i].extent)
    decreases |dims|
  {
    ListTextBracketed(Texts(lib, BoundParams(lib, dims)));
    if dims != [] {
      var init := dims[..|dims| - 1];
      BoundVarsEmpty(lib, init);
      ListTextBracketed(Texts(lib, BoundParams(lib, init)));
      if forall i :: 0 <= i < |dims| ==> lib.isConst(dims[i].min) && lib.isConst(dims[i].extent) {
        assert forall i :: 0 <= i < |init| ==> init[i] == dims[i];
      }
    }
  }

  /** Pushing a dimension adds exactly one conjunct, its own constraint, at the end. */
  lemma BoundsTextPush(lib: Library, dims: seq<Loop>, d: Loop)
    ensures BoundsText(lib, dims + [d])
         == if dims == [] then "(" + lib.loopText(d) + ")"
            else "(" + Join(LoopTexts(lib, dims), ") and (") + ") and (" + lib.loopText(d) + ")"
  {
    assert LoopTexts(lib, dims + [d]) == LoopTexts(lib, dims) + [lib.loopText(d)];
    JoinSnoc(LoopTexts(lib, dims), lib.loopText(d), ") and (");
  }
}
