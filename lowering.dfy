/** The statement visitors of CodeGen_Coli as functions on the lowering state:
    each either fails with the fault the source aborts on, or yields the state
    after the visit. */
module Lowering {
  import opened Outcomes
  import opened Ir
  import opened Text
  import opened TypeMap
  import opened LoopDims
  import opened Scopes
  import opened ExprText
  import opened Lets

  const TabSize: int := 4

  /** The fields of CodeGen_Coli that the visitors read and write. */
  datatype State = State(
    out: string,
    indent: int,
    scope: Scope,
    loopDims: seq<Loop>,
    computations: set<string>,
    constants: set<string>,
    inputBuffers: set<string>,
    outputBuffers: set<string>,
    temporaryBuffers: set<string>)

  function CtxOf(st: State): Ctx {
    Ctx(st.indent, st.constants, st.computations)
  }

  /** The fields no statement visitor leaves changed: indentation, scope, loop
      stack and the input and output buffer registries. */
  predicate Fixed(a: State, b: State) {
    b.indent == a.indent && b.scope == a.scope && b.loopDims == a.loopDims
    && b.inputBuffers == a.inputBuffers && b.outputBuffers == a.outputBuffers
  }

  /** What lowering a whole statement may change: it only appends to the output
      and only adds to the computation, constant and temporary-buffer registries. */
  predicate Frame(a: State, b: State) {
    Fixed(a, b) && a.out <= b.out
    && a.computations <= b.computations && a.constants <= b.constants
    && a.temporaryBuffers <= b.temporaryBuffers
  }

  lemma PrefixTransitive(a: string, b: string, c: string)
    requires a <= b && b <= c
    ensures a <= c
  {
    assert c[..|a|] == c[..|b|][..|a|];
  }

  lemma FrameTransitive(a: State, b: State, c: State)
    requires Frame(a, b) && Frame(b, c)
    ensures Frame(a, c)
  {
    PrefixTransitive(a.out, b.out, c.out);
  }

  /** define_constant: declares a Coli constant holding the simplified value.
      It fails on a name already declared and otherwise registers exactly that name. */
  function ConstantDef(lib: Library, func: string, st: State, name: string, val: Expr): (r: Result<State>)
    ensures r.Ok? ==> (Fixed(st, r.value) && st.out < r.value.out
      && name !in st.constants && r.value.constants == st.constants + {name}
      && r.value.computations == st.computations && r.value.temporaryBuffers == st.temporaryBuffers)
  {
    if name in st.constants then Err(DuplicateDefinition)
    else
      var v := lib.simplify(val);
      var tv :- Printed(CtxOf(st), v);
      var tag :- TypeTag(TypeOf(v));
      Ok(st.(out := st.out + Spaces(st.indent) + "coli::constant " + name + "(\"" + name + "\", " + tv + ", "
                      + PrimitiveText(tag) + ", true, NULL, 0, &" + func + ");\n",
             constants := st.constants + {name}))
  }

  /** define_constant succeeds exactly on a fresh name whose simplified value
      renders and has a Coli type. */
  lemma ConstantDefOk(lib: Library, func: string, st: State, name: string, val: Expr)
    ensures ConstantDef(lib, func, st, name, val).Ok?
        <==> name !in st.constants && Renderable(st.computations, SubstLets(lib.simplify(val)))
             && TypeTag(TypeOf(lib.simplify(val))).Ok?
    ensures name in st.constants ==> ConstantDef(lib, func, st, name, val) == Err(DuplicateDefinition)
  {
    PrintedOk(CtxOf(st), lib.simplify(val));
  }

  /** The part of a For visit before its body: push the dimension, resolve both
      bound variables in the scope, substitute the scope into them twice and
      declare them as constants. */
  function ForEntry(lib: Library, func: string, st: State, name: string, min: Expr, extent: Expr): (r: Result<State>)
    ensures r.Ok? ==> (min.Variable? && extent.Variable? && min.name != extent.name
      && r.value.loopDims == st.loopDims + [Loop(name, min, extent)]
      && r.value.indent == st.indent && r.value.scope == st.scope
      && r.value.inputBuffers == st.inputBuffers && r.value.outputBuffers == st.outputBuffers
      && st.out < r.value.out
      && min.name !in st.constants && extent.name !in st.constants
      && r.value.constants == st.constants + {min.name, extent.name}
      && r.value.computations == st.computations && r.value.temporaryBuffers == st.temporaryBuffers)
  {
    var st1 := st.(loopDims := st.loopDims + [Loop(name, min, extent)]);
    if !min.Variable? || !extent.Variable? then Err(StructuralPrecondition)
    else
      var minVal :- ScopeGet(st1.scope, min.name);
      var extentVal :- ScopeGet(st1.scope, extent.name);
      var rep := Replacements(st1.scope, min.name, extent.name);
      var minBound := lib.substitute(rep, lib.substitute(rep, minVal));
      var extentBound := lib.substitute(rep, lib.substitute(rep, extentVal));
      var st2 := st1.(out := st1.out + Spaces(st1.indent) + "// Define loop bounds for dimension \"" + name + "\".\n");
      var st3 :- ConstantDef(lib, func, st2, min.name, minBound);
      var st4 :- ConstantDef(lib, func, st3, extent.name, extentBound);
      PrefixTransitive(st.out, st3.out, st4.out);
      Ok(st4.(out := st4.out + "\n"))
  }

  /** A loop whose min or extent is not a variable is rejected, and so is one
      whose bound variable is not in scope. */
  lemma ForEntryRejects(lib: Library, func: string, st: State, name: string, min: Expr, extent: Expr)
    ensures !min.Variable? || !extent.Variable?
        ==> ForEntry(lib, func, st, name, min, extent) == Err(StructuralPrecondition)
    ensures min.Variable? && extent.Variable? && (min.name !in BoundNames(st.scope) || extent.name !in BoundNames(st.scope))
        ==> ForEntry(lib, func, st, name, min, extent) == Err(UnboundSymbol)
  {
  }

  /** Provide: declares the computation `name` over the current loop nest, with
      its value as the computed expression, stored one-to-one into `buff_<name>`. */
  function ProvideStep(lib: Library, func: string, st: State, name: string, values: seq<Expr>, args: seq<Expr>): (r: Result<State>)
    ensures r.Ok? ==> (Fixed(st, r.value) && st.out < r.value.out
      && name !in st.computations && r.value.computations == st.computations + {name}
      && r.value.constants == st.constants && r.value.temporaryBuffers == st.temporaryBuffers)
  {
    if name in st.computations then Err(DuplicateDefinition)
    else if "buff_" + name !in st.temporaryBuffers && "buff_" + name !in st.outputBuffers then Err(StructuralPrecondition)
    else if exists i :: 0 <= i < |args| && !args[i].Variable? then Err(UnsupportedConstruct)
    else if |values| != 1 then Err(UnsupportedConstruct)
    else ComputationDef(lib, func, st, name, values[0], args)
  }

  /** The declaration a well-formed Provide writes: the computation over the
      current loop nest, with `value` as its expression, and its access to `buff_<name>`. */
  function ComputationDef(lib: Library, func: string, st: State, name: string, value: Expr, args: seq<Expr>): (r: Result<State>)
    ensures r.Ok? ==> (Fixed(st, r.value) && st.out < r.value.out
      && r.value.computations == st.computations + {name}
      && r.value.constants == st.constants && r.value.temporaryBuffers == st.temporaryBuffers)
  {
    var dims := ListText(Texts(lib, args));
    var st1 := OpenComputation(lib, st, name, dims);
    var st2 :- CloseComputation(func, st1, name, dims, value);
    PrefixTransitive(st.out, st1.out, st2.out);
    Ok(st2)
  }

  /** The first part of a computation's declaration: its name and iteration
      domain, up to the indentation of its value, which is written five tabs in. */
  function OpenComputation(lib: Library, st: State, name: string, dims: string): (r: State)
    ensures r == st.(out := r.out, indent := st.indent + 5 * TabSize)
    ensures |st.out| < |r.out| && r.out[..|st.out|] == st.out
  {
    var head := DeclarationHead(st.indent, name, dims, BoundVarsText(lib, st.loopDims), BoundsText(lib, st.loopDims));
    st.(out := st.out + head, indent := st.indent + 5 * TabSize)
  }

  /** The text opening a declaration at `indent`: the symbolic bounds `vars`, if
      any, then the domain `{name[dims]: bounds}` and the indentation of the value. */
  function DeclarationHead(indent: int, name: string, dims: string, vars: string, bounds: string): (r: string)
    ensures |r| > 0
  {
    var inner := indent + 5 * TabSize;
    var domain := if vars != "" then vars + "->{" + name + dims + ": \"\n" else "{" + name + dims + ": \"\n";
    var parts := [Spaces(indent), "coli::computation ", name, "(\"", domain,
                  Spaces(inner), "\"", bounds, "}\", \n", Spaces(inner)];
    ConcatGrows(parts, 1);
    Concat(parts)
  }

  /** The rest of a computation's declaration: its value, its type, and its
      one-to-one access to its buffer; registers the computation. */
  function CloseComputation(func: string, st: State, name: string, dims: string, value: Expr): (r: Result<State>)
    ensures r.Ok? ==> (r.value == st.(out := r.value.out, indent := st.indent - 5 * TabSize, computations := st.computations + {name})
      && |st.out| < |r.value.out| && r.value.out[..|st.out|] == st.out)
  {
    var tv :- Printed(CtxOf(st), value);
    var tag :- TypeTag(TypeOf(value));
    var tail := DeclarationTail(func, st.indent - 5 * TabSize, name, dims, PrimitiveText(tag));
    AppendAssoc(st.out, tv, tail);
    Ok(st.(out := st.out + tv + tail,
           indent := st.indent - 5 * TabSize,
           computations := st.computations + {name}))
  }

  /** The text closing a declaration after its value: the element type, the
      function it belongs to, and the one-to-one access `{name[dims]->buff_name[dims]}`. */
  function DeclarationTail(func: string, indent: int, name: string, dims: string, tag: string): (r: string)
    ensures |r| > 0
  {
    var access := "{" + name + dims + "->" + "buff_" + name + dims + "}";
    Concat([", true, ", tag, ", &", func, ");\n", Spaces(indent), name, ".set_access(\"", access, "\");\n"])
  }

  /** Provide succeeds exactly on a fresh computation whose buffer exists, whose
      indices are all variables and which stores one renderable, typed value. */
  lemma ProvideStepOk(lib: Library, func: string, st: State, name: string, values: seq<Expr>, args: seq<Expr>)
    ensures ProvideStep(lib, func, st, name, values, args).Ok?
        <==> name !in st.computations
             && ("buff_" + name in st.temporaryBuffers || "buff_" + name in st.outputBuffers)
             && (forall i :: 0 <= i < |args| ==> args[i].Variable?)
             && |values| == 1 && Renderable(st.computations, SubstLets(values[0])) && TypeTag(TypeOf(values[0])).Ok?
    ensures name in st.computations ==> ProvideStep(lib, func, st, name, values, args) == Err(DuplicateDefinition)
  {
    if |values| == 1 {
      ComputationDefOk(lib, func, st, name, values[0], args);
    }
  }

  /** A computation's declaration is written exactly when its value renders
      and its type has a Coli counterpart. */
  lemma ComputationDefOk(lib: Library, func: string, st: State, name: string, value: Expr, args: seq<Expr>)
    ensures ComputationDef(lib, func, st, name, value, args).Ok?
        <==> Renderable(st.computations, SubstLets(value)) && TypeTag(TypeOf(value)).Ok?
  {
    var st1 := OpenComputation(lib, st, name, ListText(Texts(lib, args)));
    PrintedOk(CtxOf(st1), value);
  }

  /** The shape rejections of Provide: a missing buffer, an index that is not a
      loop variable, or a tuple of values. */
  lemma ProvideStepRejects(lib: Library, func: string, st: State, name: string, values: seq<Expr>, args: seq<Expr>)
    requires name !in st.computations
    ensures "buff_" + name !in st.temporaryBuffers && "buff_" + name !in st.outputBuffers
        ==> ProvideStep(lib, func, st, name, values, args) == Err(StructuralPrecondition)
    ensures ("buff_" + name in st.temporaryBuffers || "buff_" + name in st.outputBuffers)
            && ((exists i :: 0 <= i < |args| && !args[i].Variable?) || |values| != 1)
        ==> ProvideStep(lib, func, st, name, values, args) == Err(UnsupportedConstruct)
  {
  }

  /** The declaration a Provide opens starts with the symbolic bounds as a list
      followed by `->{` when some stacked min or extent is not a constant, and with
      `{` alone otherwise, then the computation's name and indices. */
  lemma ProvideDomainPrefix(lib: Library, st: State, name: string, args: seq<Expr>)
    ensures var dims := ListText(Texts(lib, args));
      var symbolic := exists i :: 0 <= i < |st.loopDims| && !(lib.isConst(st.loopDims[i].min) && lib.isConst(st.loopDims[i].extent));
      var domain := if symbolic then ListText(Texts(lib, BoundParams(lib, st.loopDims))) + "->{" else "{";
      st.out + Spaces(st.indent) + "coli::computation " + name + "(\"" + domain + name + dims + ": \"\n"
        <= OpenComputation(lib, st, name, dims).out
  {
    var dims := ListText(Texts(lib, args));
    var vars := BoundVarsText(lib, st.loopDims);
    BoundVarsEmpty(lib, st.loopDims);
    var domain := if vars != "" then vars + "->{" else "{";
    var pre := Spaces(st.indent) + "coli::computation " + name + "(\"" + domain + name + dims + ": \"\n";
    var head := DeclarationHead(st.indent, name, dims, vars, BoundsText(lib, st.loopDims));
    DeclarationHeadPrefix(st.indent, name, dims, vars, BoundsText(lib, st.loopDims));
    assert pre <= head;
    assert st.out + pre <= st.out + head;
    assert st.out + pre == st.out + Spaces(st.indent) + "coli::computation " + name + "(\"" + domain + name + dims + ": \"\n";
  }

  /** A declaration head starts with its indentation, the constructor call and
      the domain, the symbolic bounds and `->` coming first when there are any. */
  lemma DeclarationHeadPrefix(indent: int, name: string, dims: string, vars: string, bounds: string)
    ensures var domain := if vars != "" then vars + "->{" else "{";
      Spaces(indent) + "coli::computation " + name + "(\"" + domain + name + dims + ": \"\n"
        <= DeclarationHead(indent, name, dims, vars, bounds)
  {
    var inner := indent + 5 * TabSize;
    var domain := if vars != "" then vars + "->{" + name + dims + ": \"\n" else "{" + name + dims + ": \"\n";
    var parts := [Spaces(indent), "coli::computation ", name, "(\"", domain,
                  Spaces(inner), "\"", bounds, "}\", \n", Spaces(inner)];
    ConcatFivePrefix(parts);
    var lead := Spaces(indent) + "coli::computation " + name + "(\"";
    var open := if vars != "" then vars + "->{" else "{";
    assert domain == open + name + dims + ": \"\n";
    AppendAssoc(lead, open + name + dims, ": \"\n");
    AppendAssoc(lead, open + name, dims);
    AppendAssoc(lead, open, name);
  }

    /** The part of a Realize visit before its body: declares the temporary buffer
      `buff_<name>` with one extent per bound. */
  function RealizeEntry(lib: Library, func: string, st: State, name: string, types: seq<Type>, bounds: seq<Range>): (r: Result<State>)
    ensures r.Ok? ==> (Fixed(st, r.value) && st.out < r.value.out
      && "buff_" + name !in st.temporaryBuffers && r.value.temporaryBuffers == st.temporaryBuffers + {"buff_" + name}
      && r.value.constants == st.constants && r.value.computations == st.computations)
  {
    var b := "buff_" + name;
    if b in st.temporaryBuffers then Err(DuplicateDefinition)
    else if exists i :: 1 <= i < |types| && types[i - 1] != types[i] then Err(UnsupportedConstruct)
    else if exists i :: 0 <= i < |bounds| && !lib.isZero(bounds[i].min) then Err(UnsupportedConstruct)
    else
      var extents := Extents(bounds);
      var ext :- RenderList(CtxOf(st), SubstLetsAll(extents), |extents|);
      // the source indexes types[0] without a check; an empty list is a broken IR
      if types == [] then Err(StructuralPrecondition)
      else
        var tag :- TypeTag(types[0]);
        Ok(st.(out := st.out + Spaces(st.indent) + Spaces(st.indent) + "coli::buffer " + b + "(\"" + b + "\", "
                        + Decimal(|bounds|) + ", " + "{" + ext + "}, " + PrimitiveText(tag) + ", NULL, coli::a_temporary, &" + func + ");\n",
               temporaryBuffers := st.temporaryBuffers + {b}))
  }

  function Extents(bounds: seq<Range>): (r: seq<Expr>)
    ensures |r| == |bounds| && forall i :: 0 <= i < |bounds| ==> r[i] == bounds[i].extent
  {
    seq(|bounds|, i requires 0 <= i < |bounds| => bounds[i].extent)
  }

  /** Realize succeeds exactly on a fresh buffer with one element type, zero
      mins and renderable extents. */
  lemma RealizeEntryOk(lib: Library, func: string, st: State, name: string, types: seq<Type>, bounds: seq<Range>)
    ensures RealizeEntry(lib, func, st, name, types, bounds).Ok?
        <==> "buff_" + name !in st.temporaryBuffers
             && (forall i :: 1 <= i < |types| ==> types[i - 1] == types[i])
             && (forall i :: 0 <= i < |bounds| ==> lib.isZero(bounds[i].min) && Renderable(st.computations, SubstLets(bounds[i].extent)))
             && types != [] && TypeTag(types[0]).Ok?
    ensures "buff_" + name in st.temporaryBuffers ==> RealizeEntry(lib, func, st, name, types, bounds) == Err(DuplicateDefinition)
  {
    RenderListOk(CtxOf(st), SubstLetsAll(Extents(bounds)), |bounds|);
  }

  /** Lowering of a statement: the recursive descent of the visitor. */
  function Lower(lib: Library, func: string, st: State, s: Stmt): (r: Result<State>)
    ensures r.Ok? ==> Frame(st, r.value)
    decreases s
  {
    match s
    case LetStmt(n, v, body) =>
      var pushed := st.(scope := ScopePush(st.scope, n, v));
      var st1 :- Lower(lib, func, pushed, body);
      PopPush(st.scope, n, v);
      Ok(st1.(scope := ScopePop(st1.scope, n)))
    case AssertStmt(_, _) => Ok(st)
    case ProducerConsumer(n, isProducer, body) =>
      if body.Block? then Err(UnsupportedConstruct)
      else if isProducer && n in st.computations then Err(DuplicateDefinition)
      else
        var st1 :- Lower(lib, func, st, body);
        Ok(st1.(loopDims := st.loopDims))
    case For(n, min, extent, _, body) =>
      var st1 :- ForEntry(lib, func, st, n, min, extent);
      var st2 :- Lower(lib, func, st1, body);
      PrefixTransitive(st.out, st1.out, st2.out);
      assert st2.loopDims[..|st2.loopDims| - 1] == st.loopDims;
      Ok(st2.(loopDims := st2.loopDims[..|st2.loopDims| - 1]))
    case Store(_, _, _) => Err(UnsupportedConstruct)
    case Provide(n, values, args) => ProvideStep(lib, func, st, n, values, args)
    case Allocate(_, _, _, _) => Err(UnsupportedConstruct)
    case Free(_) => Err(UnsupportedConstruct)
    case Realize(n, types, bounds, _, body) =>
      var st1 :- RealizeEntry(lib, func, st, n, types, bounds);
      var st2 :- Lower(lib, func, st1, body);
      PrefixTransitive(st.out, st1.out, st2.out);
      Ok(st2)
    case Block(first, rest) =>
      var st1 :- Lower(lib, func, st, first);
      if rest.Some? then
        var st2 :- Lower(lib, func, st1, rest.value);
        FrameTransitive(st, st1, st2);
        Ok(st2)
      else Ok(st1)
    case IfThenElse(_, thenCase, _) => Lower(lib, func, st, thenCase)
    case Evaluate(_) => Ok(st)
  }
}
