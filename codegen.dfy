/** CodeGen_Coli itself: the code generator object whose visitors append to its
    stream and update its scope, loop stack and registries in place. Every method
    is proved to leave exactly the state the corresponding function of the
    lowering model computes, or to stop with the fault it names. */
module CodeGenColi {
  import opened Outcomes
  import opened Ir
  import opened Text
  import opened TypeMap
  import opened Names
  import opened Normalize
  import opened Ordering
  import opened LoopDims
  import opened Scopes
  import opened ExprText
  import opened Lowering
  import opened Program
  import opened Lets

  /** The stream after appending the text of a rendering, or its fault. */
  function Appended(out: string, text: Result<string>): Result<string> {
    match text
    case Ok(t) => Ok(out + t)
    case Err(f) => Err(f)
  }

  /** One step of a constructor loop listing extents: `coli::expr(e)`, then
      `, ` unless it is the last. */
  method AppendSize(sizes: string, extents: seq<int32>, i: nat) returns (r: string)
    requires i < |extents|
    ensures r == sizes + SizeText(extents[i]) + (if i != |extents| - 1 then ", " else "")
  {
    r := sizes + SizeText(extents[i]);
    if i != |extents| - 1 {
      r := r + ", ";
    }
  }

  /** A std::set iterated from begin() to end(): its elements, least first. */
  method SortedNames(s: set<string>) returns (r: seq<string>)
    ensures r == Ascending(s)
  {
    r := [];
    var rest := s;
    while rest != {}
      invariant r + Ascending(rest) == Ascending(s)
      decreases |rest|
    {
      LeastExists(rest);
      var m :| IsLeast(m, rest);
      LeastUnique(m, Least(rest), rest);
      assert Ascending(rest) == [m] + Ascending(rest - {m});
      assert r + Ascending(rest) == (r + [m]) + Ascending(rest - {m});
      r := r + [m];
      rest := rest - {m};
    }
  }

  class CodeGen {
    const lib: Library
    const func: string
    var stream: string
    var indent: int
    var scope: Scope
    var loopDims: seq<Loop>
    var computationList: set<string>
    var constantList: set<string>
    var inputBuffers: set<string>
    var outputBuffers: set<string>
    var temporaryBuffers: set<string>

    /** The generator's fields as a lowering state. */
    function Snapshot(): State
      reads this
    {
      State(stream, indent, scope, loopDims, computationList, constantList, inputBuffers, outputBuffers, temporaryBuffers)
    }

    /** A generator writing to an empty stream, with nothing declared yet. */
    constructor (lib: Library, func: string)
      ensures this.lib == lib && this.func == func && Snapshot() == Initial
    {
      this.lib := lib;
      this.func := func;
      stream := "";
      indent := 0;
      scope := [];
      loopDims := [];
      computationList := {};
      constantList := {};
      inputBuffers := {};
      outputBuffers := {};
      temporaryBuffers := {};
    }

    method PushLoopDim(name: string, min: Expr, extent: Expr)
      modifies this`loopDims
      ensures loopDims == old(loopDims) + [Loop(name, min, extent)]
    {
      loopDims := loopDims + [Loop(name, min, extent)];
    }

    method PopLoopDim()
      requires |loopDims| > 0
      modifies this`loopDims
      ensures loopDims == old(loopDims)[..|old(loopDims)| - 1]
    {
      loopDims := loopDims[..|loopDims| - 1];
    }

    /** get_loop_bound_vars. */
    method LoopBoundVars() returns (r: string)
      ensures r == BoundVarsText(lib, loopDims)
    {
      var relevant: seq<Expr> := [];
      var i := 0;
      while i < |loopDims|
        invariant 0 <= i <= |loopDims|
        invariant relevant == BoundParams(lib, loopDims[..i])
      {
        assert loopDims[..i + 1][..i] == loopDims[..i];
        var d := loopDims[i];
        if !lib.isConst(d.min) {
          relevant := relevant + [d.min];
        }
        if !lib.isConst(d.extent) {
          relevant := relevant + [d.extent];
        }
        i := i + 1;
      }
      assert loopDims[..i] == loopDims;
      if relevant == [] {
        return "";
      }
      r := ToString(Texts(lib, relevant));
    }

    /** get_loop_bounds. */
    method LoopBounds() returns (r: string)
      ensures r == BoundsText(lib, loopDims)
    {
      var texts := LoopTexts(lib, loopDims);
      var ss := "(";
      var i := 0;
      while i < |loopDims|
        invariant 0 <= i <= |loopDims|
        invariant ss == "(" + JoinedPrefix(texts, ") and (", i)
      {
        JoinedPrefixStep(texts, ") and (", i);
        ss := ss + lib.loopText(loopDims[i]);
        if i != |loopDims| - 1 {
          ss := ss + ") and (";
        }
        i := i + 1;
      }
      JoinedPrefixAll(texts, ") and (");
      r := ss + ")";
    }

    /** print(Expr): substitute every let, then write the expression. */
    method PrintValue(e: Expr) returns (r: Outcome)
      modifies this`stream
      ensures Reflects(r, Appended(old(stream), Printed(Ctx(indent, constantList, computationList), e)), stream)
    {
      var e1 := SubstLets(e);
      r := PrintExpr(e1);
    }

    /** The expression visitors (e.accept): write the expression to the stream, or
        stop with the fault its visitor raises. The operands are visited directly:
        print's substitution leaves the let-free operands of a substituted
        expression as they are (Lets.SubstLetsFixes). */
    method PrintExpr(e: Expr) returns (r: Outcome)
      modifies this`stream
      ensures Reflects(r, Appended(old(stream), Render(Ctx(indent, constantList, computationList), e)), stream)
      decreases e, 1
    {
      if e.Binary? || e.Min? || e.Max? {
        r := PrintPair(e);
      } else if e.Not? {
        r := PrintNot(e);
      } else if e.Select? {
        r := PrintSelect(e);
      } else if e.Call? {
        r := PrintCall(e);
      } else {
        r := PrintLeaf(e);
      }
    }

    /** Logical negation: `!` before the operand. */
    method PrintNot(e: Expr) returns (r: Outcome)
      requires e.Not?
      modifies this`stream
      ensures Reflects(r, Appended(old(stream), Render(Ctx(indent, constantList, computationList), e)), stream)
      decreases e, 0
    {
      ghost var s0 := stream;
      ghost var ctx := Ctx(indent, constantList, computationList);
      stream := stream + "!";
      r := PrintExpr(e.a);
      if r.Pass? {
        AppendAssoc(s0, "!", Render(ctx, e.a).value);
      }
    }

    /** Literals and variables, and the node kinds the backend refuses. */
    method PrintLeaf(e: Expr) returns (r: Outcome)
      requires !(e.Binary? || e.Min? || e.Max? || e.Not? || e.Select? || e.Call?)
      modifies this`stream
      ensures Reflects(r, Appended(old(stream), Render(Ctx(indent, constantList, computationList), e)), stream)
    {
      match e
      case IntImm(t, v) =>
        stream := stream + ("coli::expr(" + IntCast(t.bits) + Decimal(v as int) + ")");
        return Pass;
      case UIntImm(t, v) =>
        stream := stream + ("coli::expr(" + UIntCast(t.bits) + Decimal(v as int) + ")");
        return Pass;
      case FloatImm(t) =>
        if t.bits == 32 {
          stream := stream + "coli::expr((float)op->value);";
        } else if t.bits == 64 {
          stream := stream + "coli::expr(op->value);";
        } else {
          return Fail(UnsupportedConstruct);
        }
        return Pass;
      case Variable(_, n, hasParam, hasImage) =>
        if hasParam || hasImage {
          return Fail(UnsupportedConstruct);
        }
        if n in constantList {
          stream := stream + (n + "(0)");
        } else {
          stream := stream + ("coli::idx(\"" + n + "\")");
        }
        return Pass;
      case _ =>
        return Fail(UnsupportedConstruct);
    }

    /** Binary operators and min/max: an opening text, the two operands around
        the operator text, and a closing parenthesis. */
    method PrintPair(e: Expr) returns (r: Outcome)
      requires e.Binary? || e.Min? || e.Max?
      modifies this`stream
      ensures Reflects(r, Appended(old(stream), Render(Ctx(indent, constantList, computationList), e)), stream)
      decreases e, 0
    {
      var open, mid := "(", "";
      if e.Binary? {
        mid := OpText(e.op);
      } else {
        open := if e.Min? then "coli::expr(coli::o_min, " else "coli::expr(coli::o_max, ";
        mid := ", ";
      }
      ghost var ctx := Ctx(indent, constantList, computationList);
      ghost var s0 := stream;
      stream := stream + open;
      r := PrintExpr(e.a);
      if r.Fail? { return; }
      ghost var ta := Render(ctx, e.a).value;
      AppendAssoc(s0, open, ta);
      AppendAssoc(s0, open + ta, mid);
      stream := stream + mid;
      r := PrintExpr(e.b);
      if r.Fail? { return; }
      ghost var tb := Render(ctx, e.b).value;
      AppendAssoc(s0, open + ta + mid, tb);
      AppendAssoc(s0, open + ta + mid + tb, ")");
      stream := stream + ")";
      assert Render(ctx, e) == Ok(open + ta + mid + tb + ")");
    }

    /** select(c, t, f): written at the current indentation. */
    method PrintSelect(e: Expr) returns (r: Outcome)
      requires e.Select?
      modifies this`stream
      ensures Reflects(r, Appended(old(stream), Render(Ctx(indent, constantList, computationList), e)), stream)
      decreases e, 0
    {
      ghost var ctx := Ctx(indent, constantList, computationList);
      ghost var s0 := stream;
      stream := stream + Spaces(indent);
      ghost var acc := Spaces(indent);
      AppendAssoc(s0, acc, "coli::expr(coli::o_cond, ");
      acc := acc + "coli::expr(coli::o_cond, ";
      stream := stream + "coli::expr(coli::o_cond, ";
      r := PrintExpr(e.cond);
      if r.Fail? { return; }
      ghost var tc := Render(ctx, e.cond).value;
      AppendAssoc(s0, acc, tc);
      AppendAssoc(s0, acc + tc, ", ");
      acc := acc + tc + ", ";
      stream := stream + ", ";
      r := PrintExpr(e.tval);
      if r.Fail? { return; }
      ghost var tt := Render(ctx, e.tval).value;
      AppendAssoc(s0, acc, tt);
      AppendAssoc(s0, acc + tt, ", ");
      acc := acc + tt + ", ";
      stream := stream + ", ";
      r := PrintExpr(e.fval);
      if r.Fail? { return; }
      ghost var tf := Render(ctx, e.fval).value;
      AppendAssoc(s0, acc, tf);
      AppendAssoc(s0, acc + tf, ")");
      acc := acc + tf + ")";
      stream := stream + ")";
      assert Render(ctx, e) == Ok(acc);
    }

    /** A call to a Halide function or image: `name(arg, arg, ...)`. */
    method PrintCall(e: Expr) returns (r: Outcome)
      requires e.Call?
      modifies this`stream
      ensures Reflects(r, Appended(old(stream), Render(Ctx(indent, constantList, computationList), e)), stream)
      decreases e, 0
    {
      if e.callType != Halide && e.callType != Image {
        return Fail(UnsupportedConstruct);
      }
      if e.name !in computationList {
        return Fail(StructuralPrecondition);
      }
      ghost var ctx := Ctx(indent, constantList, computationList);
      ghost var s0 := stream;
      stream := stream + (e.name + "(");
      var i := 0;
      assert (e.name + "(") + RenderArgs(ctx, e, 0).value == e.name + "(";
      while i < |e.args|
        invariant 0 <= i <= |e.args|
        invariant RenderArgs(ctx, e, i).Ok? && stream == s0 + ((e.name + "(") + RenderArgs(ctx, e, i).value)
      {
        ghost var acc := (e.name + "(") + RenderArgs(ctx, e, i).value;
        r := PrintExpr(e.args[i]);
        if r.Fail? {
          RenderArgsFailureSticks(ctx, e, i + 1, |e.args|);
          return;
        }
        ghost var t := Render(ctx, e.args[i]).value;
        var sep := if i < |e.args| - 1 then ", " else "";
        AppendAssoc(s0, acc, t);
        AppendAssoc(s0, acc + t, sep);
        AppendAssoc(e.name + "(", RenderArgs(ctx, e, i).value, t);
        AppendAssoc(e.name + "(", RenderArgs(ctx, e, i).value + t, sep);
        stream := stream + sep;
        i := i + 1;
      }
      AppendAssoc(s0, (e.name + "(") + RenderArgs(ctx, e, i).value, ")");
      stream := stream + ")";
      return Pass;
    }

    /** define_constant. */
    method DefineConstant(name: string, val: Expr) returns (r: Outcome)
      modifies this
      ensures Reflects(r, ConstantDef(lib, func, old(Snapshot()), name, val), Snapshot())
    {
      if name in constantList {
        return Fail(DuplicateDefinition);
      }
      var v := lib.simplify(val);
      stream := stream + Spaces(indent);
      stream := stream + "coli::constant " + name + "(\"" + name + "\", ";
      r := PrintValue(v);
      if r.Fail? { return; }
      var tag := TypeTag(TypeOf(v));
      if tag.Err? {
        return Fail(tag.fault);
      }
      stream := stream + ", " + PrimitiveText(tag.value) + ", true, NULL, 0, &" + func + ");\n";
      constantList := constantList + {name};
    }

    /** The start of visit(const For *): push the dimension, resolve its bound
        variables and declare them as constants. */
    method EnterFor(name: string, min: Expr, extent: Expr) returns (r: Outcome)
      modifies this
      ensures Reflects(r, ForEntry(lib, func, old(Snapshot()), name, min, extent), Snapshot())
    {
      PushLoopDim(name, min, extent);
      if !min.Variable? || !extent.Variable? {
        return Fail(StructuralPrecondition);
      }
      var minVal := ScopeGet(scope, min.name);
      if minVal.Err? {
        return Fail(minVal.fault);
      }
      var extentVal := ScopeGet(scope, extent.name);
      if extentVal.Err? {
        return Fail(extentVal.fault);
      }
      var replacements := Replacements(scope, min.name, extent.name);
      var minBound := lib.substitute(replacements, minVal.value);
      minBound := lib.substitute(replacements, minBound);
      var extentBound := lib.substitute(replacements, extentVal.value);
      extentBound := lib.substitute(replacements, extentBound);
      stream := stream + Spaces(indent);
      stream := stream + "// Define loop bounds for dimension \"" + name + "\".\n";
      r := DefineConstant(min.name, minBound);
      if r.Fail? { return; }
      r := DefineConstant(extent.name, extentBound);
      if r.Fail? { return; }
      stream := stream + "\n";
    }

    /** visit(const Provide *). */
    method VisitProvide(name: string, values: seq<Expr>, args: seq<Expr>) returns (r: Outcome)
      modifies this
      ensures Reflects(r, ProvideStep(lib, func, old(Snapshot()), name, values, args), Snapshot())
    {
      if name in computationList {
        return Fail(DuplicateDefinition);
      }
      if "buff_" + name !in temporaryBuffers && "buff_" + name !in outputBuffers {
        return Fail(StructuralPrecondition);
      }
      var i := 0;
      while i < |args|
        invariant 0 <= i <= |args|
        invariant forall j :: 0 <= j < i ==> args[j].Variable?
      {
        if !args[i].Variable? {
          return Fail(UnsupportedConstruct);
        }
        i := i + 1;
      }
      if |values| != 1 {
        return Fail(UnsupportedConstruct);
      }
      r := DeclareComputation(name, values[0], args);
    }

    /** The rest of visit(const Provide *): the computation's declaration and its
        access to its buffer. */
    method DeclareComputation(name: string, value: Expr, args: seq<Expr>) returns (r: Outcome)
      modifies this
      ensures Reflects(r, ComputationDef(lib, func, old(Snapshot()), name, value, args), Snapshot())
    {
      var dims := ToString(Texts(lib, args));
      OpenDeclaration(name, dims);
      r := CloseDeclaration(name, dims, value);
    }

    method OpenDeclaration(name: string, dims: string)
      modifies this
      ensures Snapshot() == OpenComputation(lib, old(Snapshot()), name, dims)
    {
      var vars := LoopBoundVars();
      var bounds := LoopBounds();
      stream := stream + DeclarationHead(indent, name, dims, vars, bounds);
      indent := indent + 5 * TabSize;
    }

    method CloseDeclaration(name: string, dims: string, value: Expr) returns (r: Outcome)
      modifies this
      ensures Reflects(r, CloseComputation(func, old(Snapshot()), name, dims, value), Snapshot())
    {
      ghost var st := Snapshot();
      ghost var rendered := Printed(CtxOf(st), value);
      r := PrintValue(value);
      if r.Fail? {
        assert rendered.Err?;
        return;
      }
      var tag := TypeTag(TypeOf(value));
      if tag.Err? {
        return Fail(tag.fault);
      }
      assert stream == st.out + rendered.value;
      WriteTail(name, dims, tag.value);
    }

    /** The end of a declaration: its tail, the indentation restored, and the
        computation registered. */
    method WriteTail(name: string, dims: string, tag: Primitive)
      modifies this
      ensures Snapshot() == old(Snapshot()).(out := old(stream) + DeclarationTail(func, old(indent) - 5 * TabSize, name, dims, PrimitiveText(tag)),
                                             indent := old(indent) - 5 * TabSize,
                                             computations := old(computationList) + {name})
    {
      stream := stream + DeclarationTail(func, indent - 5 * TabSize, name, dims, PrimitiveText(tag));
      indent := indent - 5 * TabSize;
      computationList := computationList + {name};
    }

    /** The start of visit(const Realize *): check the node and declare its
        temporary buffer. */
    method EnterRealize(name: string, types: seq<Type>, bounds: seq<Range>) returns (r: Outcome)
      modifies this
      ensures Reflects(r, RealizeEntry(lib, func, old(Snapshot()), name, types, bounds), Snapshot())
    {
      var b := "buff_" + name;
      if b in temporaryBuffers {
        return Fail(DuplicateDefinition);
      }
      var i := 1;
      while i < |types|
        invariant 1 <= i
        invariant forall j :: 1 <= j < i && j < |types| ==> types[j - 1] == types[j]
      {
        if types[i - 1] != types[i] {
          return Fail(UnsupportedConstruct);
        }
        i := i + 1;
      }
      i := 0;
      while i < |bounds|
        invariant 0 <= i <= |bounds|
        invariant forall j :: 0 <= j < i ==> lib.isZero(bounds[j].min)
      {
        if !lib.isZero(bounds[i].min) {
          return Fail(UnsupportedConstruct);
        }
        i := i + 1;
      }
      stream := stream + Spaces(indent) + Spaces(indent) + "coli::buffer " + b + "(\"" + b + "\", "
        + Decimal(|bounds|) + ", " + "{";
      r := PrintExtents(bounds);
      if r.Fail? { return; }
      stream := stream + "}, ";
      if types == [] {
        return Fail(StructuralPrecondition);
      }
      var tag := TypeTag(types[0]);
      if tag.Err? {
        return Fail(tag.fault);
      }
      stream := stream + PrimitiveText(tag.value) + ", NULL, coli::a_temporary, &" + func + ");\n";
      temporaryBuffers := temporaryBuffers + {b};
    }

    /** The extents of a Realize's bounds, separated by commas. */
    method PrintExtents(bounds: seq<Range>) returns (r: Outcome)
      modifies this`stream
      ensures Reflects(r, Appended(old(stream), RenderList(Ctx(indent, constantList, computationList), SubstLetsAll(Extents(bounds)), |bounds|)), stream)
    {
      ghost var ctx := Ctx(indent, constantList, computationList);
      ghost var extents := SubstLetsAll(Extents(bounds));
      ghost var base := stream;
      r := Pass;
      var i := 0;
      while i < |bounds|
        invariant 0 <= i <= |bounds|
        invariant r == Pass && ctx == Ctx(indent, constantList, computationList)
        invariant RenderList(ctx, extents, i).Ok? && stream == base + RenderList(ctx, extents, i).value
      {
        assert bounds[i].extent == Extents(bounds)[i];
        PrintedListStep(ctx, Extents(bounds), i, base);
        r := PrintValue(bounds[i].extent);
        if r.Fail? {
          RenderListFailureSticks(ctx, extents, i + 1, |bounds|);
          return;
        }
        var sep := if i != |bounds| - 1 then ", " else "";
        stream := stream + sep;
        i := i + 1;
      }
    }

    /** print(Stmt): substitute the lets of every expression, keeping the let
        statements, then visit the statement. */
    method Print(s: Stmt) returns (r: Outcome)
      modifies this
      ensures Reflects(r, Lower(lib, func, old(Snapshot()), SubstLetsStmt(s)), Snapshot())
    {
      var s1 := SubstLetsStmt(s);
      r := Accept(s1);
    }

    /** s.accept: dispatch to the visitor of the node kind. The bodies are visited
        directly: print's substitution leaves the let-free bodies of a substituted
        statement as they are (Lets.SubstLetsStmtFixes). */
    method Accept(s: Stmt) returns (r: Outcome)
      modifies this
      ensures Reflects(r, Lower(lib, func, old(Snapshot()), s), Snapshot())
      decreases s, 1
    {
      if s.LetStmt? {
        r := VisitLetStmt(s);
      } else if s.ProducerConsumer? {
        r := VisitProducerConsumer(s);
      } else if s.For? {
        r := VisitFor(s);
      } else if s.Provide? {
        r := VisitProvide(s.name, s.values, s.args);
      } else if s.Realize? {
        r := VisitRealize(s);
      } else if s.Block? {
        r := VisitBlock(s);
      } else if s.IfThenElse? {
        // only the then-branch is lowered
        r := Accept(s.thenCase);
      } else if s.AssertStmt? || s.Evaluate? {
        r := Pass;
      } else {
        r := Fail(UnsupportedConstruct);
      }
    }

    method VisitLetStmt(s: Stmt) returns (r: Outcome)
      requires s.LetStmt?
      modifies this
      ensures Reflects(r, Lower(lib, func, old(Snapshot()), s), Snapshot())
      decreases s, 0
    {
      scope := ScopePush(scope, s.name, s.value);
      r := Accept(s.body);
      if r.Fail? { return; }
      scope := ScopePop(scope, s.name);
    }

    method VisitProducerConsumer(s: Stmt) returns (r: Outcome)
      requires s.ProducerConsumer?
      modifies this
      ensures Reflects(r, Lower(lib, func, old(Snapshot()), s), Snapshot())
      decreases s, 0
    {
      if s.body.Block? {
        return Fail(UnsupportedConstruct);
      }
      if s.isProducer && s.name in computationList {
        return Fail(DuplicateDefinition);
      }
      var oldLoopDims := loopDims;
      r := Accept(s.body);
      if r.Fail? { return; }
      loopDims := oldLoopDims;
    }

    method VisitFor(s: Stmt) returns (r: Outcome)
      requires s.For?
      modifies this
      ensures Reflects(r, Lower(lib, func, old(Snapshot()), s), Snapshot())
      decreases s, 0
    {
      r := EnterFor(s.name, s.min, s.extent);
      if r.Fail? { return; }
      r := Accept(s.body);
      if r.Fail? { return; }
      PopLoopDim();
    }

    method VisitRealize(s: Stmt) returns (r: Outcome)
      requires s.Realize?
      modifies this
      ensures Reflects(r, Lower(lib, func, old(Snapshot()), s), Snapshot())
      decreases s, 0
    {
      r := EnterRealize(s.name, s.types, s.bounds);
      if r.Fail? { return; }
      r := Accept(s.body);
    }

    method VisitBlock(s: Stmt) returns (r: Outcome)
      requires s.Block?
      modifies this
      ensures Reflects(r, Lower(lib, func, old(Snapshot()), s), Snapshot())
      decreases s, 0
    {
      r := Accept(s.first);
      if r.Fail? { return; }
      if s.rest.Some? {
        r := Accept(s.rest.value);
      }
    }
      /** The body of the constructor: check that the argument lists line up,
        write the preamble, then declare every output and every input. */
    method Begin(outputs: seq<Function>, outExtents: seq<seq<int32>>, outTypes: seq<Type>,
                 inputs: seq<string>, inExtents: seq<seq<int32>>, inTypes: seq<Type>) returns (r: Outcome)
      modifies this
      ensures Reflects(r, Prologue(lib, func, old(Snapshot()), outputs, outExtents, outTypes, inputs, inExtents, inTypes), Snapshot())
    {
      if |outputs| != |outExtents| || |outExtents| != |outTypes| || |inputs| != |inExtents| || |inExtents| != |inTypes| {
        return Fail(StructuralPrecondition);
      }
      PrologueSteps(lib, func, Snapshot(), outputs, outExtents, outTypes, inputs, inExtents, inTypes);
      OpenMain();
      r := DeclareOutputs(outputs, outExtents, outTypes);
      if r.Fail? { return; }
      r := DeclareInputs(inputs, inExtents, inTypes);
    }

    /** The preamble, up to the declaration of the Coli function, with the
        indentation moved inside `main`. */
    method OpenMain()
      modifies this`stream, this`indent
      ensures Snapshot() == Opened(func, old(Snapshot()))
    {
      ghost var st := Snapshot();
      var preamble := PreambleText(func, indent + TabSize);
      stream := stream + preamble;
      indent := indent + TabSize;
      assert Snapshot() == st.(out := st.out + preamble, indent := st.indent + TabSize);
    }

    /** The constructor's loop over the outputs. */
    method DeclareOutputs(outputs: seq<Function>, extents: seq<seq<int32>>, types: seq<Type>) returns (r: Outcome)
      requires |outputs| == |extents| == |types|
      modifies this
      ensures Reflects(r, EmitOutputs(func, old(Snapshot()), outputs, extents, types, 0), Snapshot())
    {
      var k := 0;
      while k < |outputs|
        invariant 0 <= k <= |outputs|
        invariant EmitOutputs(func, old(Snapshot()), outputs, extents, types, 0) == EmitOutputs(func, Snapshot(), outputs, extents, types, k)
      {
        ghost var cur := Snapshot();
        EmitOutputsStep(func, cur, outputs, extents, types, k);
        r := DeclareOutput(outputs[k], extents[k], types[k]);
        if r.Fail? { return; }
        k := k + 1;
      }
      r := Pass;
    }

    /** One output: bind the min and extent of each dimension, then declare its
        output buffer. */
    method DeclareOutput(f: Function, extents: seq<int32>, t: Type) returns (r: Outcome)
      modifies this
      ensures Reflects(r, EmitOutput(func, old(Snapshot()), f, extents, t), Snapshot())
    {
      if |extents| != |f.args| {
        return Fail(StructuralPrecondition);
      }
      var sizes := BindOutputDims(f.name, extents);
      var tag := TypeTag(t);
      if tag.Err? {
        return Fail(tag.fault);
      }
      var b := "buff_" + f.name;
      stream := stream + BufferLine(func, indent, b, |f.args|, sizes, PrimitiveText(tag.value), "coli::a_output");
      outputBuffers := outputBuffers + {b};
      r := Pass;
    }

    /** The loop over an output's dimensions: bind each min to zero and each
        extent to the buffer's extent, and list the extents. */
    method BindOutputDims(f: string, extents: seq<int32>) returns (sizes: string)
      modifies this`scope
      ensures scope == OutputScope(old(scope), f, extents, |extents|)
      ensures sizes == SizesText(extents)
    {
      sizes := "{";
      var i := 0;
      while i < |extents|
        invariant 0 <= i <= |extents|
        invariant sizes == "{" + JoinedPrefix(SizeTexts(extents), ", ", i)
        invariant scope == OutputScope(old(scope), f, extents, i)
      {
        JoinedPrefixPush("{", SizeTexts(extents), ", ", i);
        sizes := AppendSize(sizes, extents, i);
        var minName := PrintName(f + ".min." + Decimal(i));
        var extentName := PrintName(f + ".extent." + Decimal(i));
        scope := ScopePush(ScopePush(scope, minName, IntImm(Int32, 0)), extentName, IntImm(Int32, extents[i] as int64));
        i := i + 1;
      }
      JoinedPrefixAll(SizeTexts(extents), ", ");
      sizes := sizes + "}";
    }

    /** The constructor's loop over the inputs. */
    method DeclareInputs(inputs: seq<string>, extents: seq<seq<int32>>, types: seq<Type>) returns (r: Outcome)
      requires |inputs| == |extents| == |types|
      modifies this
      ensures Reflects(r, EmitInputs(lib, func, old(Snapshot()), inputs, extents, types, 0), Snapshot())
    {
      var k := 0;
      while k < |inputs|
        invariant 0 <= k <= |inputs|
        invariant EmitInputs(lib, func, old(Snapshot()), inputs, extents, types, 0) == EmitInputs(lib, func, Snapshot(), inputs, extents, types, k)
      {
        ghost var cur := Snapshot();
        EmitInputsStep(lib, func, cur, inputs, extents, types, k);
        r := DeclareInput(inputs[k], extents[k], types[k]);
        if r.Fail? { return; }
        k := k + 1;
      }
      r := Pass;
    }

    /** One input: push a transient loop per dimension, declare the buffer, the
        computation reading it and their access, then pop the loops again. */
    method DeclareInput(name: string, extents: seq<int32>, t: Type) returns (r: Outcome)
      modifies this
      ensures Reflects(r, EmitInput(lib, func, old(Snapshot()), name, extents, t), Snapshot())
    {
      ghost var st := Snapshot();
      var dummy, sizes := PushDummyLoops(extents);
      var tag := TypeTag(t);
      if tag.Err? {
        return Fail(tag.fault);
      }
      var text := InputDeclarations(name, |extents|, dummy, sizes, tag.value);
      RecordInput(name, text);
      assert (st.loopDims + DummyLoops(extents, |extents|))[..|st.loopDims|] == st.loopDims;
      PopLoops(|extents|);
      assert Snapshot() == st.(out := st.out + text, inputBuffers := st.inputBuffers + {"buff_" + name},
                               computations := st.computations + {name});
      r := Pass;
    }

    /** Write an input's declarations and register its buffer and computation. */
    method RecordInput(name: string, text: string)
      modifies this`stream, this`inputBuffers, this`computationList
      ensures stream == old(stream) + text
      ensures inputBuffers == old(inputBuffers) + {"buff_" + name} && computationList == old(computationList) + {name}
    {
      stream := stream + text;
      inputBuffers := inputBuffers + {"buff_" + name};
      computationList := computationList + {name};
    }

    /** The text declaring an input, over the loops currently pushed: its
        buffer, the computation reading it, and their access. */
    method InputDeclarations(name: string, rank: nat, dummy: seq<string>, sizes: string, tag: Primitive) returns (text: string)
      ensures var dims := ListText(dummy);
        text == InputText(func, indent, name, rank, sizes,
                          IterSpace(BoundVarsText(lib, loopDims), name, dims, BoundsText(lib, loopDims)), dims, PrimitiveText(tag))
    {
      var dims := ToString(dummy);
      var vars := LoopBoundVars();
      var bounds := LoopBounds();
      var space := IterSpace(vars, name, dims, bounds);
      text := InputText(func, indent, name, rank, sizes, space, dims, PrimitiveText(tag));
    }

    /** The loop pushing an input's transient loops, one per dimension, while
        naming its dimensions and listing its extents. */
    method PushDummyLoops(extents: seq<int32>) returns (dummy: seq<string>, sizes: string)
      modifies this`loopDims
      ensures loopDims == old(loopDims) + DummyLoops(extents, |extents|)
      ensures dummy == DummyDims(|extents|) && sizes == SizesText(extents)
    {
      dummy := [];
      sizes := "{";
      var i := 0;
      while i < |extents|
        invariant 0 <= i <= |extents|
        invariant dummy == DummyDims(i)
        invariant sizes == "{" + JoinedPrefix(SizeTexts(extents), ", ", i)
        invariant loopDims == old(loopDims) + DummyLoops(extents, i)
      {
        var loop := Loop(DimName(i), IntImm(Int32, 0), IntImm(Int32, extents[i] as int64));
        AppendAssoc(old(loopDims), DummyLoops(extents, i), [loop]);
        dummy := dummy + [DimName(i)];
        PushLoopDim(loop.name, loop.min, loop.extent);
        JoinedPrefixPush("{", SizeTexts(extents), ", ", i);
        sizes := AppendSize(sizes, extents, i);
        i := i + 1;
      }
      JoinedPrefixAll(SizeTexts(extents), ", ");
      sizes := sizes + "}";
    }

    /** pop_loop_dim, `n` times. */
    method PopLoops(n: nat)
      requires n <= |loopDims|
      modifies this`loopDims
      ensures loopDims == old(loopDims)[..|old(loopDims)| - n]
    {
      var i := 0;
      while i < n
        invariant 0 <= i <= n
        invariant loopDims == old(loopDims)[..|old(loopDims)| - i]
      {
        PopLoopDim();
        i := i + 1;
      }
    }

    /** The destructor: pass every output buffer, then every input buffer, to
        set_arguments, write the calls that generate the object file, and close
        `main`. */
    method Finish()
      modifies this
      ensures Snapshot() == Epilogue(func, old(Snapshot()))
    {
      var outs := SortedNames(outputBuffers);
      var ins := SortedNames(inputBuffers);
      var buffers := ArgumentList(outs, ins);
      stream := stream + EpilogueText(func, indent, buffers);
      indent := indent - TabSize;
    }
  }

  /** The `{&b0, &b1, ...}` list the destructor builds: the outputs, then one
      separator if both groups are non-empty, then the inputs. */
  method ArgumentList(outs: seq<string>, ins: seq<string>) returns (buffers: string)
    ensures buffers == ArgumentsText(outs + ins)
  {
    ghost var a, b := AddressOf(outs), AddressOf(ins);
    buffers := "{";
    var count := 0;
    var i := 0;
    while i < |outs|
      invariant 0 <= i <= |outs| && count == i
      invariant buffers == "{" + JoinedPrefix(a, ", ", i)
    {
      JoinedPrefixPush("{", a, ", ", i);
      count := count + 1;
      buffers := buffers + ("&" + outs[i]) + (if i != |outs| - 1 then ", " else "");
      i := i + 1;
    }
    JoinedPrefixAll(a, ", ");
    ghost var head := "{" + Join(a, ", ") + (if count > 0 && |ins| > 0 then ", " else "");
    var start := true;
    var j := 0;
    while j < |ins|
      invariant 0 <= j <= |ins|
      invariant start == (j == 0 || count == 0)
      invariant j == 0 ==> buffers == "{" + Join(a, ", ")
      invariant j > 0 ==> buffers == head + JoinedPrefix(b, ", ", j)
    {
      JoinedPrefixPush(head, b, ", ", j);
      if count > 0 && start {
        start := false;
        buffers := buffers + ", ";
      }
      buffers := buffers + ("&" + ins[j]) + (if j != |ins| - 1 then ", " else "");
      j := j + 1;
    }
    JoinedPrefixAll(b, ", ");
    buffers := buffers + "}";
    ArgumentsSplit(outs, ins);
  }

  /** print_to_coli: normalise the variable names of `s`, then run a fresh code
      generator over it; `text` is everything the generator wrote. */
  method PrintToColi(lib: Library, func: string,
                     outputs: seq<Function>, outExtents: seq<seq<int32>>, outTypes: seq<Type>,
                     inputs: seq<string>, inExtents: seq<seq<int32>>, inTypes: seq<Type>, s: Stmt) returns (r: Outcome, text: string)
    ensures Reflects(r, ColiProgram(lib, func, outputs, outExtents, outTypes, inputs, inExtents, inTypes, s), text)
  {
    RunStages(lib, func, Initial, outputs, outExtents, outTypes, inputs, inExtents, inTypes, s);
    var body := NormStmt(s);
    var cg := new CodeGen(lib, func);
    r := cg.Begin(outputs, outExtents, outTypes, inputs, inExtents, inTypes);
    if r.Fail? {
      return r, "";
    }
    r := cg.Print(body);
    if r.Fail? {
      return r, "";
    }
    cg.Finish();
    text := cg.stream;
  }
}
