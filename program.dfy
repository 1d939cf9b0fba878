/** The program skeleton around the lowered statement: what the CodeGen_Coli
    constructor writes and registers before the statement is visited, what its
    destructor writes afterwards, and print_to_coli, which runs the three in turn. */
module Program {
  import opened Outcomes
  import opened Ir
  import opened Text
  import opened TypeMap
  import opened Names
  import opened Normalize
  import opened Ordering
  import opened LoopDims
  import opened Scopes
  import opened Lowering
  import opened Lets

  const HeaderLines: seq<string> := [
    "#include <isl/set.h>",
    "#include <isl/union_map.h>",
    "#include <isl/union_set.h>",
    "#include <isl/ast_build.h>",
    "#include <isl/schedule.h>",
    "#include <isl/schedule_node.h>",
    "",
    "#include <coli/debug.h>",
    "#include <coli/core.h>",
    "",
    "#include <string.h>",
    "#include <Halide.h>",
    "#include \"halide_image_io.h\"",
    ""]

  function Headers(): string {
    Join(HeaderLines, "\n")
  }

  /** The opening of the generated program, up to the declaration of the Coli
      function, written at the indentation inside `main`. */
  function PreambleText(func: string, indent: int): string {
    Concat([Headers(), "\n\n", "using namespace coli;\n\n", "int main(int argc, char **argv)\n", "{\n",
            Spaces(indent), "// Set default coli options.\n",
            Spaces(indent), "global::set_default_coli_options();\n\n",
            Spaces(indent), "coli::function ", func, "(\"", func, "\")", ";\n"])
  }

  /** The `{coli::expr(e0), coli::expr(e1), ...}` list of a buffer's extents. */
  function SizesText(extents: seq<int32>): string {
    "{" + Join(SizeTexts(extents), ", ") + "}"
  }

  function SizeTexts(extents: seq<int32>): (r: seq<string>)
    ensures |r| == |extents|
  {
    seq(|extents|, i requires 0 <= i < |extents| => SizeText(extents[i]))
  }

  /** One extent as a Coli expression. */
  function SizeText(extent: int32): string {
    "coli::expr(" + Decimal(extent as int) + ")"
  }

  /** The scope names of the i-th min and extent of an output function. */
  function MinName(f: string, i: nat): string {
    Normalized(f + ".min." + Decimal(i))
  }

  function ExtentName(f: string, i: nat): string {
    Normalized(f + ".extent." + Decimal(i))
  }

  /** The scope after the first `n` dimensions of an output have bound their min
      to zero and their extent to the buffer's extent. */
  function OutputScope(m: Scope, f: string, extents: seq<int32>, n: nat): (r: Scope)
    requires n <= |extents|
    ensures |r| == |m| + 2 * n && r[..|m|] == m
  {
    if n == 0 then m
    else
      var m1 := OutputScope(m, f, extents, n - 1);
      ScopePush(ScopePush(m1, MinName(f, n - 1), IntImm(Int32, 0)), ExtentName(f, n - 1), IntImm(Int32, extents[n - 1] as int64))
  }

  /** The scope names of the first `n` dimensions of an output. */
  function DimNames(f: string, n: nat): set<string> {
    if n == 0 then {} else DimNames(f, n - 1) + {MinName(f, n - 1), ExtentName(f, n - 1)}
  }

  /** After the constructor has bound an output's first `n` dimensions, the
      scope binds exactly their names besides the ones bound before. */
  lemma {:induction false} OutputScopeBinds(m: Scope, f: string, extents: seq<int32>, n: nat)
    requires n <= |extents|
    ensures BoundNames(OutputScope(m, f, extents, n)) == BoundNames(m) + DimNames(f, n)
  {
    if n > 0 {
      OutputScopeBinds(m, f, extents, n - 1);
      var m1 := OutputScope(m, f, extents, n - 1);
      BoundNamesPush(m1, MinName(f, n - 1), IntImm(Int32, 0));
      BoundNamesPush(ScopePush(m1, MinName(f, n - 1), IntImm(Int32, 0)), ExtentName(f, n - 1), IntImm(Int32, extents[n - 1] as int64));
    }
  }

  /** The newest binding of an output's last extent name is that extent. */
  lemma OutputScopeLastExtent(m: Scope, f: string, extents: seq<int32>, n: nat)
    requires 0 < n <= |extents|
    ensures ScopeGet(OutputScope(m, f, extents, n), ExtentName(f, n - 1)) == Ok(IntImm(Int32, extents[n - 1] as int64))
  {
    var m1 := OutputScope(m, f, extents, n - 1);
    GetPush(ScopePush(m1, MinName(f, n - 1), IntImm(Int32, 0)), ExtentName(f, n - 1), IntImm(Int32, extents[n - 1] as int64), "");
  }

  /** The declaration of a buffer of kind `kind` (`coli::a_output` or
      `coli::a_input`) with `rank` dimensions of sizes `sizes`. */
  function BufferLine(func: string, indent: int, b: string, rank: nat, sizes: string, tag: string, kind: string): (r: string)
    ensures |r| > 0
  {
    Concat([Spaces(indent), "coli::buffer ", b, "(\"", b, "\", ", Decimal(rank), ", ",
            sizes, ", ", tag, ", NULL, ", kind, ", ", "&", func, ");\n"])
  }

  /** One output of the constructor: bind its bounds in the scope and declare its
      output buffer. */
  function EmitOutput(func: string, st: State, f: Function, extents: seq<int32>, t: Type): (r: Result<State>)
    ensures r.Ok? ==> (r.value.outputBuffers == st.outputBuffers + {"buff_" + f.name}
      && r.value.scope == OutputScope(st.scope, f.name, extents, |extents|) && st.out < r.value.out
      && Kept(st, r.value) && r.value.inputBuffers == st.inputBuffers && r.value.computations == st.computations)
  {
    if |extents| != |f.args| then Err(StructuralPrecondition)
    else
      var tag :- TypeTag(t);
      Ok(st.(out := st.out + BufferLine(func, st.indent, "buff_" + f.name, |f.args|, SizesText(extents), PrimitiveText(tag), "coli::a_output"),
             scope := OutputScope(st.scope, f.name, extents, |extents|),
             outputBuffers := st.outputBuffers + {"buff_" + f.name}))
  }

  /** The fields the constructor's loops leave as they found them. */
  predicate Kept(a: State, b: State) {
    b.indent == a.indent && b.loopDims == a.loopDims
    && b.constants == a.constants && b.temporaryBuffers == a.temporaryBuffers
  }

  lemma UnionAssoc(a: set<string>, b: set<string>, c: set<string>)
    ensures a + b + c == a + (b + c)
  {
  }

  /** The buffer names of the outputs from the `i`-th on. */
  function OutputBufferSet(outputs: seq<Function>, i: nat): set<string>
    requires i <= |outputs|
    decreases |outputs| - i
  {
    if i == |outputs| then {} else {"buff_" + outputs[i].name} + OutputBufferSet(outputs, i + 1)
  }

  /** The scope after every output from the `i`-th on has bound its bounds, in order. */
  function OutputsScope(m: Scope, outputs: seq<Function>, extents: seq<seq<int32>>, i: nat): (r: Scope)
    requires i <= |outputs| == |extents|
    ensures |m| <= |r| && r[..|m|] == m
    decreases |outputs| - i
  {
    if i == |outputs| then m
    else
      var m1 := OutputScope(m, outputs[i].name, extents[i], |extents[i]|);
      var r := OutputsScope(m1, outputs, extents, i + 1);
      assert r[..|m|] == r[..|m1|][..|m|];
      r
  }

  /** The scope names of every output from the `i`-th on. */
  function OutputsDimNames(outputs: seq<Function>, extents: seq<seq<int32>>, i: nat): set<string>
    requires i <= |outputs| == |extents|
    decreases |outputs| - i
  {
    if i == |outputs| then {} else DimNames(outputs[i].name, |extents[i]|) + OutputsDimNames(outputs, extents, i + 1)
  }

  /** The outputs' loop binds exactly the min and extent names of every output's
      dimensions besides the names bound before. */
  lemma {:induction false} OutputsScopeBinds(m: Scope, outputs: seq<Function>, extents: seq<seq<int32>>, i: nat)
    requires i <= |outputs| == |extents|
    ensures BoundNames(OutputsScope(m, outputs, extents, i)) == BoundNames(m) + OutputsDimNames(outputs, extents, i)
    decreases |outputs| - i
  {
    if i < |outputs| {
      var m1 := OutputScope(m, outputs[i].name, extents[i], |extents[i]|);
      OutputScopeBinds(m, outputs[i].name, extents[i], |extents[i]|);
      OutputsScopeBinds(m1, outputs, extents, i + 1);
      UnionAssoc(BoundNames(m), DimNames(outputs[i].name, |extents[i]|), OutputsDimNames(outputs, extents, i + 1));
    }
  }

  /** The outputs of the constructor from the `i`-th on, in order; the first
      that fails stops the constructor. */
  function EmitOutputs(func: string, st: State, outputs: seq<Function>, extents: seq<seq<int32>>, types: seq<Type>, i: nat): (r: Result<State>)
    requires i <= |outputs| == |extents| == |types|
    ensures r.Ok? ==> (r.value.outputBuffers == st.outputBuffers + OutputBufferSet(outputs, i)
      && r.value.scope == OutputsScope(st.scope, outputs, extents, i)
      && st.out <= r.value.out && Kept(st, r.value)
      && r.value.inputBuffers == st.inputBuffers && r.value.computations == st.computations)
    decreases |outputs| - i
  {
    if i == |outputs| then Ok(st)
    else
      var st1 :- EmitOutput(func, st, outputs[i], extents[i], types[i]);
      var st2 :- EmitOutputs(func, st1, outputs, extents, types, i + 1);
      PrefixTransitive(st.out, st1.out, st2.out);
      UnionAssoc(st.outputBuffers, {"buff_" + outputs[i].name}, OutputBufferSet(outputs, i + 1));
      Ok(st2)
  }

  /** One step of the outputs' loop. */
  lemma EmitOutputsStep(func: string, st: State, outputs: seq<Function>, extents: seq<seq<int32>>, types: seq<Type>, i: nat)
    requires i < |outputs| == |extents| == |types|
    ensures var one := EmitOutput(func, st, outputs[i], extents[i], types[i]);
      EmitOutputs(func, st, outputs, extents, types, i)
      == if one.Err? then Err(one.fault) else EmitOutputs(func, one.value, outputs, extents, types, i + 1)
  {
  }

  /** The name `i<k>` of an input's k-th dimension. */
  function DimName(k: nat): string {
    "i" + Decimal(k)
  }

  /** The names `i0`, `i1`, ... of an input's first `n` dimensions. */
  function DummyDims(n: nat): (r: seq<string>)
    ensures |r| == n && forall k :: 0 <= k < n ==> r[k] == DimName(k)
  {
    if n == 0 then [] else DummyDims(n - 1) + [DimName(n - 1)]
  }

  /** The transient loops an input is declared over: one per dimension among the
      first `n`, from zero to the buffer's extent. */
  function DummyLoops(extents: seq<int32>, n: nat): (r: seq<Loop>)
    requires n <= |extents|
    ensures |r| == n
    ensures forall k :: 0 <= k < n ==> r[k] == Loop(DimName(k), IntImm(Int32, 0), IntImm(Int32, extents[k] as int64))
  {
    if n == 0 then [] else DummyLoops(extents, n - 1) + [Loop(DimName(n - 1), IntImm(Int32, 0), IntImm(Int32, extents[n - 1] as int64))]
  }

  /** The iteration space of a computation named `name` with dimensions `dims`,
      given the symbolic bounds `vars` and the loop constraints `bounds`. */
  function IterSpace(vars: string, name: string, dims: string, bounds: string): string {
    (if vars != "" then vars + "->{" else "{") + name + dims + ": " + bounds + "}"
  }

  /** The declaration of the computation reading an input. */
  function InputComputationLine(func: string, indent: int, name: string, space: string, tag: string): (r: string)
    ensures |r| > 0
  {
    Concat([Spaces(indent), "coli::computation ", name, "(\"", space, "\", ", "expr(), false, ", tag, ", &", func, ");\n"])
  }

  /** The one-to-one access `{name[dims]->buff_name[dims]}` of a computation. */
  function AccessLine(indent: int, name: string, dims: string): (r: string)
    ensures |r| > 0
  {
    var access := "{" + name + dims + "->" + "buff_" + name + dims + "}";
    Concat([Spaces(indent), name, ".set_access(\"", access, "\");\n"])
  }

  /** One input of the constructor: its buffer, the computation reading it over
      its whole extent, and the one-to-one access between them. The transient
      loops are gone again afterwards. */
  function EmitInput(lib: Library, func: string, st: State, name: string, extents: seq<int32>, t: Type): (r: Result<State>)
    ensures r.Ok? ==> (r.value.inputBuffers == st.inputBuffers + {"buff_" + name}
      && r.value.computations == st.computations + {name} && st.out < r.value.out
      && Kept(st, r.value) && r.value.scope == st.scope && r.value.outputBuffers == st.outputBuffers)
  {
    var tag :- TypeTag(t);
    var dims := ListText(DummyDims(|extents|));
    var stack := st.loopDims + DummyLoops(extents, |extents|);
    var space := IterSpace(BoundVarsText(lib, stack), name, dims, BoundsText(lib, stack));
    Ok(st.(out := st.out + InputText(func, st.indent, name, |extents|, SizesText(extents), space, dims, PrimitiveText(tag)),
           inputBuffers := st.inputBuffers + {"buff_" + name},
           computations := st.computations + {name}))
  }

  /** The three declarations of an input and the blank line after them. */
  function InputText(func: string, indent: int, name: string, rank: nat, sizes: string, space: string, dims: string, tag: string): (r: string)
    ensures |r| > 0
  {
    Concat([BufferLine(func, indent, "buff_" + name, rank, sizes, tag, "coli::a_input"),
            InputComputationLine(func, indent, name, space, tag), AccessLine(indent, name, dims), "\n"])
  }

  /** The input names from the `i`-th on, and their buffer names. */
  function InputSet(inputs: seq<string>, i: nat): set<string>
    requires i <= |inputs|
    decreases |inputs| - i
  {
    if i == |inputs| then {} else {inputs[i]} + InputSet(inputs, i + 1)
  }

  function InputBufferSet(inputs: seq<string>, i: nat): set<string>
    requires i <= |inputs|
    decreases |inputs| - i
  {
    if i == |inputs| then {} else {"buff_" + inputs[i]} + InputBufferSet(inputs, i + 1)
  }

  /** The inputs of the constructor from the `i`-th on, in order; the first
      that fails stops the constructor. */
  function EmitInputs(lib: Library, func: string, st: State, inputs: seq<string>, extents: seq<seq<int32>>, types: seq<Type>, i: nat): (r: Result<State>)
    requires i <= |inputs| == |extents| == |types|
    ensures r.Ok? ==> (r.value.inputBuffers == st.inputBuffers + InputBufferSet(inputs, i)
      && r.value.computations == st.computations + InputSet(inputs, i)
      && st.out <= r.value.out && Kept(st, r.value) && r.value.scope == st.scope
      && r.value.outputBuffers == st.outputBuffers)
    decreases |inputs| - i
  {
    if i == |inputs| then Ok(st)
    else
      var st1 :- EmitInput(lib, func, st, inputs[i], extents[i], types[i]);
      var st2 :- EmitInputs(lib, func, st1, inputs, extents, types, i + 1);
      PrefixTransitive(st.out, st1.out, st2.out);
      UnionAssoc(st.inputBuffers, {"buff_" + inputs[i]}, InputBufferSet(inputs, i + 1));
      UnionAssoc(st.computations, {inputs[i]}, InputSet(inputs, i + 1));
      Ok(st2)
  }

  /** One step of the inputs' loop. */
  lemma EmitInputsStep(lib: Library, func: string, st: State, inputs: seq<string>, extents: seq<seq<int32>>, types: seq<Type>, i: nat)
    requires i < |inputs| == |extents| == |types|
    ensures var one := EmitInput(lib, func, st, inputs[i], extents[i], types[i]);
      EmitInputs(lib, func, st, inputs, extents, types, i)
      == if one.Err? then Err(one.fault) else EmitInputs(lib, func, one.value, inputs, extents, types, i + 1)
  {
  }

  /** The constructor's preamble written, and the indentation moved inside `main`. */
  function Opened(func: string, st: State): State {
    st.(out := st.out + PreambleText(func, st.indent + TabSize), indent := st.indent + TabSize)
  }

  /** The constructor, once its argument lists line up: the outputs, then the
      inputs, after the preamble. */
  lemma PrologueSteps(lib: Library, func: string, st: State,
                      outputs: seq<Function>, outExtents: seq<seq<int32>>, outTypes: seq<Type>,
                      inputs: seq<string>, inExtents: seq<seq<int32>>, inTypes: seq<Type>)
    requires |outputs| == |outExtents| == |outTypes| && |inputs| == |inExtents| == |inTypes|
    ensures var outs := EmitOutputs(func, Opened(func, st), outputs, outExtents, outTypes, 0);
      Prologue(lib, func, st, outputs, outExtents, outTypes, inputs, inExtents, inTypes)
      == if outs.Err? then Err(outs.fault) else EmitInputs(lib, func, outs.value, inputs, inExtents, inTypes, 0)
  {
  }

  /** The constructor: the preamble, then every output, then every input. */
  function Prologue(lib: Library, func: string, st: State,
                    outputs: seq<Function>, outExtents: seq<seq<int32>>, outTypes: seq<Type>,
                    inputs: seq<string>, inExtents: seq<seq<int32>>, inTypes: seq<Type>): (r: Result<State>)
    ensures r.Ok? ==> (|outputs| == |outExtents| == |outTypes| && |inputs| == |inExtents| == |inTypes|
      && st.out + PreambleText(func, st.indent + TabSize) <= r.value.out
      && r.value.indent == st.indent + TabSize && r.value.loopDims == st.loopDims
      && r.value.scope == OutputsScope(st.scope, outputs, outExtents, 0)
      && r.value.outputBuffers == st.outputBuffers + OutputBufferSet(outputs, 0)
      && r.value.inputBuffers == st.inputBuffers + InputBufferSet(inputs, 0)
      && r.value.computations == st.computations + InputSet(inputs, 0)
      && r.value.constants == st.constants && r.value.temporaryBuffers == st.temporaryBuffers)
  {
    if |outputs| != |outExtents| || |outExtents| != |outTypes| || |inputs| != |inExtents| || |inExtents| != |inTypes| then
      Err(StructuralPrecondition)
    else
      var st0 := Opened(func, st);
      var st1 :- EmitOutputs(func, st0, outputs, outExtents, outTypes, 0);
      var st2 :- EmitInputs(lib, func, st1, inputs, inExtents, inTypes, 0);
      PrefixTransitive(st0.out, st1.out, st2.out);
      Ok(st2)
  }

  /** The buffers passed to set_arguments: the output buffers, then the input
      buffers, each group in the order its std::set iterates it. */
  ghost function Arguments(st: State): seq<string> {
    Ascending(st.outputBuffers) + Ascending(st.inputBuffers)
  }

  function AddressOf(names: seq<string>): (r: seq<string>)
    ensures |r| == |names| && forall i :: 0 <= i < |names| ==> r[i] == "&" + names[i]
  {
    seq(|names|, i requires 0 <= i < |names| => "&" + names[i])
  }

  /** The `{&b0, &b1, ...}` argument list of set_arguments. */
  function ArgumentsText(names: seq<string>): string {
    "{" + Join(AddressOf(names), ", ") + "}"
  }

  /** The text the destructor writes at indentation `indent`, given the argument
      list `buffers`. */
  function EpilogueText(func: string, indent: int, buffers: string): (r: string)
    ensures |r| >= 3 && r[|r| - 3..] == "}\n\n"
  {
    var calls := "\n"
      + Spaces(indent) + func + ".set_arguments(" + buffers + ");\n"
      + Spaces(indent) + func + ".gen_isl_ast();\n"
      + Spaces(indent) + func + ".gen_halide_stmt();\n"
      + Spaces(indent) + func + ".dump_halide_stmt();\n"
      + Spaces(indent) + func + ".gen_halide_obj(\"build/generated_" + func + "_test.o\");\n"
      + Spaces(indent - TabSize);
    calls + "}\n\n"
  }

  /** The destructor: set_arguments and the fixed four calls that generate the
      object file, then the closing brace of `main`. */
  ghost function Epilogue(func: string, st: State): (r: State)
    ensures r.indent == st.indent - TabSize && st.out < r.out
  {
    st.(out := st.out + EpilogueText(func, st.indent, ArgumentsText(Arguments(st))), indent := st.indent - TabSize)
  }

  /** set_arguments lists every output buffer and every input buffer exactly
      once, all outputs before all inputs. */
  lemma ArgumentsEnumerate(st: State)
    requires st.outputBuffers !! st.inputBuffers
    ensures |Arguments(st)| == |st.outputBuffers| + |st.inputBuffers|
    ensures forall x :: x in Arguments(st) <==> x in st.outputBuffers || x in st.inputBuffers
    ensures forall i, j :: 0 <= i < j < |Arguments(st)| ==> Arguments(st)[i] != Arguments(st)[j]
    ensures forall i :: 0 <= i < |st.outputBuffers| ==> Arguments(st)[i] in st.outputBuffers
  {
    AscendingEnumerates(st.outputBuffers);
    AscendingEnumerates(st.inputBuffers);
    var a, b := Ascending(st.outputBuffers), Ascending(st.inputBuffers);
    forall i, j | 0 <= i < j < |a + b| ensures (a + b)[i] != (a + b)[j] {
      if i < |a| && j >= |a| {
        assert (a + b)[i] in st.outputBuffers && (a + b)[j] in st.inputBuffers;
      }
    }
  }

  /** The argument list of outputs followed by inputs: the two groups joined,
      with one separator between them when both are non-empty. */
  lemma ArgumentsSplit(outs: seq<string>, ins: seq<string>)
    ensures ArgumentsText(outs + ins)
         == "{" + Join(AddressOf(outs), ", ") + (if |outs| > 0 && |ins| > 0 then ", " else "") + Join(AddressOf(ins), ", ") + "}"
  {
    var a, b := AddressOf(outs), AddressOf(ins);
    assert AddressOf(outs + ins) == a + b;
    JoinAppend(a, b, ", ");
    var mid := if |outs| > 0 && |ins| > 0 then ", " else "";
    var ja, jb := Join(a, ", "), Join(b, ", ");
    assert Join(a + b, ", ") == ja + mid + jb by {
      if a == [] {
        assert ja + mid == "";
      } else if b == [] {
        assert mid + jb == "";
      }
    }
    AppendAssoc("{", ja + mid, jb);
    AppendAssoc("{", ja, mid);
  }

  /** The state CodeGen_Coli starts from: an empty stream and empty registries. */
  const Initial: State := State("", 0, [], [], {}, {}, {}, {}, {})

  /** print_to_coli: normalise the names, run the constructor, lower the
      statement, run the destructor; the result is the generated program. */
  ghost function ColiProgram(lib: Library, func: string,
                             outputs: seq<Function>, outExtents: seq<seq<int32>>, outTypes: seq<Type>,
                             inputs: seq<string>, inExtents: seq<seq<int32>>, inTypes: seq<Type>, s: Stmt): Result<string>
  {
    Run(lib, func, Initial, outputs, outExtents, outTypes, inputs, inExtents, inTypes, s)
  }

  /** The three stages of print_to_coli from the generator state `st`. */
  ghost function Run(lib: Library, func: string, st: State,
                     outputs: seq<Function>, outExtents: seq<seq<int32>>, outTypes: seq<Type>,
                     inputs: seq<string>, inExtents: seq<seq<int32>>, inTypes: seq<Type>, s: Stmt): Result<string>
  {
    var st1 :- Prologue(lib, func, st, outputs, outExtents, outTypes, inputs, inExtents, inTypes);
    var st2 :- Lower(lib, func, st1, SubstLetsStmt(NormStmt(s)));
    Ok(Epilogue(func, st2).out)
  }

  /** `Run` fails with the constructor's fault, with the first fault of the
      lowering, or yields the text the destructor completes. */
  lemma RunStages(lib: Library, func: string, st: State,
                  outputs: seq<Function>, outExtents: seq<seq<int32>>, outTypes: seq<Type>,
                  inputs: seq<string>, inExtents: seq<seq<int32>>, inTypes: seq<Type>, s: Stmt)
    ensures var p := Prologue(lib, func, st, outputs, outExtents, outTypes, inputs, inExtents, inTypes);
            var l := if p.Err? then p else Lower(lib, func, p.value, SubstLetsStmt(NormStmt(s)));
            Run(lib, func, st, outputs, outExtents, outTypes, inputs, inExtents, inTypes, s)
              == if l.Err? then Err(l.fault) else Ok(Epilogue(func, l.value).out)
  {
  }

  /** The text ends with the brace closing `main` and two line breaks. */
  predicate ClosesMain(text: string) {
    |text| >= 3 && text[|text| - 3..] == "}\n\n"
  }

  /** The destructor only appends, and what it appends closes `main`. */
  lemma EpilogueCloses(func: string, st: State)
    ensures st.out <= Epilogue(func, st).out && ClosesMain(Epilogue(func, st).out)
  {
    var e := EpilogueText(func, st.indent, ArgumentsText(Arguments(st)));
    var r := Epilogue(func, st).out;
    assert r == st.out + e;
    assert r[|r| - 3..] == e[|e| - 3..];
  }

  /** The constructor run on a fresh code generator writes the preamble first. */
  lemma PrologueOpens(lib: Library, func: string, st: State,
                      outputs: seq<Function>, outExtents: seq<seq<int32>>, outTypes: seq<Type>,
                      inputs: seq<string>, inExtents: seq<seq<int32>>, inTypes: seq<Type>)
    requires st.out == ""
    requires Prologue(lib, func, st, outputs, outExtents, outTypes, inputs, inExtents, inTypes).Ok?
    ensures PreambleText(func, st.indent + TabSize) <= Prologue(lib, func, st, outputs, outExtents, outTypes, inputs, inExtents, inTypes).value.out
  {
    AppendToEmpty(PreambleText(func, st.indent + TabSize));
  }

  /** A program generated from a fresh stream starts with the preamble and
      ends by closing `main`; print_to_coli starts from `Initial`, whose
      stream is empty. */
  lemma ProgramShape(lib: Library, func: string, st: State,
                     outputs: seq<Function>, outExtents: seq<seq<int32>>, outTypes: seq<Type>,
                     inputs: seq<string>, inExtents: seq<seq<int32>>, inTypes: seq<Type>, s: Stmt)
    requires st.out == ""
    requires Run(lib, func, st, outputs, outExtents, outTypes, inputs, inExtents, inTypes, s).Ok?
    ensures var text := Run(lib, func, st, outputs, outExtents, outTypes, inputs, inExtents, inTypes, s).value;
      PreambleText(func, st.indent + TabSize) <= text && ClosesMain(text)
  {
    var st1 := Prologue(lib, func, st, outputs, outExtents, outTypes, inputs, inExtents, inTypes).value;
    PrologueOpens(lib, func, st, outputs, outExtents, outTypes, inputs, inExtents, inTypes);
    StagesShape(func, PreambleText(func, st.indent + TabSize), st1, Lower(lib, func, st1, SubstLetsStmt(NormStmt(s))).value);
  }

  /** Text written before lowering stays at the head of the program, which the
      destructor closes. */
  lemma StagesShape(func: string, head: string, st1: State, st2: State)
    requires head <= st1.out && st1.out <= st2.out
    ensures head <= Epilogue(func, st2).out && ClosesMain(Epilogue(func, st2).out)
  {
    PrefixTransitive(head, st1.out, st2.out);
    EpilogueCloses(func, st2);
    PrefixTransitive(head, st2.out, Epilogue(func, st2).out);
  }
}
