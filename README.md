# Coli lowering backend of Halide, modelled in Dafny

`CodeGen_Coli` lowers a Halide loop-nest statement to the C++ text of a Coli
program. `print_to_coli` does four things in order:

1. It renames every variable through `print_name`, using the
   `NormalizeVariableName` pre-pass.
2. The constructor writes the headers and the opening of `main`. It then declares
   one buffer per pipeline output and binds its bounds in the scope. For each
   input it declares a buffer, a computation that reads it, and the one-to-one
   access between the two.
3. The statement is visited:
   - a `For` declares its min and extent variables as Coli constants;
   - a `Provide` declares a computation over the enclosing loop nest;
   - a `Realize` declares a temporary buffer;
   - expressions are written as Coli expression text.
4. The destructor writes `set_arguments` with every output buffer and then every
   input buffer, followed by the calls that build the object file, and closes
   `main`.

The model has two layers:

- **Pure layer.** The modules `Lowering`, `Program`, `ExprText`, `Names` and
  `Normalize` describe every visitor as a function on a `State` datatype. The
  datatype holds:
  - the text written so far;
  - the indentation;
  - the scope;
  - the loop-dimension stack;
  - the computation, constant, input, output and temporary-buffer registries.

  Each of these functions returns `Err(fault)` where the source aborts with
  `user_error`, `user_assert` or `internal_assert`.
- **Imperative layer.** The module `CodeGenColi` holds the class `CodeGen`,
  which has the same fields as `CodeGen_Coli`.
  - Its methods write to `stream` and update the registries in place, as the
    source's visitors do.
  - Each method is proved to leave the object in the state the matching pure
    function computes: `Reflects(r, Spec(old(Snapshot())), Snapshot())`.
  - Loops that build text step by step (`print_name`, `to_string`,
    `get_loop_bound_vars`, `get_loop_bounds`, the destructor's argument list,
    the constructor's size lists) are methods with loop invariants. Each one is
    proved to compute its pure counterpart.

The Halide library code that the backend calls is not part of this model. This
covers `substitute`, `simplify`, `is_const`, `is_zero`, `Loop::to_string` and
the IR printer's `operator<<`. These calls are the fields of a `Library` value
that every operation takes as a parameter.

Every expression and statement goes through `print`, which first applies
Halide's `substitute_in_all_lets`. The module `Lets` models that rewrite, so a
`Let` expression is printed as its substituted body.

Two facts about the code:

- `print_name` is idempotent (`Names.NormalizedIdempotent`).
- A call renders only when its call type is `Halide` or `Image` **and** its name
  is a registered computation (`src/CodeGen_Coli.cpp:768-774`).

The model departs from the code in one place, the type tag of booleans. It
uses the corrected mapping described under Findings: a `Bool` is tagged
`coli::p_boolean`, where the code writes `coli::p_uint64`. The members this
affects are listed under Left out.

## Model

| member | source | states |
|---|---|---|
| Text.Spaces | src/CodeGen_Coli.cpp:198-200 | indentation is exactly `n` spaces, none for a non-positive level |
| Text.Digits | src/CodeGen_Coli.cpp:218 | an integer's decimal text is non-empty and made of digits only |
| Text.Decimal | src/CodeGen_Coli.cpp:218 | every integer written by a stream has a non-empty text |
| Text.ToString | src/CodeGen_Coli.cpp:36-48 | the separator loop of `to_string` builds exactly `[` + the items joined by `, ` + `]` |
| Text.ListTextBracketed | src/CodeGen_Coli.cpp:36-48 | a `to_string` text is always bracketed, and it is `[]` for an empty vector |
| Text.JoinCons | src/CodeGen_Coli.cpp:40-45 | the loop-built list equals the first item, then `sep`, then the list of the rest |
| Text.JoinAppend | src/CodeGen_Coli.cpp:40-45 | joining two lists puts exactly one separator between their texts, and none when one of them is empty |
| Text.JoinSnoc | src/CodeGen_Coli.cpp:40-45 | appending one item adds exactly one separator and the item |
| Text.JoinedPrefixStep | src/CodeGen_Coli.cpp:40-45 | one iteration of a separator loop appends the item, then the separator unless the item is the last |
| Names.CharText | src/CodeGen_Coli.cpp:74-81 | each input character becomes a non-empty run of letters, digits and underscores |
| Names.Rewritten | src/CodeGen_Coli.cpp:73-82 | the per-character rewrite holds only word characters and is never shorter than its input |
| Names.RewrittenAppend | src/CodeGen_Coli.cpp:73-82 | the rewrite works character by character: the rewrite of `a + b` is the rewrite of `a` followed by that of `b` |
| Names.RewrittenWordChars | src/CodeGen_Coli.cpp:78-81 | letters, digits and underscores pass through unchanged |
| Names.RewrittenHead | src/CodeGen_Coli.cpp:73-82 | the rewrite of a name starts with the rewrite of its first character |
| Names.NormalizedIsNormal | src/CodeGen_Coli.cpp:65-84 | `print_name` yields only word characters and never starts with a letter; it is empty exactly for the empty name |
| Names.NormalizedFixesNormal | src/CodeGen_Coli.cpp:65-84 | a name without other characters and not starting with a letter is left as it is |
| Names.NormalizedFixedIff | src/CodeGen_Coli.cpp:65-84 | `print_name(n) == n` holds if and only if `n` is such a normal name |
| Names.NormalizedIdempotent | src/CodeGen_Coli.cpp:65-84 | `print_name` applied twice equals `print_name` applied once |
| Names.NormalizedCollides | src/CodeGen_Coli.cpp:74-81 | `print_name` is not injective: `x.y` and `x_y` get the same name |
| Names.PrintName | src/CodeGen_Coli.cpp:65-84 | the source loop computes `Normalized(name)`, so every property above holds for it |
| Normalize.NormExprFixesNormal | src/CodeGen_Coli.cpp:142-175 | an expression whose variable and let names are already normal comes back unchanged, as the `same_as` checks keep it |
| Normalize.NormExprsFixesNormal | src/CodeGen_Coli.cpp:142-175 | the same for a list of expressions |
| Normalize.NormExprIsNormal | src/CodeGen_Coli.cpp:142-175 | every expression the pre-pass produces has only normal names |
| Normalize.NormExprsIsNormal | src/CodeGen_Coli.cpp:142-175 | the same for a list of expressions |
| Normalize.NormRangesFixesNormal | src/CodeGen_Coli.cpp:124-176 | realization bounds with normal names are unchanged by the pre-pass |
| Normalize.NormRangesIsNormal | src/CodeGen_Coli.cpp:124-176 | the pre-pass yields realization bounds with normal names only |
| Normalize.NormStmtFixesNormal | src/CodeGen_Coli.cpp:124-176 | a statement whose loop, let and variable names are all normal comes back unchanged |
| Normalize.NormStmtIsNormal | src/CodeGen_Coli.cpp:124-176 | every statement the pre-pass produces has only normal names |
| Normalize.NormStmtIdempotent | src/CodeGen_Coli.cpp:804-805 | running the pre-pass twice is the same as running it once |
| TypeMap.BoolTagAsWritten | src/CodeGen_Coli.cpp:86-122 | as written, a boolean gets `coli::p_uint64`, and no type ever gets `coli::p_boolean` |
| TypeMap.BoolTag | src/CodeGen_Coli.cpp:116-117 | with the corrected branch order, exactly the booleans get `coli::p_boolean` |
| TypeMap.IntegerTags | src/CodeGen_Coli.cpp:88-107 | an integer of 8, 16 or 32 bits gets the tag of its signedness and width; every other width falls back to 64 |
| TypeMap.TypeTagFails | src/CodeGen_Coli.cpp:108-121 | the mapper fails exactly on handles and on floats other than 32 and 64 bits, with the untranslatable-type fault |
| TypeMap.LiteralCasts | src/CodeGen_Coli.cpp:413-435 | literals of 8, 16 and 32 bits carry the cast `(intN_t)` or `(uintN_t)` naming their width; other widths carry none |
| ExprText.IntLiteral | src/CodeGen_Coli.cpp:413-423 | an IntImm is written as `coli::expr(`, its width cast, its exact decimal value and `)` |
| ExprText.UIntLiteral | src/CodeGen_Coli.cpp:425-435 | the same for a UIntImm |
| ExprText.RenderOk | src/CodeGen_Coli.cpp:378-601 | an expression renders exactly when it lies in the translatable subset (`Renderable`). Success depends on neither the indentation nor the constants. A `Let` reaching the visitors is refused as at `src/CodeGen_Coli.cpp:603-605`; `print` substitutes lets first (`ExprText.PrintedOk`) |
| ExprText.PrintedOk | src/CodeGen_Coli.cpp:50-55 | printing an expression succeeds exactly when its let-substituted form is translatable; a let-free expression is printed as the visitors write it |
| ExprText.PrintedLet | src/CodeGen_Coli.cpp:50-55 | a `Let` with let-free value and body is printed as its body with the variable replaced by the value |
| ExprText.RenderArgsOk | src/CodeGen_Coli.cpp:776-783 | a call's argument list renders exactly when each argument does |
| ExprText.RenderArgsFailureSticks | src/CodeGen_Coli.cpp:776-783 | once an argument fails, the whole call fails with that fault |
| ExprText.RenderedCallsDeclared | src/CodeGen_Coli.cpp:773-774 | an expression that renders calls only computations that are already registered |
| ExprText.RenderableCallsDeclared | src/CodeGen_Coli.cpp:773-774 | the same, for any expression in the translatable subset |
| ExprText.ArgsCallsDeclared | src/CodeGen_Coli.cpp:776-783 | the same, for the arguments of a call |
| ExprText.CallNeedsDeclaration | src/CodeGen_Coli.cpp:773-774 | a call to an unregistered computation is rejected whatever its arguments |
| ExprText.RenderListStep | src/CodeGen_Coli.cpp:751-756 | one more extent appends its text and then `, ` unless it is the last |
| ExprText.PrintedListStep | src/CodeGen_Coli.cpp:750-756 | one step of the extents loop appends the printed extent and then `, ` unless it is the last; an extent that fails makes the list fail with its fault |
| ExprText.RenderListFailureSticks | src/CodeGen_Coli.cpp:751-756 | once an extent fails, the whole list fails with that fault |
| ExprText.RenderArgsIsList | src/CodeGen_Coli.cpp:776-783 | call arguments are written exactly as any other expression list |
| ExprText.RenderListOk | src/CodeGen_Coli.cpp:751-756 | an expression list renders exactly when each member does |
| ExprText.RenderListJoined | src/CodeGen_Coli.cpp:751-756 | a rendered list is its members' texts joined by `, ` |
| LoopDims.BoundParamsAppend | src/CodeGen_Coli.cpp:351-358 | the symbolic bounds of a stack are those of its outer part followed by those of its inner part |
| LoopDims.BoundParamsMembers | src/CodeGen_Coli.cpp:351-358 | an expression is listed exactly when it is a non-constant min or extent of some stacked loop |
| LoopDims.BoundVarsEmpty | src/CodeGen_Coli.cpp:349-363 | `get_loop_bound_vars` is empty exactly when every stacked min and extent is constant |
| LoopDims.BoundsTextPush | src/CodeGen_Coli.cpp:365-376 | pushing a loop adds exactly its own constraint as the last conjunct |
| Scopes.ScopePop | src/CodeGen_Coli.cpp:610 | a pop never makes the scope larger |
| Scopes.PopNewest | src/CodeGen_Coli.cpp:610 | a pop removes exactly the newest binding of the name and keeps every other binding in order |
| Scopes.PopUnbound | src/CodeGen_Coli.cpp:610 | popping a name that has no binding leaves the scope as it is |
| Scopes.ScopeGet | src/CodeGen_Coli.cpp:646-647 | a lookup succeeds exactly for a bound name; otherwise it fails with the unbound-symbol fault |
| Scopes.GetNewest | src/CodeGen_Coli.cpp:646-647 | a lookup yields the value of the newest binding of the name |
| Scopes.PopPush | src/CodeGen_Coli.cpp:607-611 | the pop after a LetStmt body restores the scope from before its push |
| Scopes.GetPush | src/CodeGen_Coli.cpp:608 | after a push the name resolves to the pushed value, and other names resolve as before |
| Scopes.BoundNamesPush | src/CodeGen_Coli.cpp:221-222 | after a push the bound names are the old ones plus the pushed name |
| Scopes.Replacements | src/CodeGen_Coli.cpp:650-656 | every replacement maps a name to the value of its newest binding: some binding of that name holds the value, and no binding pushed after it has the same name |
| Scopes.ReplacementsKeys | src/CodeGen_Coli.cpp:653 | the filter as written keeps every bound name, except the loop variable when min and extent are the same variable |
| Lets.SubstKeepsLetFree | src/CodeGen_Coli.cpp:50-55 | substituting a let-free value into a let-free expression leaves no `Let` |
| Lets.SubstAllKeepsLetFree | src/CodeGen_Coli.cpp:50-55 | the same for a list of expressions |
| Lets.SubstRemoves | src/CodeGen_Coli.cpp:50-55 | after the substitution a let-free expression no longer mentions the replaced variable, unless the value does |
| Lets.SubstAllRemoves | src/CodeGen_Coli.cpp:50-55 | the same for a list of expressions |
| Lets.SubstLetsLetFree | src/CodeGen_Coli.cpp:603-605 | `substitute_in_all_lets` leaves no `Let` expression, so the `Let` visitor's error is never reached through `print` |
| Lets.SubstLetsAllLetFree | src/CodeGen_Coli.cpp:50-55 | the same for a list of expressions |
| Lets.SubstLetsFixes | src/CodeGen_Coli.cpp:50-55 | an expression without a `Let` is unchanged by the substitution |
| Lets.SubstLetsAllFixes | src/CodeGen_Coli.cpp:50-55 | the same for a list of expressions |
| Lets.SubstLetsIdempotent | src/CodeGen_Coli.cpp:50-55 | substituting twice equals substituting once |
| Lets.SubstLetsStmt | src/CodeGen_Coli.cpp:57-62 | the statement substitution keeps every statement node, `LetStmt` included |
| Lets.SubstLetsStmtLetFree | src/CodeGen_Coli.cpp:57-62 | after it no expression in the statement holds a `Let` |
| Lets.SubstLetsStmtFixes | src/CodeGen_Coli.cpp:57-62 | a statement whose expressions hold no `Let` is unchanged |
| Lets.SubstLetsStmtIdempotent | src/CodeGen_Coli.cpp:57-62 | substituting twice equals substituting once |
| Lowering.ConstantDef | src/CodeGen_Coli.cpp:623-636 | `define_constant` only appends text and registers exactly `name`, which was not yet registered |
| Lowering.ConstantDefOk | src/CodeGen_Coli.cpp:623-636 | it succeeds exactly on a fresh name whose simplified value renders once its lets are substituted, and has a Coli type; a redefinition is a duplicate-definition fault |
| Lowering.ForEntry | src/CodeGen_Coli.cpp:638-669 | a For pushes its dimension and declares two distinct, fresh constants (its min and extent variables); nothing else is registered |
| Lowering.ForEntryRejects | src/CodeGen_Coli.cpp:641-647 | a For whose min or extent is not a variable is rejected, and so is one whose bound variable is not in scope |
| Lowering.ProvideStep | src/CodeGen_Coli.cpp:683-721 | a Provide registers exactly one new computation and keeps every other registry and the loop stack |
| Lowering.ProvideStepOk | src/CodeGen_Coli.cpp:683-721 | Provide succeeds exactly on a fresh computation with an allocated buffer, variable indices and one value that renders once its lets are substituted and has a type tag |
| Lowering.ProvideStepRejects | src/CodeGen_Coli.cpp:686-693 | a missing buffer is a precondition fault; a non-variable index or a tuple value is unsupported |
| Lowering.ComputationDef | src/CodeGen_Coli.cpp:695-720 | a computation's declaration appends text and registers the computation |
| Lowering.ComputationDefOk | src/CodeGen_Coli.cpp:709-711 | the declaration is written exactly when the let-substituted value renders and its type has a tag |
| Lowering.OpenComputation | src/CodeGen_Coli.cpp:695-708 | the head of the declaration only appends text and moves the indentation five tabs in |
| Lowering.DeclarationHead | src/CodeGen_Coli.cpp:695-708 | the head of a computation's declaration is never empty |
| Lowering.DeclarationTail | src/CodeGen_Coli.cpp:709-718 | the tail of a computation's declaration is never empty |
| Lowering.CloseComputation | src/CodeGen_Coli.cpp:709-720 | the tail restores the indentation and registers the computation; nothing else changes |
| Lowering.ProvideDomainPrefix | src/CodeGen_Coli.cpp:699-705 | the declaration a Provide opens starts with the indentation, `coli::computation`, the name and then the domain. The domain is `<symbolic bounds>->{` when some enclosing min or extent is not constant and `{` otherwise, followed by the name and indices |
| Lowering.DeclarationHeadPrefix | src/CodeGen_Coli.cpp:699-705 | a declaration head starts with its indentation, `coli::computation`, the name and the domain, whose symbolic bounds and `->` come first when there are any |
| Lowering.RealizeEntry | src/CodeGen_Coli.cpp:723-762 | a Realize registers exactly one new temporary buffer `buff_<name>` and changes no other registry |
| Lowering.RealizeEntryOk | src/CodeGen_Coli.cpp:723-762 | Realize succeeds exactly on a fresh buffer with one element type, zero mins and extents that render once their lets are substituted; a second realization is a duplicate |
| Lowering.Lower | src/CodeGen_Coli.cpp:607-789 | lowering a statement only appends text and only adds to the computation, constant and temporary registries; indentation, scope, loop stack and I/O buffers are as before |
| Registries.LowerComputations | src/CodeGen_Coli.cpp:683-721 | a lowering adds exactly the computations of the Provide nodes it reaches, each once and none declared before |
| Registries.LowerConstants | src/CodeGen_Coli.cpp:638-673 | a lowering adds exactly the min and extent variables of its loops as constants, each once and none declared before |
| Registries.LowerTemporaries | src/CodeGen_Coli.cpp:723-765 | a lowering adds exactly one temporary buffer per Realize node, each once and none declared before |
| Registries.LowerRejects | src/CodeGen_Coli.cpp:401-411 | Store, Allocate and Free are rejected; so is a ProducerConsumer whose body is a Block, or a producer of an existing computation, or a loop with non-variable bounds |
| Registries.IfThenElseIgnoresElse | src/CodeGen_Coli.cpp:395-399 | a conditional lowers as its then-branch: the condition and the else-branch have no effect |
| Ordering.LexLeReflexive | src/CodeGen_Coli.cpp:302-320 | the order used for a set's iteration relates every name to itself |
| Ordering.LexLeTotal | src/CodeGen_Coli.cpp:302-320 | any two names are comparable |
| Ordering.LexLeAntisymmetric | src/CodeGen_Coli.cpp:302-320 | two names ordered both ways are equal |
| Ordering.LexLeTransitive | src/CodeGen_Coli.cpp:302-320 | the order is transitive |
| Ordering.LeastExists | src/CodeGen_Coli.cpp:302-320 | every non-empty set of names has a least element |
| Ordering.LeastUnique | src/CodeGen_Coli.cpp:302-320 | that least element is unique |
| Ordering.AscendingEnumerates | src/CodeGen_Coli.cpp:302-320 | a set is iterated once per element, in strictly ascending order |
| Program.OutputScope | src/CodeGen_Coli.cpp:217-226 | binding an output's dimensions pushes two bindings per dimension on top of the old scope |
| Program.OutputScopeBinds | src/CodeGen_Coli.cpp:219-222 | afterwards exactly the `<f>.min.<i>` and `<f>.extent.<i>` names are bound besides the old ones |
| Program.OutputScopeLastExtent | src/CodeGen_Coli.cpp:222 | the last extent name resolves to the buffer's extent as a 32-bit constant |
| Program.BufferLine | src/CodeGen_Coli.cpp:231-234 | a buffer declaration is never empty |
| Program.EmitOutput | src/CodeGen_Coli.cpp:208-236 | one output registers `buff_<f>` and binds its dimensions; the rest of the state is kept |
| Program.EmitOutputs | src/CodeGen_Coli.cpp:207-236 | the outputs' loop registers exactly their buffers and binds every output's dimensions in order (`OutputsScope`). Indentation, loop stack, constants, temporaries, input buffers and computations are kept |
| Program.OutputsScope | src/CodeGen_Coli.cpp:207-227 | the outputs' bindings are stacked on top of the old scope, which stays first |
| Program.OutputsScopeBinds | src/CodeGen_Coli.cpp:215-226 | afterwards exactly the min and extent names of every output's dimensions are bound besides the old ones |
| Program.DummyDims | src/CodeGen_Coli.cpp:244-249 | an input gets one dummy dimension per extent, the k-th named `i<k>` |
| Program.DummyLoops | src/CodeGen_Coli.cpp:248-250 | an input gets one transient loop per extent, the k-th over `i<k>` from 0 to the k-th extent |
| Program.InputComputationLine | src/CodeGen_Coli.cpp:278-281 | the declaration of an input's computation is never empty |
| Program.AccessLine | src/CodeGen_Coli.cpp:284-286 | the one-to-one access line is never empty |
| Program.InputText | src/CodeGen_Coli.cpp:259-287 | an input's declarations are never empty |
| Program.EmitInput | src/CodeGen_Coli.cpp:239-294 | one input registers its buffer and its computation, and its transient loops are gone afterwards |
| Program.EmitInputs | src/CodeGen_Coli.cpp:238-294 | the inputs' loop registers exactly their buffers and computations and keeps the scope and the output buffers |
| Program.Prologue | src/CodeGen_Coli.cpp:179-295 | the constructor needs matching argument lists. It writes the preamble first, moves the indentation one tab in, and binds the outputs' dimensions in the scope (`OutputsScope`) and registers exactly the output and input buffers and the input computations |
| Program.PrologueSteps | src/CodeGen_Coli.cpp:186-294 | the constructor is the preamble, then the outputs' loop, then the inputs' loop, stopping at the first fault |
| Program.EpilogueText | src/CodeGen_Coli.cpp:323-338 | the destructor's text ends with `}` and two line breaks |
| Program.Epilogue | src/CodeGen_Coli.cpp:297-339 | the destructor appends to what was written and moves the indentation one tab out |
| Program.ArgumentsEnumerate | src/CodeGen_Coli.cpp:298-321 | `set_arguments` lists every output and input buffer exactly once, outputs first |
| Program.ArgumentsSplit | src/CodeGen_Coli.cpp:298-321 | the argument list is the outputs' list, one `, ` only when both groups are non-empty, then the inputs' list |
| Program.EpilogueCloses | src/CodeGen_Coli.cpp:335-338 | the destructor keeps what was written and closes `main` |
| Program.PrologueOpens | src/CodeGen_Coli.cpp:193-205 | on a fresh stream the program starts with the preamble |
| Program.ProgramShape | src/CodeGen_Coli.cpp:796-812 | a generated program starts with the preamble and ends by closing `main` |
| Program.StagesShape | src/CodeGen_Coli.cpp:808-811 | text written before the statement stays at the head of the program, which the destructor closes |
| CodeGenColi.AppendSize | src/CodeGen_Coli.cpp:218-225 | one step of a size loop appends `coli::expr(e)` and then `, ` unless it is the last |
| CodeGenColi.SortedNames | src/CodeGen_Coli.cpp:302-320 | the names of a set are produced in its iteration order |
| CodeGenColi.ArgumentList | src/CodeGen_Coli.cpp:298-321 | the destructor's two loops build exactly `{&b0, ..., &bn}` over the outputs followed by the inputs |
| CodeGenColi.PrintToColi | src/CodeGen_Coli.cpp:796-812 | `print_to_coli` fails exactly as the pure model does, or writes exactly the text `ColiProgram` computes |
| CodeGenColi.CodeGen.constructor | src/CodeGen_Coli.cpp:186 | a new generator starts with an empty stream, no indentation and empty registries |
| CodeGenColi.CodeGen.PushLoopDim | src/CodeGen_Coli.cpp:341-343 | the dimension is appended to the loop stack |
| CodeGenColi.CodeGen.PopLoopDim | src/CodeGen_Coli.cpp:345-347 | the innermost dimension is removed |
| CodeGenColi.CodeGen.LoopBoundVars | src/CodeGen_Coli.cpp:349-363 | the loop collects exactly the symbolic bounds: `BoundVarsText` of the current stack |
| CodeGenColi.CodeGen.LoopBounds | src/CodeGen_Coli.cpp:365-376 | the loop joins the constraints exactly as `BoundsText` does |
| CodeGenColi.CodeGen.PrintValue | src/CodeGen_Coli.cpp:50-55 | `print(Expr)` appends exactly the text of the let-substituted expression (`Printed`), or fails with its fault |
| CodeGenColi.CodeGen.PrintExpr | src/CodeGen_Coli.cpp:413-601 | visiting an expression appends exactly its rendered text, or fails with the fault `Render` reports |
| CodeGenColi.CodeGen.PrintNot | src/CodeGen_Coli.cpp:587-590 | `!` followed by the operand |
| CodeGenColi.CodeGen.PrintLeaf | src/CodeGen_Coli.cpp:413-465 | literals and variables as `Render` writes them; the refused node kinds fail |
| CodeGenColi.CodeGen.PrintPair | src/CodeGen_Coli.cpp:467-585 | binary operators, `min` and `max` are written as `Render` writes them |
| CodeGenColi.CodeGen.PrintSelect | src/CodeGen_Coli.cpp:592-601 | select is written at the current indentation, as `Render` writes it |
| CodeGenColi.CodeGen.PrintCall | src/CodeGen_Coli.cpp:767-784 | the argument loop writes the call as `Render` does, stopping at the first argument that fails |
| CodeGenColi.CodeGen.DefineConstant | src/CodeGen_Coli.cpp:623-636 | the method reaches the state `ConstantDef` computes, or fails with its fault |
| CodeGenColi.CodeGen.EnterFor | src/CodeGen_Coli.cpp:638-669 | the method reaches the state `ForEntry` computes, or fails with its fault |
| CodeGenColi.CodeGen.VisitProvide | src/CodeGen_Coli.cpp:683-721 | the method reaches the state `ProvideStep` computes, or fails with its fault |
| CodeGenColi.CodeGen.DeclareComputation | src/CodeGen_Coli.cpp:695-720 | the method reaches the state `ComputationDef` computes, or fails with its fault |
| CodeGenColi.CodeGen.OpenDeclaration | src/CodeGen_Coli.cpp:695-708 | the method reaches the state `OpenComputation` computes |
| CodeGenColi.CodeGen.CloseDeclaration | src/CodeGen_Coli.cpp:709-720 | the method reaches the state `CloseComputation` computes, or fails with its fault |
| CodeGenColi.CodeGen.WriteTail | src/CodeGen_Coli.cpp:711-720 | the tail is appended, the indentation restored and the computation registered; nothing else changes |
| CodeGenColi.CodeGen.EnterRealize | src/CodeGen_Coli.cpp:723-762 | the method reaches the state `RealizeEntry` computes, or fails with its fault |
| CodeGenColi.CodeGen.PrintExtents | src/CodeGen_Coli.cpp:750-756 | the extents' loop appends exactly the list of printed (let-substituted) extents, stopping at the first extent that fails |
| CodeGenColi.CodeGen.Print | src/CodeGen_Coli.cpp:57-62 | `print(Stmt)` reaches the state `Lower` computes on the statement with its lets substituted, or fails with its fault |
| CodeGenColi.CodeGen.Accept | src/CodeGen_Coli.cpp:382-411 | visiting a statement reaches the state `Lower` computes, or fails with its fault: AssertStmt does nothing, IfThenElse lowers its then-branch, Store, Allocate and Free fail |
| CodeGenColi.CodeGen.VisitLetStmt | src/CodeGen_Coli.cpp:607-611 | the same, for LetStmt |
| CodeGenColi.CodeGen.VisitProducerConsumer | src/CodeGen_Coli.cpp:613-621 | the same, for ProducerConsumer, which restores the loop stack |
| CodeGenColi.CodeGen.VisitFor | src/CodeGen_Coli.cpp:638-673 | the same, for For |
| CodeGenColi.CodeGen.VisitRealize | src/CodeGen_Coli.cpp:723-765 | the same, for Realize |
| CodeGenColi.CodeGen.VisitBlock | src/CodeGen_Coli.cpp:786-789 | the same, for Block |
| CodeGenColi.CodeGen.Begin | src/CodeGen_Coli.cpp:186-294 | the constructor body reaches the state `Prologue` computes, or fails with its fault |
| CodeGenColi.CodeGen.OpenMain | src/CodeGen_Coli.cpp:193-205 | the preamble is written and the indentation moves one tab in |
| CodeGenColi.CodeGen.DeclareOutputs | src/CodeGen_Coli.cpp:207-236 | the outputs' loop reaches the state `EmitOutputs` computes |
| CodeGenColi.CodeGen.DeclareOutput | src/CodeGen_Coli.cpp:208-236 | one output reaches the state `EmitOutput` computes |
| CodeGenColi.CodeGen.BindOutputDims | src/CodeGen_Coli.cpp:215-227 | the size loop builds the sizes text and binds each dimension's min and extent |
| CodeGenColi.CodeGen.DeclareInputs | src/CodeGen_Coli.cpp:238-294 | the inputs' loop reaches the state `EmitInputs` computes |
| CodeGenColi.CodeGen.DeclareInput | src/CodeGen_Coli.cpp:239-294 | one input reaches the state `EmitInput` computes, popping every transient loop it pushed |
| CodeGenColi.CodeGen.RecordInput | src/CodeGen_Coli.cpp:259-289 | the input's text is appended and its buffer and computation registered |
| CodeGenColi.CodeGen.InputDeclarations | src/CodeGen_Coli.cpp:259-286 | the three declarations of an input, over the stack with its transient loops |
| CodeGenColi.CodeGen.PushDummyLoops | src/CodeGen_Coli.cpp:244-257 | one transient loop per dimension is pushed, while the dimension names and the sizes text are built |
| CodeGenColi.CodeGen.PopLoops | src/CodeGen_Coli.cpp:291-293 | the last `n` dimensions are popped |
| CodeGenColi.CodeGen.Finish | src/CodeGen_Coli.cpp:297-339 | the destructor reaches the state `Epilogue` computes |

## Left out

- `MLVal.h` and `cast_handle.cpp` are not part of this model.
- The Halide library the backend calls is taken as parameters (the `Library`
  fields), not modelled. Its code is not part of this model.
- `substitute_in_all_lets` is modelled on expression trees (`Lets.SubstLets`).
  Halide's version works on a graph that shares subexpressions, which gives the
  same expression.
- The visitors call `print` again on operands and bodies, which substitutes once
  more. The model visits those parts directly. The text is the same, because a
  part of a substituted expression or statement holds no `Let`, and the
  substitution leaves such a part unchanged (`Lets.SubstLetsFixes`,
  `Lets.SubstLetsStmtFixes`).
- A FloatImm keeps only its type. The source writes the literal text
  `op->value`, not the value, so the value never reaches the output.
- Vector lanes, `device_api` and the `for_type` of loops are carried or dropped;
  they never reach the output.
- Debug logging (`debug(...)`) and the `test()` method write nothing to the
  program and are left out.
- Every process abort (`user_error`, `user_assert`, `internal_assert`) becomes a
  `Fault` value. The model stops at the first one, as the process would.
- The destination stream is modelled as starting empty. `print_to_coli` always
  passes a fresh generator, and `Program.ProgramShape` is stated for any empty
  stream.
- When the constructor or a visitor fails, the source's destructor never runs,
  because the process has aborted. `CodeGenColi.PrintToColi` returns an empty
  text in that case.
- `CodeGenColi.CodeGen.constructor` does only the field initialisation. The
  constructor body (`src/CodeGen_Coli.cpp:188-294`) is the method
  `CodeGenColi.CodeGen.Begin`, because a Dafny constructor cannot report a fault.
- A Realize node with an empty `types` list is a precondition fault. The source
  reads `types[0]` without a check.
- The iteration order of `std::set` is modelled as ascending lexicographic order
  of characters (`Ordering.Ascending`). The sorting loop `SortedNames` picks the
  least remaining element each time.
- The source writes to an `ostream` piece by piece. Several methods append a
  whole piece at once, for example a declaration built as one text. The text
  written is the same.
- The loop-variable filter of `src/CodeGen_Coli.cpp:653` is modelled as written:
  with `||` it drops an entry only when min and extent are the same variable
  (`Scopes.ReplacementsKeys`).
- `do_indent` is written as `Text.Spaces` of the current indentation; a negative
  indentation writes nothing.
- Scopes.ScopePop: states only that a pop does not grow the scope; what a pop
  removes is `Scopes.PopNewest`, `Scopes.PopUnbound` and `Scopes.PopPush`.
- Program.BufferLine: states only that a buffer declaration is non-empty; the exact text is what the methods that write it are proved to produce.
- Program.InputComputationLine: states only that an input's computation declaration is non-empty; the exact text is what the methods that write it are proved to produce.
- Program.AccessLine: states only that an access line is non-empty; the exact text is what the methods that write it are proved to produce.
- Program.InputText: states only that the text of an input's declarations is non-empty; the exact text is what the methods that write it are proved to produce.
- Lowering.DeclarationHead: states only that a declaration head is non-empty; the exact text is what the methods that write it are proved to produce.
- Lowering.DeclarationTail: states only that a declaration tail is non-empty; the exact text is what the methods that write it are proved to produce.
- Lowering.ConstantDef: tags `Bool` data `coli::p_boolean` where the code writes `coli::p_uint64`, because the model uses the corrected `TypeMap.TypeTag` (see Findings).
- Lowering.CloseComputation: tags `Bool` data `coli::p_boolean` where the code writes `coli::p_uint64`, because the model uses the corrected `TypeMap.TypeTag` (see Findings).
- Lowering.RealizeEntry: tags `Bool` data `coli::p_boolean` where the code writes `coli::p_uint64`, because the model uses the corrected `TypeMap.TypeTag` (see Findings).
- Program.EmitOutput: tags `Bool` data `coli::p_boolean` where the code writes `coli::p_uint64`, because the model uses the corrected `TypeMap.TypeTag` (see Findings).
- Program.EmitInput: tags `Bool` data `coli::p_boolean` where the code writes `coli::p_uint64`, because the model uses the corrected `TypeMap.TypeTag` (see Findings).
- CodeGenColi.PrintToColi: tags `Bool` data `coli::p_boolean` where the code writes `coli::p_uint64`, because the model uses the corrected `TypeMap.TypeTag` (see Findings).
- CodeGenColi.CodeGen.DefineConstant: tags `Bool` data `coli::p_boolean` where the code writes `coli::p_uint64`, because the model uses the corrected `TypeMap.TypeTag` (see Findings).
- CodeGenColi.CodeGen.CloseDeclaration: tags `Bool` data `coli::p_boolean` where the code writes `coli::p_uint64`, because the model uses the corrected `TypeMap.TypeTag` (see Findings).
- CodeGenColi.CodeGen.EnterRealize: tags `Bool` data `coli::p_boolean` where the code writes `coli::p_uint64`, because the model uses the corrected `TypeMap.TypeTag` (see Findings).
- CodeGenColi.CodeGen.DeclareOutput: tags `Bool` data `coli::p_boolean` where the code writes `coli::p_uint64`, because the model uses the corrected `TypeMap.TypeTag` (see Findings).
- CodeGenColi.CodeGen.DeclareInput: tags `Bool` data `coli::p_boolean` where the code writes `coli::p_uint64`, because the model uses the corrected `TypeMap.TypeTag` (see Findings).
- Names.CharText: names are taken as ASCII text. The code works byte by byte, so a non-ASCII character becomes one `___` per byte of its encoding, where the model writes one `___`.
- Names.PrintName: the same ASCII assumption as `Names.CharText`.
- Text.Digits: states only that the text is non-empty and made of digits, not which digits; integer formatting belongs to the C++ stream library.
- Text.Decimal: states only that the text is non-empty, for the same reason as `Text.Digits`.
- Program.Epilogue: states the new indentation and that the text only grows; the registries it keeps follow from its definition.

## Findings

| source | as written | input that shows it | evidently intended | confidence | as-written member | corrected member |
|---|---|---|---|---|---|---|
| src/CodeGen_Coli.cpp:88-117 | the unsigned branch is tested first. Halide's `is_uint()` also holds for `Bool` (UInt of 1 bit), so a boolean maps to `coli::p_uint64` and the `coli::p_boolean` branch can never be reached | a buffer or value of type `Bool()` | booleans map to `coli::p_boolean` | medium, not executed | TypeMap.BoolTagAsWritten | TypeMap.BoolTag |
