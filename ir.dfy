/** The part of Halide's loop-nest IR that reaches the Coli backend, as values. */
module Ir {
  import opened Outcomes

  newtype int32 = x: int | -0x8000_0000 <= x < 0x8000_0000
  newtype int64 = x: int | -0x8000_0000_0000_0000 <= x < 0x8000_0000_0000_0000
  newtype uint64 = x: int | 0 <= x < 0x1_0000_0000_0000_0000

  /** Halide's scalar type: a type code and a bit width (lanes are not modelled). */
  datatype TypeCode = Int | UInt | Float | Handle
  datatype Type = Type(code: TypeCode, bits: nat)

  // The type predicates of Halide's Type: a boolean is an unsigned integer of one bit.
  predicate IsInt(t: Type) { t.code == Int }
  predicate IsUInt(t: Type) { t.code == UInt }
  predicate IsFloat(t: Type) { t.code == Float }
  predicate IsBool(t: Type) { t.code == UInt && t.bits == 1 }

  const Bool: Type := Type(UInt, 1)
  const Int32: Type := Type(Int, 32)

  datatype BinOp = Add | Sub | Mul | Div | Mod | EQ | NE | LT | LE | GT | GE | And | Or

  datatype CallType = Image | Extern | ExternCPlusPlus | PureExtern | Halide | Intrinsic | PureIntrinsic

  datatype ForType = Serial | Parallel | Vectorized | Unrolled

  datatype Expr =
    | IntImm(t: Type, ival: int64)
    | UIntImm(t: Type, uval: uint64)
    | FloatImm(t: Type)                     // the value itself is never rendered
    | StringImm(text: string)
    | Cast(t: Type, value: Expr)
    | Variable(t: Type, name: string, hasParam: bool, hasImage: bool)
    | Binary(op: BinOp, a: Expr, b: Expr)
    | Min(a: Expr, b: Expr)
    | Max(a: Expr, b: Expr)
    | Not(a: Expr)
    | Select(cond: Expr, tval: Expr, fval: Expr)
    | Load(t: Type, name: string, index: Expr)
    | Ramp(base: Expr, stride: Expr, lanes: nat)
    | Broadcast(value: Expr, lanes: nat)
    | Let(name: string, value: Expr, body: Expr)
    | Call(t: Type, name: string, callType: CallType, args: seq<Expr>)

  datatype Range = Range(min: Expr, extent: Expr)

  datatype Stmt =
    | LetStmt(name: string, value: Expr, body: Stmt)
    | AssertStmt(cond: Expr, message: Expr)
    | ProducerConsumer(name: string, isProducer: bool, body: Stmt)
    | For(name: string, min: Expr, extent: Expr, forType: ForType, body: Stmt)
    | Store(name: string, value: Expr, index: Expr)
    | Provide(name: string, values: seq<Expr>, args: seq<Expr>)
    | Allocate(name: string, t: Type, extents: seq<Expr>, body: Stmt)
    | Free(name: string)
    | Realize(name: string, types: seq<Type>, bounds: seq<Range>, cond: Expr, body: Stmt)
    | Block(first: Stmt, rest: Option<Stmt>)
    | IfThenElse(cond: Expr, thenCase: Stmt, elseCase: Option<Stmt>)
    | Evaluate(value: Expr)

  /** A pipeline output: the Halide function's name and its pure arguments. */
  datatype Function = Function(name: string, args: seq<string>)

  /** The type Halide gives an expression node. */
  function TypeOf(e: Expr): Type {
    match e
    case IntImm(t, _) => t
    case UIntImm(t, _) => t
    case FloatImm(t) => t
    case StringImm(_) => Type(Handle, 64)
    case Cast(t, _) => t
    case Variable(t, _, _, _) => t
    case Binary(op, a, _) =>
      if op in {EQ, NE, LT, LE, GT, GE, And, Or} then Bool else TypeOf(a)
    case Min(a, _) => TypeOf(a)
    case Max(a, _) => TypeOf(a)
    case Not(_) => Bool
    case Select(_, tv, _) => TypeOf(tv)
    case Load(t, _, _) => t
    case Ramp(b, _, _) => TypeOf(b)
    case Broadcast(v, _) => TypeOf(v)
    case Let(_, _, b) => TypeOf(b)
    case Call(t, _, _, _) => t
  }
}
