/** Optional values: a C++ pointer that may be null, a lookup that may miss. */
module Wrappers {
  datatype Option<+T> = None | Some(value: T) {
    predicate IsFailure() { None? }

    function PropagateFailure<U>(): Option<U>
      requires None?
    {
      None
    }

    function Extract(): T
      requires Some?
    {
      value
    }
  }
}

/**
 * The fragment of Halide's intermediate representation that the tensor-core
 * extraction pass looks at. Expressions and statements are immutable values
 * compared structurally, like Halide's Expr and Stmt handles.
 */
module Ir {

  /** Scalar type of a cast; kept only as an opaque tag that casts compare. */
  datatype Type = Int(bits: nat) | UInt(bits: nat) | Float(bits: nat)

  datatype Expr =
    | Var(name: string)
    | IntImm(imm: int)
    | Add(a: Expr, b: Expr)
    | Mul(a: Expr, b: Expr)
    | Cast(t: Type, operand: Expr)
    | Load(buffer: string, index: Expr)

  /** Iteration kind of a loop; TensorCore marks one dimension of a tensor-core region. */
  datatype ForType = Serial | Parallel | Vectorized | Unrolled | GPUBlock | GPUThread | TensorCore

  /** The fields of a For node. */
  datatype Loop = Loop(name: string, min: Expr, extent: Expr, forType: ForType, body: Stmt)

  /** The fields of a Store node: buffer[index] = value. */
  datatype StoreNode = StoreNode(buffer: string, value: Expr, index: Expr)

  datatype Stmt =
    | For(loop: Loop)
    | LetStmt(name: string, value: Expr, body: Stmt)
    | Store(store: StoreNode)
    | Block(first: Stmt, rest: Stmt)
    | Undefined  // the empty handle Stmt{}

  /** What the pass reads of a collected LetStmt node: its name and bound value. */
  datatype Binding = Binding(name: string, value: Expr)

  /** Variables referenced by an expression. */
  function FreeVars(e: Expr): set<string> {
    match e
    case Var(x) => {x}
    case IntImm(_) => {}
    case Add(a, b) => FreeVars(a) + FreeVars(b)
    case Mul(a, b) => FreeVars(a) + FreeVars(b)
    case Cast(_, v) => FreeVars(v)
    case Load(_, i) => FreeVars(i)
  }

  /** Whether some loop of `s` is tagged TensorCore. */
  predicate HasTensorCore(s: Stmt) {
    match s
    case For(l) => l.forType == TensorCore || HasTensorCore(l.body)
    case LetStmt(_, _, body) => HasTensorCore(body)
    case Store(_) => false
    case Block(a, b) => HasTensorCore(a) || HasTensorCore(b)
    case Undefined => false
  }
}
