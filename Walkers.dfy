/**
 * The read-only tree walkers of the pass: the visitors that collect the
 * TensorCore loops under a loop, the LetStmts under a loop, and the last Store
 * under the K loop. Each visitor is a class whose field the traversal
 * updates, proved against a function listing the nodes in visiting order.
 */
module Walkers {
  import opened Wrappers
  import opened Ir

  /** The loops of `s` in the order an IRVisitor meets them (pre-order). */
  function ForsOf(s: Stmt): seq<Loop> {
    match s
    case For(l) => [l] + ForsOf(l.body)
    case LetStmt(_, _, body) => ForsOf(body)
    case Store(_) => []
    case Block(a, b) => ForsOf(a) + ForsOf(b)
    case Undefined => []
  }

  /** The LetStmts of `s` in visiting order: each one before the lets it scopes. */
  function LetsOf(s: Stmt): seq<Binding> {
    match s
    case For(l) => LetsOf(l.body)
    case LetStmt(x, v, body) => [Binding(x, v)] + LetsOf(body)
    case Store(_) => []
    case Block(a, b) => LetsOf(a) + LetsOf(b)
    case Undefined => []
  }

  /** The Stores of `s` in visiting order. */
  function StoresOf(s: Stmt): seq<StoreNode> {
    match s
    case For(l) => StoresOf(l.body)
    case LetStmt(_, _, body) => StoresOf(body)
    case Store(st) => [st]
    case Block(a, b) => StoresOf(a) + StoresOf(b)
    case Undefined => []
  }

  predicate AllTensorCore(fs: seq<Loop>) {
    forall i :: 0 <= i < |fs| ==> fs[i].forType == TensorCore
  }

  /** A concatenation is all TensorCore exactly when both parts are. */
  lemma AllTensorCoreAppend(xs: seq<Loop>, ys: seq<Loop>)
    ensures AllTensorCore(xs + ys) <==> AllTensorCore(xs) && AllTensorCore(ys)
  {
    if AllTensorCore(xs + ys) {
      forall i | 0 <= i < |xs| ensures xs[i].forType == TensorCore {
        assert xs[i] == (xs + ys)[i];
      }
      forall i | 0 <= i < |ys| ensures ys[i].forType == TensorCore {
        assert ys[i] == (xs + ys)[|xs| + i];
      }
    }
  }

  /** The longest prefix of `fs` made of TensorCore loops. */
  function LeadingTensorCore(fs: seq<Loop>): seq<Loop> {
    if fs == [] || fs[0].forType != TensorCore then []
    else [fs[0]] + LeadingTensorCore(fs[1..])
  }

  /** The prefix is the whole list exactly when every loop is TensorCore, and shorter otherwise. */
  lemma {:induction false} LeadingTensorCoreWhole(fs: seq<Loop>)
    ensures AllTensorCore(fs) ==> LeadingTensorCore(fs) == fs
    ensures !AllTensorCore(fs) ==> |LeadingTensorCore(fs)| < |fs|
  {
    if fs != [] {
      assert fs == [fs[0]] + fs[1..];
      LeadingTensorCoreWhole(fs[1..]);
    }
  }

  lemma {:induction false} LeadingTensorCoreAppend(xs: seq<Loop>, ys: seq<Loop>)
    ensures LeadingTensorCore(xs + ys)
         == if AllTensorCore(xs) then xs + LeadingTensorCore(ys) else LeadingTensorCore(xs)
  {
    if xs == [] {
      assert xs + ys == ys;
    } else {
      var x, rest := xs[0], xs[1..];
      assert xs == [x] + rest;
      assert (xs + ys)[0] == x && (xs + ys)[1..] == rest + ys;
      AllTensorCoreAppend([x], rest);
      if x.forType == TensorCore {
        LeadingTensorCoreAppend(rest, ys);
        assert LeadingTensorCore(xs + ys) == [x] + LeadingTensorCore(rest + ys);
        assert LeadingTensorCore(xs) == [x] + LeadingTensorCore(rest);
        if AllTensorCore(rest) {
          assert [x] + (rest + LeadingTensorCore(ys)) == xs + LeadingTensorCore(ys);
        }
      }
    }
  }

  /** CollectForTC: gathers the loops it visits, each asserted to be TensorCore. */
  class CollectForTC {
    var fors: seq<Loop>

    constructor()
      ensures fors == []
    {
      fors := [];
    }

    /**
     * The default traversal of `s`, handing every loop to VisitFor. Returns
     * false where the internal_assert on a loop type fails, having pushed the
     * TensorCore loops met before that one.
     */
    method Visit(s: Stmt) returns (ok: bool)
      modifies this
      ensures ok <==> AllTensorCore(ForsOf(s))
      ensures fors == old(fors) + LeadingTensorCore(ForsOf(s))
      decreases s, 1
    {
      match s
      case For(l) =>
        ok := VisitFor(l);
      case LetStmt(_, _, body) =>
        ok := Visit(body);
      case Store(_) =>
        ok := true;
      case Block(a, b) =>
        LeadingOfBlock(a, b);
        LeadingTensorCoreWhole(ForsOf(a));
        ok := Visit(a);
        if ok {
          ok := Visit(b);
          assert fors == old(fors) + (ForsOf(a) + LeadingTensorCore(ForsOf(b)));
        }
      case Undefined =>
        ok := true;
    }

    /** visit(const For*): asserts the loop is TensorCore, pushes it, then visits its body. */
    method VisitFor(l: Loop) returns (ok: bool)
      modifies this
      ensures ok <==> AllTensorCore(ForsOf(For(l)))
      ensures fors == old(fors) + LeadingTensorCore(ForsOf(For(l)))
      decreases For(l), 0
    {
      LeadingOfFor(l);
      if l.forType != TensorCore {
        return false;
      }
      fors := fors + [l];
      ok := Visit(l.body);
      assert fors == old(fors) + ([l] + LeadingTensorCore(ForsOf(l.body)));
    }
  }

  /** A loop's own type decides before anything under it does. */
  lemma LeadingOfFor(l: Loop)
    ensures AllTensorCore(ForsOf(For(l))) <==> l.forType == TensorCore && AllTensorCore(ForsOf(l.body))
    ensures LeadingTensorCore(ForsOf(For(l)))
         == if l.forType == TensorCore then [l] + LeadingTensorCore(ForsOf(l.body)) else []
  {
    assert ForsOf(For(l)) == [l] + ForsOf(l.body);
    LeadingTensorCoreAppend([l], ForsOf(l.body));
    AllTensorCoreAppend([l], ForsOf(l.body));
  }

  /** The first statement of a block is walked in full before the second is entered. */
  lemma LeadingOfBlock(a: Stmt, b: Stmt)
    ensures AllTensorCore(ForsOf(Block(a, b))) <==> AllTensorCore(ForsOf(a)) && AllTensorCore(ForsOf(b))
    ensures LeadingTensorCore(ForsOf(Block(a, b)))
         == if AllTensorCore(ForsOf(a)) then ForsOf(a) + LeadingTensorCore(ForsOf(b)) else LeadingTensorCore(ForsOf(a))
  {
    LeadingTensorCoreAppend(ForsOf(a), ForsOf(b));
    AllTensorCoreAppend(ForsOf(a), ForsOf(b));
  }

  /**
   * collect_for_tc: the loops of `s` in pre-order, or ok == false when one of
   * them is not a TensorCore loop.
   */
  method CollectTensorCoreFors(s: Stmt) returns (fors: seq<Loop>, ok: bool)
    ensures ok <==> AllTensorCore(ForsOf(s))
    ensures ok ==> fors == ForsOf(s)
    ensures !ok ==> fors == LeadingTensorCore(ForsOf(s)) && |fors| < |ForsOf(s)|
  {
    var collect := new CollectForTC();
    ok := collect.Visit(s);
    fors := collect.fors;
    LeadingTensorCoreWhole(ForsOf(s));
  }

  /** The caller-owned vector of LetStmt pointers that collect_lets appends to. */
  class LetList {
    var items: seq<Binding>

    constructor()
      ensures items == []
    {
      items := [];
    }
  }

  /** CollectLetStmts: appends every LetStmt it visits to a vector it does not own. */
  class CollectLetStmts {
    const lets: LetList

    constructor(lets: LetList)
      ensures this.lets == lets
    {
      this.lets := lets;
    }

    method Visit(s: Stmt)
      modifies lets
      ensures lets.items == old(lets.items) + LetsOf(s)
      decreases s
    {
      match s
      case For(l) =>
        Visit(l.body);
      case LetStmt(x, v, body) =>
        lets.items := lets.items + [Binding(x, v)];
        Visit(body);
      case Store(_) =>
      case Block(a, b) =>
        Visit(a);
        Visit(b);
      case Undefined =>
    }
  }

  /** collect_lets: appends the lets of `s`, in visiting order, after what `lets` already holds. */
  method CollectLets(s: Stmt, lets: LetList)
    modifies lets
    ensures lets.items == old(lets.items) + LetsOf(s)
  {
    var collector := new CollectLetStmts(lets);
    collector.Visit(s);
  }

  /**
   * ExtractStore: remembers the last Store it visits. The pass value-initialises
   * it, so its pointer starts null: None.
   */
  class ExtractStore {
    var op: Option<StoreNode>

    constructor()
      ensures op == None
    {
      op := None;
    }

    method Visit(s: Stmt)
      modifies this
      ensures op == if StoresOf(s) == [] then old(op) else Some(StoresOf(s)[|StoresOf(s)| - 1])
      decreases s
    {
      match s
      case For(l) =>
        Visit(l.body);
      case LetStmt(_, _, body) =>
        Visit(body);
      case Store(st) =>
        op := Some(st);
      case Block(a, b) =>
        Visit(a);
        Visit(b);
      case Undefined =>
    }
  }

  /**
   * A fresh ExtractStore run over `s`: the last store of `s`, and None (the
   * null pointer the pass then dereferences) when `s` holds no store at all.
   */
  method FindStore(s: Stmt) returns (op: Option<StoreNode>)
    ensures op.None? <==> StoresOf(s) == []
    ensures op.None? <==> forall st :: st !in StoresOf(s)
    ensures op.Some? ==> op.value in StoresOf(s)
    ensures op.Some? ==> op.value == StoresOf(s)[|StoresOf(s)| - 1]
  {
    var get := new ExtractStore();
    get.Visit(s);
    op := get.op;
    if StoresOf(s) != [] {
      assert StoresOf(s)[0] in StoresOf(s);
    }
  }
}
