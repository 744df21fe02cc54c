/**
 * The ExtractTensorCoreOperations mutator: rebuilds every statement unchanged
 * except the TensorCore loops, each of which it checks against the
 * tensor-core idiom and, once all checks pass, replaces with the empty
 * statement. Every failed internal_assert becomes an error result.
 */
module TensorCorePass {
  import opened Wrappers
  import opened Ir
  import opened Walkers
  import opened ReplaceVars
  import opened IrMatch
  import opened Shape
  import opened MatrixLoads

  datatype PassError =
    | NonConstantExtent                         // a TensorCore loop not over [0, constant)
    | NotTensorCoreDimension                    // a loop under the outer one is not TensorCore
    | WrongDimensionCount(reported: nat)        // the count the message reports: loops under the outer one + 1
    | UnsupportedShape(m: int, n: int, k: int)  // no WMMA tile for M x N x K
    | StoreNotFound                             // the store pointer was never assigned
    | ResolutionDiverges                        // the let substitution never finishes
    | LoadPatternNotRecognised                  // the stored value is not C + cast(A) * cast(B)

  datatype Result<T> = Ok(value: T) | Err(error: PassError)

  /** What a visit returns, and the lets the pass object holds afterwards. */
  datatype PassOutcome = PassOutcome(result: Result<Stmt>, lets: seq<Binding>)

  /** The loop the store is searched in: the second TensorCore loop under `loop`. */
  function InnerLoop(loop: Loop): Loop
    requires |ForsOf(loop.body)| == 2
  {
    ForsOf(loop.body)[1]
  }

  /** The work done on one TensorCore loop, given the lets the pass object already holds. */
  function ExtractNest(loop: Loop, lets: seq<Binding>): PassOutcome {
    var m := ConstExtent(loop);
    if m.None? then PassOutcome(Err(NonConstantExtent), lets)
    else
      var lets' := lets + LetsOf(For(loop));
      PassOutcome(CheckNest(loop, m.value, lets'), lets')
  }

  /** The checks after the outer extent is known and the lets are collected. */
  function CheckNest(loop: Loop, m: int, lets: seq<Binding>): (r: Result<Stmt>)
    ensures r.Ok? ==> r.value == Undefined
  {
    var fors := ForsOf(loop.body);
    if !AllTensorCore(fors) then Err(NotTensorCoreDimension)
    else if |fors| != 2 then Err(WrongDimensionCount(|fors| + 1))
    else
      var n := ConstExtent(fors[0]);
      var k := ConstExtent(fors[1]);
      if n.None? || k.None? then Err(NonConstantExtent)
      else if GetWmmaLayout(m, n.value, k.value) == UnknownLayout then Err(UnsupportedShape(m, n.value, k.value))
      else CheckStore(fors[1], lets)
  }

  /** The checks on the last store of the K loop, once the shape is accepted. */
  function CheckStore(kLoop: Loop, lets: seq<Binding>): (r: Result<Stmt>)
    ensures r.Ok? ==> r.value == Undefined
  {
    var stores := StoresOf(For(kLoop));
    if stores == [] then Err(StoreNotFound)
    else
      var store := ResolveStore(stores[|stores| - 1], lets);
      if store.None? then Err(ResolutionDiverges)
      else if !ExtractMatrixLoads(store.value).Truthy() then Err(LoadPatternNotRecognised)
      else Ok(Undefined)
  }

  /** The whole mutation of `s`, starting from the lets the pass object holds. */
  function Pass(s: Stmt, lets: seq<Binding>): PassOutcome
    decreases s
  {
    match s
    case For(l) =>
      if l.forType == TensorCore then ExtractNest(l, lets)
      else
        var o := Pass(l.body, lets);
        if o.result.Err? then o
        else PassOutcome(Ok(For(l.(body := o.result.value))), o.lets)
    case LetStmt(x, v, body) =>
      var o := Pass(body, lets);
      if o.result.Err? then o
      else PassOutcome(Ok(LetStmt(x, v, o.result.value)), o.lets)
    case Store(_) => PassOutcome(Ok(s), lets)
    case Block(a, b) =>
      var oa := Pass(a, lets);
      if oa.result.Err? then oa
      else
        var ob := Pass(b, oa.lets);
        if ob.result.Err? then ob
        else PassOutcome(Ok(Block(oa.result.value, ob.result.value)), ob.lets)
    case Undefined => PassOutcome(Ok(s), lets)
  }

  /** The pass object, with the fields its visit of a TensorCore loop updates. */
  class ExtractTensorCoreOperations {
    const lets: LetList
    var mDim: Option<Loop>
    var nDim: Option<Loop>
    var kDim: Option<Loop>
    var mExtent: int
    var nExtent: int
    var kExtent: int

    constructor()
      ensures fresh(lets) && lets.items == []
      ensures mDim == None && nDim == None && kDim == None
      ensures mExtent == -1 && nExtent == -1 && kExtent == -1
    {
      lets := new LetList();
      mDim, nDim, kDim := None, None, None;
      mExtent, nExtent, kExtent := -1, -1, -1;
    }

    /** visit(const For*) on a TensorCore loop. */
    method VisitTensorCore(loop: Loop) returns (r: Result<Stmt>)
      requires loop.forType == TensorCore
      modifies this, lets
      ensures r == ExtractNest(loop, old(lets.items)).result
      ensures lets.items == ExtractNest(loop, old(lets.items)).lets
      ensures r.Ok? ==>
        && |ForsOf(loop.body)| == 2
        && mDim == Some(loop) && nDim == Some(ForsOf(loop.body)[0]) && kDim == Some(ForsOf(loop.body)[1])
        && mExtent == 16 && nExtent == 16 && kExtent == 16
    {
      mDim := Some(loop);
      var m := ConstExtent(loop);
      if m.None? {
        return Err(NonConstantExtent);
      }
      mExtent := m.value;

      // every let under the loop, after those of the loops visited before
      CollectLets(For(loop), lets);

      var tcFors, ok := CollectTensorCoreFors(loop.body);
      if !ok {
        return Err(NotTensorCoreDimension);
      }
      if |tcFors| != 2 {
        return Err(WrongDimensionCount(|tcFors| + 1));
      }
      nDim := Some(tcFors[0]);
      var n := ConstExtent(tcFors[0]);
      if n.None? {
        return Err(NonConstantExtent);
      }
      nExtent := n.value;
      kDim := Some(tcFors[1]);
      var k := ConstExtent(tcFors[1]);
      if k.None? {
        return Err(NonConstantExtent);
      }
      kExtent := k.value;

      var layout := GetWmmaLayout(mExtent, nExtent, kExtent);
      if layout == UnknownLayout {
        return Err(UnsupportedShape(mExtent, nExtent, kExtent));
      }

      var storeC := FindStore(For(tcFors[1]));
      if storeC.None? {
        return Err(StoreNotFound);
      }
      var storeC2 := ResolveStore(storeC.value, lets.items);
      if storeC2.None? {
        return Err(ResolutionDiverges);
      }
      var loads := ExtractMatrixLoads(storeC2.value);
      if !loads.Truthy() {
        return Err(LoadPatternNotRecognised);
      }
      // the classification is computed and never used
      var _ := IdentifyMatrixLoad(loads, mDim.value.name, nDim.value.name, kDim.value.name);
      return Ok(Undefined);
    }

    /** mutate(s): the default rebuild everywhere except at TensorCore loops. */
    method Mutate(s: Stmt) returns (r: Result<Stmt>)
      modifies this, lets
      ensures r == Pass(s, old(lets.items)).result
      ensures lets.items == Pass(s, old(lets.items)).lets
      decreases s
    {
      match s
      case For(l) =>
        if l.forType == TensorCore {
          r := VisitTensorCore(l);
        } else {
          var body := Mutate(l.body);
          r := if body.Err? then body else Ok(For(l.(body := body.value)));
        }
      case LetStmt(x, v, body) =>
        var b := Mutate(body);
        r := if b.Err? then b else Ok(LetStmt(x, v, b.value));
      case Store(_) =>
        r := Ok(s);
      case Block(a, b) =>
        var ra := Mutate(a);
        if ra.Err? {
          return ra;
        }
        var rb := Mutate(b);
        r := if rb.Err? then rb else Ok(Block(ra.value, rb.value));
      case Undefined =>
        r := Ok(s);
    }
  }

  /**
   * extract_tensor_core_operations: one fresh pass object over the whole tree.
   * A tree without TensorCore loops comes back as it is, and what comes back
   * holds no TensorCore loop.
   */
  method Extract(s: Stmt) returns (r: Result<Stmt>)
    ensures r == Pass(s, []).result
    ensures !HasTensorCore(s) ==> r == Ok(s)
    ensures r.Ok? ==> !HasTensorCore(r.value)
  {
    var pass := new ExtractTensorCoreOperations();
    r := pass.Mutate(s);
    PassWithoutTensorCoreIsIdentity(s, []);
    PassLeavesNoTensorCore(s, []);
  }

  /** Without TensorCore loops the pass rebuilds the tree unchanged and collects no lets. */
  lemma {:induction false} PassWithoutTensorCoreIsIdentity(s: Stmt, lets: seq<Binding>)
    ensures !HasTensorCore(s) ==> Pass(s, lets) == PassOutcome(Ok(s), lets)
  {
    match s
    case For(l) =>
      PassWithoutTensorCoreIsIdentity(l.body, lets);
    case LetStmt(_, _, body) =>
      PassWithoutTensorCoreIsIdentity(body, lets);
    case Store(_) =>
    case Block(a, b) =>
      PassWithoutTensorCoreIsIdentity(a, lets);
      PassWithoutTensorCoreIsIdentity(b, lets);
    case Undefined =>
  }

  /** A successful pass leaves no TensorCore loop behind. */
  lemma {:induction false} PassLeavesNoTensorCore(s: Stmt, lets: seq<Binding>)
    ensures Pass(s, lets).result.Ok? ==> !HasTensorCore(Pass(s, lets).result.value)
  {
    match s
    case For(l) =>
      PassLeavesNoTensorCore(l.body, lets);
    case LetStmt(_, _, body) =>
      PassLeavesNoTensorCore(body, lets);
    case Store(_) =>
    case Block(a, b) =>
      PassLeavesNoTensorCore(a, lets);
      PassLeavesNoTensorCore(b, Pass(a, lets).lets);
    case Undefined =>
  }

  /** Running the pass on its own output changes nothing, whatever lets are held. */
  lemma PassIdempotent(s: Stmt, lets: seq<Binding>, lets2: seq<Binding>)
    requires Pass(s, lets).result.Ok?
    ensures Pass(Pass(s, lets).result.value, lets2) == PassOutcome(Ok(Pass(s, lets).result.value), lets2)
  {
    PassLeavesNoTensorCore(s, lets);
    PassWithoutTensorCoreIsIdentity(Pass(s, lets).result.value, lets2);
  }

  /** The lets held before a visit are never dropped: the pass only appends. */
  lemma {:induction false} PassKeepsCollectedLets(s: Stmt, lets: seq<Binding>)
    ensures |lets| <= |Pass(s, lets).lets| && Pass(s, lets).lets[..|lets|] == lets
  {
    match s
    case For(l) =>
      if l.forType != TensorCore {
        PassKeepsCollectedLets(l.body, lets);
      }
    case LetStmt(_, _, body) =>
      PassKeepsCollectedLets(body, lets);
    case Store(_) =>
    case Block(a, b) =>
      var la := Pass(a, lets).lets;
      PassKeepsCollectedLets(a, lets);
      PassKeepsCollectedLets(b, la);
      assert Pass(b, la).lets[..|lets|] == Pass(b, la).lets[..|la|][..|lets|];
    case Undefined =>
  }

  /**
   * The lets of an accepted nest stay with the pass object, so the next
   * TensorCore loop resolves its store against them as well as its own.
   */
  lemma LetsCarryOverToNextNest(l1: Loop, l2: Loop, lets: seq<Binding>)
    requires l1.forType == TensorCore && l2.forType == TensorCore
    requires ExtractNest(l1, lets).result.Ok?
    ensures Pass(Block(For(l1), For(l2)), lets).lets == ExtractNest(l2, lets + LetsOf(For(l1))).lets
    ensures ExtractNest(l2, lets + LetsOf(For(l1))).result.Ok? ==>
      Pass(Block(For(l1), For(l2)), lets).result == Ok(Block(Undefined, Undefined))
  {
    var lets1 := lets + LetsOf(For(l1));
    ExtractNestLets(l1, lets);
    PassOfTensorCoreLoop(l1, lets);
    var oa := Pass(For(l1), lets);
    assert oa == PassOutcome(Ok(Undefined), lets1);
    PassOfTensorCoreLoop(l2, lets1);
    var ob := Pass(For(l2), lets1);
    ExtractNestLets(l2, lets1);
    assert Pass(Block(For(l1), For(l2)), lets)
        == if ob.result.Err? then ob else PassOutcome(Ok(Block(Undefined, ob.result.value)), ob.lets);
  }

  /** A TensorCore loop is handed to the nest visit as it is. */
  lemma PassOfTensorCoreLoop(l: Loop, lets: seq<Binding>)
    requires l.forType == TensorCore
    ensures Pass(For(l), lets) == ExtractNest(l, lets)
  {
  }

  /** A visit that gets past the outer loop's extent appends exactly the lets under the loop. */
  lemma ExtractNestLets(loop: Loop, lets: seq<Binding>)
    ensures ExtractNest(loop, lets).lets
         == if ConstExtent(loop).None? then lets else lets + LetsOf(For(loop))
    ensures ExtractNest(loop, lets).result.Ok? ==> ExtractNest(loop, lets).result.value == Undefined
  {
  }

  /** The nest is two TensorCore loops below `loop`, all three over [0, 16). */
  ghost predicate Is16Cubed(loop: Loop) {
    var fors := ForsOf(loop.body);
    && loop.min == IntImm(0) && loop.extent == IntImm(16)
    && |fors| == 2
    && fors[0].forType == TensorCore && fors[0].min == IntImm(0) && fors[0].extent == IntImm(16)
    && fors[1].forType == TensorCore && fors[1].min == IntImm(0) && fors[1].extent == IntImm(16)
  }

  /**
   * A TensorCore loop is accepted, and then replaced by the empty statement,
   * exactly when it heads a 16 x 16 x 16 nest: two TensorCore loops under it,
   * in pre-order and not necessarily one inside the other, the second of
   * which stores, last, a value that after substitution reads
   * C + cast(A) * cast(B).
   */
  lemma NestAcceptedIff(loop: Loop, lets: seq<Binding>)
    requires loop.forType == TensorCore
    ensures ExtractNest(loop, lets).result.Ok? <==>
      && Is16Cubed(loop)
      && StoresOf(For(InnerLoop(loop))) != []
      && var stores := StoresOf(For(InnerLoop(loop)));
         var resolved := ResolveStore(stores[|stores| - 1], lets + LetsOf(For(loop)));
         resolved.Some? && IsAccumulate(resolved.value.value)
    ensures ExtractNest(loop, lets).result.Ok? ==> ExtractNest(loop, lets).result.value == Undefined
  {
    var fors := ForsOf(loop.body);
    if |fors| == 2 && fors[0].forType == TensorCore && fors[1].forType == TensorCore {
      assert fors == [fors[0], fors[1]];
      assert AllTensorCore(fors);
    }
  }

  /**
   * On every accepted nest the classification at line 341 runs; it falls off
   * the end of identify_matrix_load, without a return, exactly when C's
   * address fits its template. Line 343 is then reached past that undefined
   * behaviour, which the model keeps as the unused value NoReturnValue.
   */
  lemma AcceptedNestClassifierReturnsNothing(loop: Loop, lets: seq<Binding>)
    requires loop.forType == TensorCore
    requires ExtractNest(loop, lets).result.Ok?
    ensures |ForsOf(loop.body)| == 2 && StoresOf(For(InnerLoop(loop))) != []
    ensures var fors := ForsOf(loop.body);
            var stores := StoresOf(For(InnerLoop(loop)));
            var resolved := ResolveStore(stores[|stores| - 1], lets + LetsOf(For(loop)));
            && resolved.Some?
            && var loads := ExtractMatrixLoads(resolved.value);
               && loads.Truthy()
               && (IdentifyMatrixLoad(loads, loop.name, fors[0].name, fors[1].name) == NoReturnValue
                   <==> IsInstance(CRowPattern(loop.name, fors[0].name, loads.cLoad.value.buffer),
                                   loads.cLoad.value.index))
  {
    NestAcceptedIff(loop, lets);
  }

  /** A nest with other than two loops below the outer one is refused with the count plus one. */
  lemma WrongNestingReported(loop: Loop, lets: seq<Binding>)
    requires loop.forType == TensorCore
    requires ConstExtent(loop).Some?
    requires AllTensorCore(ForsOf(loop.body)) && |ForsOf(loop.body)| != 2
    ensures ExtractNest(loop, lets).result == Err(WrongDimensionCount(|ForsOf(loop.body)| + 1))
  {
  }

  /** A well-formed nest of any shape other than 16 x 16 x 16 is refused with its extents. */
  lemma UnsupportedShapeReported(loop: Loop, lets: seq<Binding>)
    requires loop.forType == TensorCore
    requires AllTensorCore(ForsOf(loop.body)) && |ForsOf(loop.body)| == 2
    requires ConstExtent(loop).Some?
    requires ConstExtent(ForsOf(loop.body)[0]).Some? && ConstExtent(ForsOf(loop.body)[1]).Some?
    requires (ConstExtent(loop).value, ConstExtent(ForsOf(loop.body)[0]).value, ConstExtent(ForsOf(loop.body)[1]).value)
          != (16, 16, 16)
    ensures ExtractNest(loop, lets).result
         == Err(UnsupportedShape(ConstExtent(loop).value,
                                 ConstExtent(ForsOf(loop.body)[0]).value,
                                 ConstExtent(ForsOf(loop.body)[1]).value))
  {
  }
}
