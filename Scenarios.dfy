/**
 * The pass on hand-built loop nests in the shape of the update the cuda_wmma
 * test schedules, C(i, j) += cast<float>(A(k, j)) * cast<float>(B(i, k)):
 * three TensorCore loops inside a GPU block loop, with A's address bound by a
 * let in the body of the K loop.
 */
module Scenarios {
  import opened Wrappers
  import opened Ir
  import opened IrMatch
  import opened Walkers
  import opened ReplaceVars
  import opened Shape
  import opened MatrixLoads
  import opened TensorCorePass

  // the loop variables of the M, N and K loops, and the name A's address is bound to
  const M: string := "ii"
  const N: string := "ji"
  const K: string := "ki"
  const AddrName: string := "p"

  /** C's address: n + (((m + t) * C.stride.1) + c0). */
  const CIndex: Expr := Add(Var(N), Add(Mul(Add(Var(M), Var("t")), Var("C.stride.1")), Var("c0")))

  /** A's address, row-major: k + (((m + t) * 8) + ko) * 16. */
  const AIndex: Expr := Add(Var(K), Mul(Add(Mul(Add(Var(M), Var("t")), IntImm(8)), Var("ko")), IntImm(16)))

  /** B's address, row-major: ((k + ko) * (s + 16)) + (n + t). */
  const BIndex: Expr := Add(Mul(Add(Var(K), Var("ko")), Add(Var("s"), IntImm(16))), Add(Var(N), Var("t")))

  /** B's address, column-major: k + (((n + t) * 8) + ko) * 16. */
  const BColIndex: Expr := Add(Var(K), Mul(Add(Mul(Add(Var(N), Var("t")), IntImm(8)), Var("ko")), IntImm(16)))

  /** The lets the K loop's body holds. */
  const Lets: seq<Binding> := [Binding(AddrName, AIndex)]

  const CRead: Expr := Load("C", CIndex)
  const ARead: Expr := Cast(Float(32), Load("A", Var(AddrName)))
  const BRead: Expr := Cast(Float(32), Load("B", BIndex))

  /** C + cast(A) * cast(B), and the same with the sum's operands swapped. */
  const Accumulate: Expr := Add(CRead, Mul(ARead, BRead))
  const Commuted: Expr := Add(Mul(ARead, BRead), CRead)

  function Tc(name: string, extent: int, body: Stmt): Stmt {
    For(Loop(name, IntImm(0), IntImm(extent), TensorCore, body))
  }

  function KBody(value: Expr): Stmt {
    LetStmt(AddrName, AIndex, Store(StoreNode("C", value, CIndex)))
  }

  function Nest(m: int, n: int, k: int, value: Expr): Loop {
    Loop(M, IntImm(0), IntImm(m), TensorCore, Tc(N, n, Tc(K, k, KBody(value))))
  }

  function Program(nest: Loop): Stmt {
    For(Loop("blk", IntImm(0), IntImm(64), GPUBlock, For(nest)))
  }

  /** The walks of a three-loop nest. */
  lemma {:induction false} NestWalks(m: int, n: int, k: int, value: Expr)
    ensures ForsOf(Nest(m, n, k, value).body)
         == [Loop(N, IntImm(0), IntImm(n), TensorCore, Tc(K, k, KBody(value))),
             Loop(K, IntImm(0), IntImm(k), TensorCore, KBody(value))]
    ensures AllTensorCore(ForsOf(Nest(m, n, k, value).body))
    ensures StoresOf(For(InnerLoop(Nest(m, n, k, value)))) == [StoreNode("C", value, CIndex)]
    ensures LetsOf(For(Nest(m, n, k, value))) == Lets
  {
    var inner := Loop(K, IntImm(0), IntImm(k), TensorCore, KBody(value));
    var middle := Loop(N, IntImm(0), IntImm(n), TensorCore, For(inner));
    var store := Store(StoreNode("C", value, CIndex));
    assert KBody(value) == LetStmt(AddrName, AIndex, store);
    assert ForsOf(store) == [] && LetsOf(store) == [] && StoresOf(store) == [StoreNode("C", value, CIndex)];
    assert ForsOf(KBody(value)) == [];
    assert LetsOf(KBody(value)) == Lets;
    assert StoresOf(KBody(value)) == [StoreNode("C", value, CIndex)];
    assert ForsOf(For(inner)) == [inner];
    assert ForsOf(For(middle)) == [middle] + [inner];
    assert StoresOf(For(inner)) == [StoreNode("C", value, CIndex)];
    assert LetsOf(For(inner)) == Lets;
    assert LetsOf(For(middle)) == Lets;
  }

  /** Only the name the let binds is substituted. */
  lemma OnlyAddrNameBound(v: string)
    ensures FindLet(Lets, v) == if v == AddrName then Some(0) else None
  {
    assert Lets[..0] == [];
  }

  /** An expression that does not mention the let's name is not bound by it. */
  lemma UnboundWithoutAddrName(e: Expr)
    requires AddrName !in FreeVars(e)
    ensures Unbound(e, Lets)
  {
    forall v | v in FreeVars(e) ensures FindLet(Lets, v).None? {
      OnlyAddrNameBound(v);
    }
  }

  lemma CIndexResolves()
    ensures Resolve(CIndex, Lets) == Some(CIndex) && Resolve(CRead, Lets) == Some(CRead)
  {
    assert FreeVars(CIndex) == {N, M, "t", "C.stride.1", "c0"};
    UnboundWithoutAddrName(CIndex);
    ResolveUnboundIsIdentity(CIndex, Lets, {});
  }

  lemma BReadResolves()
    ensures Resolve(BRead, Lets) == Some(BRead)
  {
    assert FreeVars(BRead) == {K, "ko", "s", N, "t"};
    UnboundWithoutAddrName(BRead);
    ResolveUnboundIsIdentity(BRead, Lets, {});
  }

  lemma AReadResolves()
    ensures Resolve(ARead, Lets) == Some(Cast(Float(32), Load("A", AIndex)))
  {
    assert FreeVars(AIndex) == {K, M, "t", "ko"};
    UnboundWithoutAddrName(AIndex);
    ResolveUnboundIsIdentity(AIndex, Lets, {0});
    OnlyAddrNameBound(AddrName);
    ResolveVar(AddrName, Lets);
    assert Resolve(Var(AddrName), Lets) == Some(AIndex);
    assert Resolve(Load("A", Var(AddrName)), Lets) == Some(Load("A", AIndex));
  }

  /** The store of the nest after substitution. */
  lemma StoreResolves(value: Expr)
    requires value == Accumulate || value == Commuted
    ensures ResolveStore(StoreNode("C", value, CIndex), Lets).Some?
    ensures var r := ResolveStore(StoreNode("C", value, CIndex), Lets).value.value;
            var a := Cast(Float(32), Load("A", AIndex));
            r == if value == Accumulate then Add(CRead, Mul(a, BRead)) else Add(Mul(a, BRead), CRead)
  {
    CIndexResolves();
    AReadResolves();
    BReadResolves();
    var a := Cast(Float(32), Load("A", AIndex));
    assert Resolve(Mul(ARead, BRead), Lets) == Some(Mul(a, BRead));
    if value == Accumulate {
      assert Resolve(value, Lets) == Some(Add(CRead, Mul(a, BRead)));
    } else {
      assert Resolve(value, Lets) == Some(Add(Mul(a, BRead), CRead));
    }
  }

  /** How many wildcards the templates hold for the loop variables of these nests. */
  lemma TemplateWildCounts()
    ensures WildCount(CRowPattern(M, N, "C")) == 2
    ensures WildCount(ARowPattern(K, M)) == 2
    ensures WildCount(BRowPattern(K, N)) == 3
    ensures WildCount(BColPattern(K, N)) == 2
  {
    CTemplate();
    assert M != Wildcard && N != Wildcard && K != Wildcard && "C.stride.1" != Wildcard;
  }

  /** C's template, with the stride's name spelled out. */
  lemma CTemplate()
    ensures CRowPattern(M, N, "C") == Add(Var(N), Add(Mul(Add(Var(M), Wild), Var("C.stride.1")), Wild))
  {
    assert "C" + ".stride.1" == "C.stride.1";
  }

  /** How far the visit of a 16 x 16 x 16 nest gets before it looks at the stored value. */
  lemma {:induction false} NestReachesStore(value: Expr)
    ensures var store := ResolveStore(StoreNode("C", value, CIndex), Lets);
            ExtractNest(Nest(16, 16, 16, value), [])
            == (if store.None? then PassOutcome(Err(ResolutionDiverges), Lets)
                else if !ExtractMatrixLoads(store.value).Truthy() then PassOutcome(Err(LoadPatternNotRecognised), Lets)
                else PassOutcome(Ok(Undefined), Lets))
  {
    var nest := Nest(16, 16, 16, value);
    NestWalks(16, 16, 16, value);
    var fors := ForsOf(nest.body);
    assert ConstExtent(nest) == Some(16);
    assert ConstExtent(fors[0]) == Some(16) && ConstExtent(fors[1]) == Some(16);
    assert GetWmmaLayout(16, 16, 16) == M16N16K16;
    assert [] + LetsOf(For(nest)) == Lets;
    assert StoresOf(For(fors[1])) == [StoreNode("C", value, CIndex)];
  }

  /**
   * The 16 x 16 x 16 accumulate nest is accepted and dropped; its let stays
   * with the pass. The block loop keeps an undefined body because the check
   * For::make makes on its body is not part of this model.
   */
  lemma WmmaNestIsDropped()
    ensures Pass(Program(Nest(16, 16, 16, Accumulate)), [])
         == PassOutcome(Ok(For(Loop("blk", IntImm(0), IntImm(64), GPUBlock, Undefined))), Lets)
  {
    var nest := Nest(16, 16, 16, Accumulate);
    NestReachesStore(Accumulate);
    StoreResolves(Accumulate);
    var r := ResolveStore(StoreNode("C", Accumulate, CIndex), Lets).value;
    assert IsAccumulate(r.value);
    assert Pass(For(nest), []) == ExtractNest(nest, []);
  }

  /** C's address of these nests fits C's template. */
  lemma CIndexIsRowMajor()
    ensures WildCount(CRowPattern(M, N, "C")) == 2
    ensures Instantiate(CRowPattern(M, N, "C"), [Var("t"), Var("c0")]) == CIndex
  {
    var wc := [Var("t"), Var("c0")];
    TemplateWildCounts();
    CTemplate();
    assert M != Wildcard && N != Wildcard && "C.stride.1" != Wildcard;
    var z := Add(Var(M), Wild);
    var y := Mul(z, Var("C.stride.1"));
    var cRest := Add(y, Wild);
    assert wc[..1] == [Var("t")] && wc[1..] == [Var("c0")] && wc[..0] == [] && wc[0..] == wc;
    assert [Var("t")][..0] == [] && [Var("t")][0..] == [Var("t")] && [Var("t")][..1] == [Var("t")];
    assert Instantiate(z, [Var("t")]) == Add(Var(M), Var("t"));
    assert Instantiate(y, [Var("t")]) == Mul(Add(Var(M), Var("t")), Var("C.stride.1"));
    assert Instantiate(cRest, wc) == Add(Mul(Add(Var(M), Var("t")), Var("C.stride.1")), Var("c0"));
  }

  /** A's address of these nests fits A's row-major template. */
  lemma AIndexIsRowMajor()
    ensures WildCount(ARowPattern(K, M)) == 2
    ensures Instantiate(ARowPattern(K, M), [Var("t"), Var("ko")]) == AIndex
  {
    var wa := [Var("t"), Var("ko")];
    TemplateWildCounts();
    assert M != Wildcard && K != Wildcard;
    var z := Add(Var(M), Wild);
    var y := Mul(z, IntImm(8));
    var x := Add(y, Wild);
    assert wa[..1] == [Var("t")] && wa[1..] == [Var("ko")] && wa[..2] == wa && wa[2..] == [];
    assert [Var("t")][..0] == [] && [Var("t")][0..] == [Var("t")] && [Var("t")][..1] == [Var("t")];
    assert Instantiate(z, [Var("t")]) == Add(Var(M), Var("t"));
    assert Instantiate(y, [Var("t")]) == Mul(Add(Var(M), Var("t")), IntImm(8));
    assert Instantiate(x, wa) == Add(Mul(Add(Var(M), Var("t")), IntImm(8)), Var("ko"));
    assert Instantiate(Mul(x, IntImm(16)), wa) == Mul(Add(Mul(Add(Var(M), Var("t")), IntImm(8)), Var("ko")), IntImm(16));
  }

  /** B's row-major address of these nests fits B's row-major template. */
  lemma BIndexIsRowMajor()
    ensures WildCount(BRowPattern(K, N)) == 3
    ensures Instantiate(BRowPattern(K, N), [Var("ko"), Var("s"), Var("t")]) == BIndex
  {
    var wb := [Var("ko"), Var("s"), Var("t")];
    TemplateWildCounts();
    assert N != Wildcard && K != Wildcard;
    assert wb[..2] == [Var("ko"), Var("s")] && wb[2..] == [Var("t")];
    assert [Var("ko"), Var("s")][..1] == [Var("ko")] && [Var("ko"), Var("s")][1..] == [Var("s")];
    assert Instantiate(Add(Var(K), Wild), [Var("ko")]) == Add(Var(K), Var("ko"));
    assert Instantiate(Add(Wild, IntImm(16)), [Var("s")]) == Add(Var("s"), IntImm(16));
    assert Instantiate(Mul(Add(Var(K), Wild), Add(Wild, IntImm(16))), wb[..2])
        == Mul(Add(Var(K), Var("ko")), Add(Var("s"), IntImm(16)));
    assert Instantiate(Add(Var(N), Wild), wb[2..]) == Add(Var(N), Var("t"));
  }

  /** The column-major B address fits B's column-major template. */
  lemma BColIndexIsColumnMajor()
    ensures WildCount(BColPattern(K, N)) == 2
    ensures Instantiate(BColPattern(K, N), [Var("t"), Var("ko")]) == BColIndex
  {
    var wb := [Var("t"), Var("ko")];
    TemplateWildCounts();
    assert N != Wildcard && K != Wildcard;
    var z := Add(Var(N), Wild);
    var y := Mul(z, IntImm(8));
    var x := Add(y, Wild);
    assert wb[..1] == [Var("t")] && wb[1..] == [Var("ko")] && wb[..2] == wb && wb[2..] == [];
    assert [Var("t")][..0] == [] && [Var("t")][0..] == [Var("t")] && [Var("t")][..1] == [Var("t")];
    assert Instantiate(z, [Var("t")]) == Add(Var(N), Var("t"));
    assert Instantiate(y, [Var("t")]) == Mul(Add(Var(N), Var("t")), IntImm(8));
    assert Instantiate(x, wb) == Add(Mul(Add(Var(N), Var("t")), IntImm(8)), Var("ko"));
    assert Instantiate(Mul(x, IntImm(16)), wb) == Mul(Add(Mul(Add(Var(N), Var("t")), IntImm(8)), Var("ko")), IntImm(16));
  }

  /**
   * The loads of that nest after substitution are all row-major: the intended
   * classification says Row for both operands, and the code as written returns
   * no value.
   */
  lemma WmmaNestOperandsRowMajor()
    ensures ResolveStore(StoreNode("C", Accumulate, CIndex), Lets).Some?
    ensures var loads := ExtractMatrixLoads(ResolveStore(StoreNode("C", Accumulate, CIndex), Lets).value);
            && loads.Truthy()
            && IdentifyMatrixLoadIntended(loads, M, N, K) == Classified(Row, Row)
            && IdentifyMatrixLoad(loads, M, N, K) == NoReturnValue
  {
    StoreResolves(Accumulate);
    var loads := ExtractMatrixLoads(ResolveStore(StoreNode("C", Accumulate, CIndex), Lets).value);
    var wc, wa, wb := [Var("t"), Var("c0")], [Var("t"), Var("ko")], [Var("ko"), Var("s"), Var("t")];
    TemplateWildCounts();
    CIndexIsRowMajor();
    AIndexIsRowMajor();
    BIndexIsRowMajor();
    RowMajorOperandsClassifiedRow(loads, M, N, K, wc, wa, wb);
    IdentifyMatrixLoadReturnsNothing(loads, M, N, K);
  }

  /** With B addressed column-major the code as written reports B invalid; the intended test says Col. */
  lemma ColumnMajorBExample()
    ensures var loads := MatrixLoads(None, None, None, Some(LoadNode("B", BColIndex)));
            IdentifyLoadB(loads, M, N, K) == -1 && IdentifyLoadBIntended(loads, M, N, K) == 1
  {
    var loads := MatrixLoads(None, None, None, Some(LoadNode("B", BColIndex)));
    BColIndexIsColumnMajor();
    BColumnLoadMisclassified(loads, M, N, K);
  }

  /** A nest missing its K loop is refused, reporting two dimensions. */
  lemma MissingKDimensionReportsTwo()
    ensures Pass(Program(Loop(M, IntImm(0), IntImm(16), TensorCore, Tc(N, 16, KBody(Accumulate)))), []).result
         == Err(WrongDimensionCount(2))
  {
    var middle := Loop(N, IntImm(0), IntImm(16), TensorCore, KBody(Accumulate));
    assert ForsOf(For(middle)) == [middle];
    assert AllTensorCore([middle]);
  }

  /** An 8 x 16 x 16 nest is refused with its shape. */
  lemma EightRowsRefused()
    ensures Pass(Program(Nest(8, 16, 16, Accumulate)), []).result == Err(UnsupportedShape(8, 16, 16))
  {
    NestWalks(8, 16, 16, Accumulate);
  }

  /** The template is order-sensitive: cast(A) * cast(B) + C is refused. */
  lemma CommutedAccumulateRefused()
    ensures Pass(Program(Nest(16, 16, 16, Commuted)), []).result == Err(LoadPatternNotRecognised)
  {
    var nest := Nest(16, 16, 16, Commuted);
    NestReachesStore(Commuted);
    StoreResolves(Commuted);
    var r := ResolveStore(StoreNode("C", Commuted, CIndex), Lets).value;
    assert !IsAccumulate(r.value);
    assert Pass(For(nest), []) == ExtractNest(nest, []);
  }

  /**
   * The lets are gathered over the whole M loop, so a let in a later sibling
   * branch, which does not scope the store, still wins the lookup.
   */
  lemma SiblingLetWins()
    ensures var body := Block(LetStmt(AddrName, IntImm(1), Store(StoreNode("C", Var(AddrName), IntImm(0)))),
                              LetStmt(AddrName, IntImm(2), Store(StoreNode("D", IntImm(0), IntImm(0)))));
            && LetsOf(body) == [Binding(AddrName, IntImm(1)), Binding(AddrName, IntImm(2))]
            && Resolve(Var(AddrName), LetsOf(body)) == Some(IntImm(2))
  {
    var lets := [Binding(AddrName, IntImm(1)), Binding(AddrName, IntImm(2))];
    assert FindLet(lets, AddrName) == Some(1);
    ResolveVar(AddrName, lets);
    ResolveWithoutFreeVars(IntImm(2), lets);
  }

  /** An expression without variables is its own substitution. */
  lemma ResolveWithoutFreeVars(e: Expr, lets: seq<Binding>)
    requires FreeVars(e) == {}
    ensures Resolve(e, lets) == Some(e)
  {
    ResolveUnboundIsIdentity(e, lets, {});
  }

  /** The K loop of these nests: its last store, substituted, is the accumulate. */
  lemma KLoopStoreAccepted()
    ensures CheckStore(Loop(K, IntImm(0), IntImm(16), TensorCore, KBody(Accumulate)), Lets) == Ok(Undefined)
  {
    var kLoop := Loop(K, IntImm(0), IntImm(16), TensorCore, KBody(Accumulate));
    var store := Store(StoreNode("C", Accumulate, CIndex));
    assert KBody(Accumulate) == LetStmt(AddrName, AIndex, store);
    assert StoresOf(store) == [StoreNode("C", Accumulate, CIndex)];
    assert StoresOf(For(kLoop)) == [StoreNode("C", Accumulate, CIndex)];
    StoreResolves(Accumulate);
    var r := ResolveStore(StoreNode("C", Accumulate, CIndex), Lets).value;
    assert IsAccumulate(r.value);
  }

  /**
   * The N and K loops need not be nested: two sibling TensorCore loops under
   * the M loop are taken as N and K in pre-order, and the store is looked for
   * in the second one only.
   */
  lemma SiblingLoopsAccepted()
    ensures ExtractNest(Loop(M, IntImm(0), IntImm(16), TensorCore,
                             Block(Tc(N, 16, Store(StoreNode("D", IntImm(0), IntImm(0)))), Tc(K, 16, KBody(Accumulate)))), []).result
         == Ok(Undefined)
  {
    var nLoop := Loop(N, IntImm(0), IntImm(16), TensorCore, Store(StoreNode("D", IntImm(0), IntImm(0))));
    var kLoop := Loop(K, IntImm(0), IntImm(16), TensorCore, KBody(Accumulate));
    var store := Store(StoreNode("C", Accumulate, CIndex));
    assert KBody(Accumulate) == LetStmt(AddrName, AIndex, store);
    assert ForsOf(store) == [] && LetsOf(store) == [];
    assert ForsOf(KBody(Accumulate)) == [] && LetsOf(KBody(Accumulate)) == Lets;
    assert ForsOf(For(nLoop)) == [nLoop] && LetsOf(For(nLoop)) == [];
    assert ForsOf(For(kLoop)) == [kLoop] && LetsOf(For(kLoop)) == Lets;
    var body := Block(For(nLoop), For(kLoop));
    assert ForsOf(body) == [nLoop, kLoop];
    assert AllTensorCore(ForsOf(body));
    var loop := Loop(M, IntImm(0), IntImm(16), TensorCore, body);
    assert LetsOf(For(loop)) == Lets;
    assert [] + Lets == Lets;
    assert GetWmmaLayout(16, 16, 16) == M16N16K16;
    KLoopStoreAccepted();
    assert CheckNest(loop, 16, Lets) == CheckStore(kLoop, Lets);
  }
}
