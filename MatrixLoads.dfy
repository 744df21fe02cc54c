/**
 * The idiom matcher and the layout classifier: recognising the accumulate
 * C + cast(A) * cast(B) in the value a Store writes, and classifying the
 * address expressions of the loads of A, B and C against fixed templates.
 */
module MatrixLoads {
  import opened Wrappers
  import opened Ir
  import opened IrMatch

  /** The fields of a Load node that the classifier reads. */
  datatype LoadNode = LoadNode(buffer: string, index: Expr)

  /** e.as<Load>(): the load `e` is, or None (a null pointer) when it is something else. */
  function AsLoad(e: Expr): (r: Option<LoadNode>)
    ensures r.Some? <==> e.Load?
    ensures r.Some? ==> e == Load(r.value.buffer, r.value.index)
  {
    if e.Load? then Some(LoadNode(e.buffer, e.index)) else None
  }

  datatype MatrixLoadType = Row | Col | Unknown

  /** The four pointers the matcher fills in; None is a null pointer. */
  datatype MatrixLoads = MatrixLoads(
    cStore: Option<StoreNode>,
    cLoad: Option<LoadNode>,
    aLoad: Option<LoadNode>,
    bLoad: Option<LoadNode>)
  {
    /** The record's conversion to bool: every pointer is set. */
    predicate Truthy() {
      cStore.Some? && cLoad.Some? && aLoad.Some? && bLoad.Some?
    }
  }

  /** The value-initialised record `{}`. */
  const NoLoads := MatrixLoads(None, None, None, None)

  /** The accumulate template W1 + W2 * W3. */
  const AccumulatePattern: Expr := Add(Wild, Mul(Wild, Wild))

  /** The shape the accumulate template asks for: a sum whose right operand is a product. */
  predicate SumOfProduct(e: Expr) {
    e.Add? && e.b.Mul?
  }

  /** C + cast(A) * cast(B), where C, A and B are each read straight from memory. */
  predicate IsAccumulate(e: Expr) {
    && e.Add? && e.a.Load?
    && e.b.Mul?
    && e.b.a.Cast? && e.b.a.operand.Load?
    && e.b.b.Cast? && e.b.b.operand.Load?
  }

  /** The instances of W1 + W2 * W3 are exactly the sums whose right operand is a product. */
  lemma AccumulatePatternShape(e: Expr)
    ensures IsInstance(AccumulatePattern, e) <==> SumOfProduct(e)
  {
    MatchIffInstance(AccumulatePattern, e);
    if SumOfProduct(e) {
      MatchComplete(AccumulatePattern, [e.a, e.b.a, e.b.b]);
    }
  }

  /**
   * extract_matrix_loads: the empty record when the stored value is not a sum
   * with a product on the right or a factor is not a cast; otherwise the store
   * together with the summand and the two cast operands, each as a load if it
   * is one.
   */
  function ExtractMatrixLoads(op: StoreNode): (r: MatrixLoads)
    ensures !SumOfProduct(op.value) ==> r == NoLoads
    ensures SumOfProduct(op.value) && !(op.value.b.a.Cast? && op.value.b.b.Cast?) ==> r == NoLoads
    ensures SumOfProduct(op.value) && op.value.b.a.Cast? && op.value.b.b.Cast? ==>
      r == MatrixLoads(Some(op), AsLoad(op.value.a), AsLoad(op.value.b.a.operand), AsLoad(op.value.b.b.operand))
    ensures r.Truthy() <==> IsAccumulate(op.value)
  {
    AccumulatePatternShape(op.value);
    MatchIffInstance(AccumulatePattern, op.value);
    match Match(AccumulatePattern, op.value)
    case None => NoLoads
    case Some(ws) =>
      assert ws[..1] == [ws[0]] && ws[1..][..1] == [ws[1]] && ws[1..][1..] == [ws[2]];
      assert op.value == Add(ws[0], Mul(ws[1], ws[2]));
      if !ws[1].Cast? || !ws[2].Cast? then NoLoads
      else MatrixLoads(Some(op), AsLoad(ws[0]), AsLoad(ws[1].operand), AsLoad(ws[2].operand))
  }

  // The address templates, over the loop variables of the M, N and K
  // dimensions; the literal 8 and 16 are constants the address must contain.

  /** A row-major: k + (((m + *) * 8) + *) * 16 */
  function ARowPattern(k: string, m: string): Expr {
    Add(Var(k), Mul(Add(Mul(Add(Var(m), Wild), IntImm(8)), Wild), IntImm(16)))
  }

  /** A column-major: ((k + *) * (* + 16)) + (m + *) */
  function AColPattern(k: string, m: string): Expr {
    Add(Mul(Add(Var(k), Wild), Add(Wild, IntImm(16))), Add(Var(m), Wild))
  }

  /** B row-major: ((k + *) * (* + 16)) + (n + *) */
  function BRowPattern(k: string, n: string): Expr {
    Add(Mul(Add(Var(k), Wild), Add(Wild, IntImm(16))), Add(Var(n), Wild))
  }

  /** B column-major: k + (((n + *) * 8) + *) * 16 */
  function BColPattern(k: string, n: string): Expr {
    Add(Var(k), Mul(Add(Mul(Add(Var(n), Wild), IntImm(8)), Wild), IntImm(16)))
  }

  /** C: n + (((m + *) * <c>.stride.1) + *) */
  function CRowPattern(m: string, n: string, c: string): Expr {
    Add(Var(n), Add(Mul(Add(Var(m), Wild), Var(c + ".stride.1")), Wild))
  }

  /** No address is an instance of both the row-major and the column-major template of an operand. */
  lemma RowAndColumnTemplatesDisjoint(k: string, m: string, n: string, e: Expr)
    ensures !(IsInstance(ARowPattern(k, m), e) && IsInstance(AColPattern(k, m), e))
    ensures !(IsInstance(BRowPattern(k, n), e) && IsInstance(BColPattern(k, n), e))
  {
    if IsInstance(ARowPattern(k, m), e) {
      var ws :| |ws| == WildCount(ARowPattern(k, m)) && Instantiate(ARowPattern(k, m), ws) == e;
      var p := ARowPattern(k, m);
      assert e.b == Instantiate(p.b, ws[WildCount(p.a)..]);
      MatchIffInstance(AColPattern(k, m), e);
    }
    if IsInstance(BColPattern(k, n), e) {
      var ws :| |ws| == WildCount(BColPattern(k, n)) && Instantiate(BColPattern(k, n), ws) == e;
      var p := BColPattern(k, n);
      assert e.b == Instantiate(p.b, ws[WildCount(p.a)..]);
      MatchIffInstance(BRowPattern(k, n), e);
    }
  }

  /**
   * identify_matrix_load_a: 0 when A's address has the row-major shape (tried
   * first), 1 when it has the column-major shape, -1 otherwise.
   */
  function IdentifyLoadA(loads: MatrixLoads, mDim: string, nDim: string, kDim: string): (r: int)
    requires loads.aLoad.Some?
    ensures r == 0 <==> IsInstance(ARowPattern(kDim, mDim), loads.aLoad.value.index)
    ensures r == 1 <==>
      !IsInstance(ARowPattern(kDim, mDim), loads.aLoad.value.index)
      && IsInstance(AColPattern(kDim, mDim), loads.aLoad.value.index)
    ensures r == -1 <==>
      !IsInstance(ARowPattern(kDim, mDim), loads.aLoad.value.index)
      && !IsInstance(AColPattern(kDim, mDim), loads.aLoad.value.index)
  {
    var index := loads.aLoad.value.index;
    MatchIffInstance(ARowPattern(kDim, mDim), index);
    MatchIffInstance(AColPattern(kDim, mDim), index);
    if Match(ARowPattern(kDim, mDim), index).Some? then 0
    else if Match(AColPattern(kDim, mDim), index).Some? then 1
    else -1
  }

  /**
   * identify_matrix_load_b as written: the column-major template is built but
   * the second test matches the row-major one again, so 1 is never returned.
   */
  function IdentifyLoadB(loads: MatrixLoads, mDim: string, nDim: string, kDim: string): (r: int)
    requires loads.bLoad.Some?
    ensures r != 1
    ensures r == 0 <==> IsInstance(BRowPattern(kDim, nDim), loads.bLoad.value.index)
    ensures r == -1 <==> !IsInstance(BRowPattern(kDim, nDim), loads.bLoad.value.index)
  {
    var index := loads.bLoad.value.index;
    MatchIffInstance(BRowPattern(kDim, nDim), index);
    if Match(BRowPattern(kDim, nDim), index).Some? then 0
    else if Match(BRowPattern(kDim, nDim), index).Some? then 1
    else -1
  }

  /** identify_matrix_load_b with its second test on the column-major template. */
  function IdentifyLoadBIntended(loads: MatrixLoads, mDim: string, nDim: string, kDim: string): (r: int)
    requires loads.bLoad.Some?
    ensures r == 0 <==> IsInstance(BRowPattern(kDim, nDim), loads.bLoad.value.index)
    ensures r == 1 <==>
      !IsInstance(BRowPattern(kDim, nDim), loads.bLoad.value.index)
      && IsInstance(BColPattern(kDim, nDim), loads.bLoad.value.index)
    ensures r == -1 <==>
      !IsInstance(BRowPattern(kDim, nDim), loads.bLoad.value.index)
      && !IsInstance(BColPattern(kDim, nDim), loads.bLoad.value.index)
  {
    var index := loads.bLoad.value.index;
    MatchIffInstance(BRowPattern(kDim, nDim), index);
    MatchIffInstance(BColPattern(kDim, nDim), index);
    if Match(BRowPattern(kDim, nDim), index).Some? then 0
    else if Match(BColPattern(kDim, nDim), index).Some? then 1
    else -1
  }

  /**
   * Every B address of the column-major shape is reported invalid by the code
   * as written and column-major by the intended test.
   */
  lemma BColumnLoadMisclassified(loads: MatrixLoads, mDim: string, nDim: string, kDim: string)
    requires loads.bLoad.Some?
    requires IsInstance(BColPattern(kDim, nDim), loads.bLoad.value.index)
    ensures IdentifyLoadB(loads, mDim, nDim, kDim) == -1
    ensures IdentifyLoadBIntended(loads, mDim, nDim, kDim) == 1
  {
    RowAndColumnTemplatesDisjoint(kDim, mDim, nDim, loads.bLoad.value.index);
  }

  /** The layout a 0 / 1 / -1 code stands for. */
  function LayoutOf(code: int): MatrixLoadType {
    if code == 0 then Row else if code == 1 then Col else Unknown
  }

  /** What identify_matrix_load hands back: a layout, or nothing when control runs off its end. */
  datatype Returned = Returned(layout: MatrixLoadType) | NoReturnValue

  /**
   * identify_matrix_load as written: Unknown when C's address misses its
   * template; otherwise the A classification and the B row test are computed
   * and dropped and no value is returned.
   */
  function IdentifyMatrixLoad(loads: MatrixLoads, mDim: string, nDim: string, kDim: string): (r: Returned)
    requires loads.Truthy()
    ensures r == Returned(Unknown) <==>
      !IsInstance(CRowPattern(mDim, nDim, loads.cLoad.value.buffer), loads.cLoad.value.index)
    ensures r == NoReturnValue <==>
      IsInstance(CRowPattern(mDim, nDim, loads.cLoad.value.buffer), loads.cLoad.value.index)
  {
    var c := loads.cLoad.value;
    MatchIffInstance(CRowPattern(mDim, nDim, c.buffer), c.index);
    if Match(CRowPattern(mDim, nDim, c.buffer), c.index).None? then Returned(Unknown)
    else NoReturnValue
  }

  /** Per-operand layouts, or the report that C's address is not the expected one. */
  datatype Classification = CUnrecognised | Classified(a: MatrixLoadType, b: MatrixLoadType)

  /**
   * identify_matrix_load completed: C's address checked first, then one
   * row-major and one column-major test per operand, with Unknown as the
   * explicit fallback.
   */
  function IdentifyMatrixLoadIntended(loads: MatrixLoads, mDim: string, nDim: string, kDim: string): (r: Classification)
    requires loads.Truthy()
    ensures r == CUnrecognised <==>
      !IsInstance(CRowPattern(mDim, nDim, loads.cLoad.value.buffer), loads.cLoad.value.index)
    ensures r.Classified? ==>
      && (r.a == Row <==> IsInstance(ARowPattern(kDim, mDim), loads.aLoad.value.index))
      && (r.a == Col <==>
            !IsInstance(ARowPattern(kDim, mDim), loads.aLoad.value.index)
            && IsInstance(AColPattern(kDim, mDim), loads.aLoad.value.index))
      && (r.b == Row <==> IsInstance(BRowPattern(kDim, nDim), loads.bLoad.value.index))
      && (r.b == Col <==>
            !IsInstance(BRowPattern(kDim, nDim), loads.bLoad.value.index)
            && IsInstance(BColPattern(kDim, nDim), loads.bLoad.value.index))
  {
    var c := loads.cLoad.value;
    MatchIffInstance(CRowPattern(mDim, nDim, c.buffer), c.index);
    if Match(CRowPattern(mDim, nDim, c.buffer), c.index).None? then CUnrecognised
    else Classified(LayoutOf(IdentifyLoadA(loads, mDim, nDim, kDim)),
                    LayoutOf(IdentifyLoadBIntended(loads, mDim, nDim, kDim)))
  }

  /**
   * Where the completed classifier gives layouts, the code as written gives no
   * value at all.
   */
  lemma IdentifyMatrixLoadReturnsNothing(loads: MatrixLoads, mDim: string, nDim: string, kDim: string)
    requires loads.Truthy()
    ensures IdentifyMatrixLoadIntended(loads, mDim, nDim, kDim).Classified?
        <==> IdentifyMatrixLoad(loads, mDim, nDim, kDim) == NoReturnValue
  {
  }

  /**
   * Row-major addressing of C, A and B is classified Row for both A and B,
   * whatever the tile offsets and strides the wildcards stand for.
   */
  lemma RowMajorOperandsClassifiedRow(
    loads: MatrixLoads, mDim: string, nDim: string, kDim: string,
    wc: seq<Expr>, wa: seq<Expr>, wb: seq<Expr>)
    requires loads.Truthy()
    requires |wc| == WildCount(CRowPattern(mDim, nDim, loads.cLoad.value.buffer))
    requires |wa| == WildCount(ARowPattern(kDim, mDim)) && |wb| == WildCount(BRowPattern(kDim, nDim))
    requires loads.cLoad.value.index == Instantiate(CRowPattern(mDim, nDim, loads.cLoad.value.buffer), wc)
    requires loads.aLoad.value.index == Instantiate(ARowPattern(kDim, mDim), wa)
    requires loads.bLoad.value.index == Instantiate(BRowPattern(kDim, nDim), wb)
    ensures IdentifyMatrixLoadIntended(loads, mDim, nDim, kDim) == Classified(Row, Row)
  {
    assert IsInstance(CRowPattern(mDim, nDim, loads.cLoad.value.buffer), loads.cLoad.value.index);
    assert IsInstance(ARowPattern(kDim, mDim), loads.aLoad.value.index);
    assert IsInstance(BRowPattern(kDim, nDim), loads.bLoad.value.index);
  }

  /** Column-major addressing of B is classified Col once the intended test is in place. */
  lemma ColumnMajorBClassifiedCol(
    loads: MatrixLoads, mDim: string, nDim: string, kDim: string, wc: seq<Expr>, wb: seq<Expr>)
    requires loads.Truthy()
    requires |wc| == WildCount(CRowPattern(mDim, nDim, loads.cLoad.value.buffer))
    requires |wb| == WildCount(BColPattern(kDim, nDim))
    requires loads.cLoad.value.index == Instantiate(CRowPattern(mDim, nDim, loads.cLoad.value.buffer), wc)
    requires loads.bLoad.value.index == Instantiate(BColPattern(kDim, nDim), wb)
    ensures IdentifyMatrixLoadIntended(loads, mDim, nDim, kDim).Classified?
    ensures IdentifyMatrixLoadIntended(loads, mDim, nDim, kDim).b == Col
  {
    assert IsInstance(CRowPattern(mDim, nDim, loads.cLoad.value.buffer), loads.cLoad.value.index);
    assert IsInstance(BColPattern(kDim, nDim), loads.bLoad.value.index);
    RowAndColumnTemplatesDisjoint(kDim, mDim, nDim, loads.bLoad.value.index);
  }
}
