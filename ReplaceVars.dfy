/**
 * ReplaceVars: substitutes every variable bound by one of the collected lets
 * with its bound value, recursively, looking bindings up from the back of the
 * list so that the last binding of a name wins. The list holds every LetStmt
 * under the M loop in pre-order, after those of earlier nests, so that binding
 * need not be one whose scope holds the variable.
 */
module ReplaceVars {
  import opened Wrappers
  import opened Ir

  /**
   * find_let: the position of the last binding named `name`, None when no
   * binding has that name.
   */
  function FindLet(lets: seq<Binding>, name: string): (r: Option<nat>)
    ensures r.Some? ==> r.value < |lets| && lets[r.value].name == name
    ensures r.Some? ==> forall j :: r.value < j < |lets| ==> lets[j].name != name
    ensures r.None? <==> forall j :: 0 <= j < |lets| ==> lets[j].name != name
  {
    if lets == [] then None
    else if lets[|lets| - 1].name == name then Some(|lets| - 1)
    else FindLet(lets[..|lets| - 1], name)
  }

  /** A set of positions below `n` has at most `n` elements. */
  lemma {:induction false} BoundedSetCard(path: set<nat>, n: nat)
    requires forall i :: i in path ==> i < n
    ensures |path| <= n
  {
    if n == 0 {
      assert path == {};
    } else {
      var rest := path - {n - 1};
      BoundedSetCard(rest, n - 1);
      if n - 1 in path {
        assert path == rest + {n - 1};
      } else {
        assert path == rest;
      }
    }
  }

  /**
   * The mutation of `e`, where `path` holds the positions of the lets whose
   * values are being substituted on the way down to `e`. Reaching a let that
   * is already on the path means the mutator would call itself again with the
   * same arguments and so never finish: that outcome is None.
   */
  function ResolveFrom(e: Expr, lets: seq<Binding>, path: set<nat>): Option<Expr>
    requires forall i :: i in path ==> i < |lets|
    decreases |lets| - |path|, e
  {
    match e
    case Var(x) =>
      var found := FindLet(lets, x);
      if found.None? then Some(e)
      else if found.value in path then None
      else
        BoundedSetCard(path + {found.value}, |lets|);
        ResolveFrom(lets[found.value].value, lets, path + {found.value})
    case IntImm(_) => Some(e)
    case Add(a, b) =>
      var ra :- ResolveFrom(a, lets, path);
      var rb :- ResolveFrom(b, lets, path);
      Some(Add(ra, rb))
    case Mul(a, b) =>
      var ra :- ResolveFrom(a, lets, path);
      var rb :- ResolveFrom(b, lets, path);
      Some(Mul(ra, rb))
    case Cast(t, v) =>
      var rv :- ResolveFrom(v, lets, path);
      Some(Cast(t, rv))
    case Load(n, i) =>
      var ri :- ResolveFrom(i, lets, path);
      Some(Load(n, ri))
  }

  /** ReplaceVars(lets).mutate(e); None when that recursion never ends. */
  function Resolve(e: Expr, lets: seq<Binding>): Option<Expr> {
    ResolveFrom(e, lets, {})
  }

  /**
   * The mutator applied to a Store: its value and its index are both
   * substituted. A finished store mentions no bound name, lets that only refer
   * outward always finish, and with no lets the store comes back as it was.
   */
  function ResolveStore(st: StoreNode, lets: seq<Binding>): (r: Option<StoreNode>)
    ensures r.Some? <==> Resolve(st.value, lets).Some? && Resolve(st.index, lets).Some?
    ensures r.Some? ==> r.value == StoreNode(st.buffer, Resolve(st.value, lets).value, Resolve(st.index, lets).value)
    ensures r.Some? ==> Unbound(r.value.value, lets) && Unbound(r.value.index, lets)
    ensures BindsOutward(lets) ==> r.Some?
    ensures lets == [] ==> r == Some(st)
  {
    ResolveFinished(st.value, lets);
    ResolveFinished(st.index, lets);
    var v :- Resolve(st.value, lets);
    var i :- Resolve(st.index, lets);
    Some(StoreNode(st.buffer, v, i))
  }

  /** The three facts about one substituted expression that the store inherits. */
  lemma ResolveFinished(e: Expr, lets: seq<Binding>)
    ensures Resolve(e, lets).Some? ==> Unbound(Resolve(e, lets).value, lets)
    ensures BindsOutward(lets) ==> Resolve(e, lets).Some?
    ensures lets == [] ==> Resolve(e, lets) == Some(e)
  {
    if Resolve(e, lets).Some? {
      ResolvedIsUnbound(e, lets, {});
    }
    if BindsOutward(lets) {
      ResolveTerminates(e, lets);
    }
    if lets == [] {
      ResolveWithoutLets(e);
    }
  }

  /** No name of `e` is bound by `lets`. */
  ghost predicate Unbound(e: Expr, lets: seq<Binding>) {
    forall v :: v in FreeVars(e) ==> FindLet(lets, v).None?
  }

  /**
   * A variable no let binds is left as it is; a bound one becomes the mutation
   * of the value of its last binding in the list, the let itself now being on
   * the path.
   * Without the path: a bound one becomes exactly the mutation of that value.
   */
  lemma ResolveVar(x: string, lets: seq<Binding>)
    ensures FindLet(lets, x).None? ==> Resolve(Var(x), lets) == Some(Var(x))
    ensures FindLet(lets, x).Some? ==>
      Resolve(Var(x), lets) == ResolveFrom(lets[FindLet(lets, x).value].value, lets, {FindLet(lets, x).value})
    ensures FindLet(lets, x).Some? ==>
      Resolve(Var(x), lets) == Resolve(lets[FindLet(lets, x).value].value, lets)
  {
    if FindLet(lets, x).Some? {
      var i := FindLet(lets, x).value;
      var v := lets[i].value;
      assert {} + {i} == {i};
      if ResolveFrom(v, lets, {i}).Some? {
        ResolveFromMonotone(v, lets, {}, {i});
      } else {
        ResolveFromReentry(v, lets, {}, i);
      }
    }
  }

  /**
   * Fewer lets on the path never change a finished substitution: the run with
   * the larger path met none of its lets again, so the other run takes the
   * same steps.
   */
  lemma {:induction false} ResolveFromMonotone(e: Expr, lets: seq<Binding>, p: set<nat>, q: set<nat>)
    requires forall i :: i in q ==> i < |lets|
    requires p <= q
    requires ResolveFrom(e, lets, q).Some?
    ensures ResolveFrom(e, lets, p) == ResolveFrom(e, lets, q)
    decreases |lets| - |q|, e
  {
    match e
    case Var(x) =>
      var found := FindLet(lets, x);
      if found.Some? {
        var j := found.value;
        BoundedSetCard(q + {j}, |lets|);
        ResolveFromMonotone(lets[j].value, lets, p + {j}, q + {j});
      }
    case IntImm(_) =>
    case Add(a, b) =>
      ResolveFromMonotone(a, lets, p, q);
      ResolveFromMonotone(b, lets, p, q);
    case Mul(a, b) =>
      ResolveFromMonotone(a, lets, p, q);
      ResolveFromMonotone(b, lets, p, q);
    case Cast(_, v) =>
      ResolveFromMonotone(v, lets, p, q);
    case Load(_, i) =>
      ResolveFromMonotone(i, lets, p, q);
  }

  /**
   * If substituting let `i`'s value with `i` on the path never finishes, then
   * leaving `i` off the path does not help: wherever the run would stop at `i`
   * it substitutes that value again, with `i` on a larger path, and that run
   * never finishes either.
   */
  lemma {:induction false} ResolveFromReentry(e: Expr, lets: seq<Binding>, path: set<nat>, i: nat)
    requires i < |lets| && i !in path
    requires forall j :: j in path ==> j < |lets|
    requires ResolveFrom(lets[i].value, lets, {i}).None?
    requires ResolveFrom(e, lets, path + {i}).None?
    ensures ResolveFrom(e, lets, path).None?
    decreases |lets| - |path|, e
  {
    BoundedSetCard(path + {i}, |lets|);
    match e
    case Var(x) =>
      var found := FindLet(lets, x);
      if found.Some? && found.value !in path {
        var j := found.value;
        if j == i {
          if ResolveFrom(lets[i].value, lets, path + {i}).Some? {
            ResolveFromMonotone(lets[i].value, lets, {i}, path + {i});
          }
        } else {
          assert path + {i} + {j} == path + {j} + {i};
          ResolveFromReentry(lets[j].value, lets, path + {j}, i);
        }
      }
    case IntImm(_) =>
    case Add(a, b) =>
      if ResolveFrom(a, lets, path + {i}).Some? {
        ResolveFromMonotone(a, lets, path, path + {i});
        ResolveFromReentry(b, lets, path, i);
      } else {
        ResolveFromReentry(a, lets, path, i);
      }
    case Mul(a, b) =>
      if ResolveFrom(a, lets, path + {i}).Some? {
        ResolveFromMonotone(a, lets, path, path + {i});
        ResolveFromReentry(b, lets, path, i);
      } else {
        ResolveFromReentry(a, lets, path, i);
      }
    case Cast(_, v) =>
      ResolveFromReentry(v, lets, path, i);
    case Load(_, idx) =>
      ResolveFromReentry(idx, lets, path, i);
  }

  /** An expression that mentions no bound name comes back unchanged. */
  lemma {:induction false} ResolveUnboundIsIdentity(e: Expr, lets: seq<Binding>, path: set<nat>)
    requires forall i :: i in path ==> i < |lets|
    requires Unbound(e, lets)
    ensures ResolveFrom(e, lets, path) == Some(e)
  {
    match e
    case Var(x) =>
      assert x in FreeVars(e);
    case IntImm(_) =>
    case Add(a, b) =>
      ResolveUnboundIsIdentity(a, lets, path);
      ResolveUnboundIsIdentity(b, lets, path);
    case Mul(a, b) =>
      ResolveUnboundIsIdentity(a, lets, path);
      ResolveUnboundIsIdentity(b, lets, path);
    case Cast(_, v) =>
      ResolveUnboundIsIdentity(v, lets, path);
    case Load(_, i) =>
      ResolveUnboundIsIdentity(i, lets, path);
  }

  /** With no lets collected the substitution is the identity. */
  lemma ResolveWithoutLets(e: Expr)
    ensures Resolve(e, []) == Some(e)
  {
    ResolveUnboundIsIdentity(e, [], {});
  }

  /** A finished substitution leaves no name that some let binds. */
  lemma {:induction false} ResolvedIsUnbound(e: Expr, lets: seq<Binding>, path: set<nat>)
    requires forall i :: i in path ==> i < |lets|
    requires ResolveFrom(e, lets, path).Some?
    ensures Unbound(ResolveFrom(e, lets, path).value, lets)
    decreases |lets| - |path|, e
  {
    match e
    case Var(x) =>
      var found := FindLet(lets, x);
      if found.Some? {
        var i := found.value;
        BoundedSetCard(path + {i}, |lets|);
        ResolvedIsUnbound(lets[i].value, lets, path + {i});
      }
    case IntImm(_) =>
    case Add(a, b) =>
      ResolvedIsUnbound(a, lets, path);
      ResolvedIsUnbound(b, lets, path);
    case Mul(a, b) =>
      ResolvedIsUnbound(a, lets, path);
      ResolvedIsUnbound(b, lets, path);
    case Cast(_, v) =>
      ResolvedIsUnbound(v, lets, path);
    case Load(_, i) =>
      ResolvedIsUnbound(i, lets, path);
  }

  /** Substituting an already substituted expression changes nothing. */
  lemma ResolveIdempotent(e: Expr, lets: seq<Binding>)
    requires Resolve(e, lets).Some?
    ensures Resolve(Resolve(e, lets).value, lets) == Resolve(e, lets)
  {
    ResolvedIsUnbound(e, lets, {});
    ResolveUnboundIsIdentity(Resolve(e, lets).value, lets, {});
  }

  /** The position a name resolves to lies below `lo`, if the name is bound at all. */
  ghost predicate BoundBelow(lets: seq<Binding>, v: string, lo: nat) {
    FindLet(lets, v).None? || FindLet(lets, v).value < lo
  }

  /**
   * Each let's value only mentions names whose last binding comes earlier in
   * the list: the shape nested LetStmts with distinct names give.
   */
  ghost predicate BindsOutward(lets: seq<Binding>) {
    forall i, v :: 0 <= i < |lets| && v in FreeVars(lets[i].value) ==> BoundBelow(lets, v, i)
  }

  lemma {:induction false} ResolveFromTerminates(e: Expr, lets: seq<Binding>, path: set<nat>, lo: nat)
    requires BindsOutward(lets)
    requires lo <= |lets|
    requires forall i :: i in path ==> lo <= i < |lets|
    requires forall v :: v in FreeVars(e) ==> BoundBelow(lets, v, lo)
    ensures ResolveFrom(e, lets, path).Some?
    decreases lo, e
  {
    match e
    case Var(x) =>
      assert x in FreeVars(e);
      var found := FindLet(lets, x);
      if found.Some? {
        var i := found.value;
        assert i !in path;
        ResolveFromTerminates(lets[i].value, lets, path + {i}, i);
      }
    case IntImm(_) =>
    case Add(a, b) =>
      ResolveFromTerminates(a, lets, path, lo);
      ResolveFromTerminates(b, lets, path, lo);
    case Mul(a, b) =>
      ResolveFromTerminates(a, lets, path, lo);
      ResolveFromTerminates(b, lets, path, lo);
    case Cast(_, v) =>
      ResolveFromTerminates(v, lets, path, lo);
    case Load(_, i) =>
      ResolveFromTerminates(i, lets, path, lo);
  }

  /** When the lets only refer outward the substitution always finishes. */
  lemma ResolveTerminates(e: Expr, lets: seq<Binding>)
    requires BindsOutward(lets)
    ensures Resolve(e, lets).Some?
  {
    ResolveFromTerminates(e, lets, {}, |lets|);
  }

  /**
   * Rebinding a name to a value that mentions the name itself, as in
   * `let x = 1 in let x = x + 1 in ...`, sends the substitution round forever.
   */
  lemma SelfShadowingDiverges()
    ensures Resolve(Var("x"), [Binding("x", IntImm(1)), Binding("x", Add(Var("x"), IntImm(1)))]).None?
  {
    var lets := [Binding("x", IntImm(1)), Binding("x", Add(Var("x"), IntImm(1)))];
    assert FindLet(lets, "x") == Some(1);
    assert {} + {1} == {1};
    assert ResolveFrom(Var("x"), lets, {1}).None?;
    assert ResolveFrom(lets[1].value, lets, {1}).None?;
  }
}
