/**
 * A structural matcher with wildcards, standing in for Halide's expr_match.
 * A pattern is an ordinary expression in which every variable named "*" is a
 * wildcard; matching returns the sub-expressions the wildcards stood for, in
 * left-to-right order. Type checks of the real matcher are not modelled.
 */
module IrMatch {
  import opened Wrappers
  import opened Ir

  const Wildcard: string := "*"

  /** The wildcard as it appears in a pattern. */
  const Wild: Expr := Var(Wildcard)

  /** Number of wildcard occurrences in a pattern. */
  function WildCount(p: Expr): nat {
    match p
    case Var(x) => if x == Wildcard then 1 else 0
    case IntImm(_) => 0
    case Add(a, b) => WildCount(a) + WildCount(b)
    case Mul(a, b) => WildCount(a) + WildCount(b)
    case Cast(_, v) => WildCount(v)
    case Load(_, i) => WildCount(i)
  }

  /** The expression obtained by putting `ws` in place of the wildcards, left to right. */
  function Instantiate(p: Expr, ws: seq<Expr>): Expr
    requires |ws| == WildCount(p)
  {
    match p
    case Var(x) => if x == Wildcard then ws[0] else p
    case IntImm(_) => p
    case Add(a, b) => Add(Instantiate(a, ws[..WildCount(a)]), Instantiate(b, ws[WildCount(a)..]))
    case Mul(a, b) => Mul(Instantiate(a, ws[..WildCount(a)]), Instantiate(b, ws[WildCount(a)..]))
    case Cast(t, v) => Cast(t, Instantiate(v, ws))
    case Load(n, i) => Load(n, Instantiate(i, ws))
  }

  /** `e` is an instance of the template `p`. */
  ghost predicate IsInstance(p: Expr, e: Expr) {
    exists ws :: |ws| == WildCount(p) && Instantiate(p, ws) == e
  }

  /**
   * expr_match(p, e, matches): the wildcard bindings when `e` has the shape of
   * `p`, None otherwise. Whatever it returns is an instantiation of `p` that
   * gives back `e`.
   */
  function Match(p: Expr, e: Expr): (r: Option<seq<Expr>>)
    ensures r.Some? ==> |r.value| == WildCount(p) && Instantiate(p, r.value) == e
  {
    match p
    case Var(x) =>
      if x == Wildcard then Some([e])
      else if e == p then Some([])
      else None
    case IntImm(_) => if e == p then Some([]) else None
    case Add(pa, pb) =>
      if !e.Add? then None
      else
        var wa :- Match(pa, e.a);
        var wb :- Match(pb, e.b);
        assert (wa + wb)[..|wa|] == wa && (wa + wb)[|wa|..] == wb;
        Some(wa + wb)
    case Mul(pa, pb) =>
      if !e.Mul? then None
      else
        var wa :- Match(pa, e.a);
        var wb :- Match(pb, e.b);
        assert (wa + wb)[..|wa|] == wa && (wa + wb)[|wa|..] == wb;
        Some(wa + wb)
    case Cast(t, pv) =>
      if e.Cast? && e.t == t then Match(pv, e.operand) else None
    case Load(n, pi) =>
      if e.Load? && e.buffer == n then Match(pi, e.index) else None
  }

  /** Every instantiation of a pattern is matched, and the match hands back the same bindings. */
  lemma {:induction false} MatchComplete(p: Expr, ws: seq<Expr>)
    requires |ws| == WildCount(p)
    ensures Match(p, Instantiate(p, ws)) == Some(ws)
  {
    match p
    case Var(x) =>
      if x == Wildcard { assert ws == [ws[0]]; } else { assert ws == []; }
    case IntImm(_) =>
      assert ws == [];
    case Add(a, b) =>
      MatchComplete(a, ws[..WildCount(a)]);
      MatchComplete(b, ws[WildCount(a)..]);
      MatchOperands(p, Instantiate(p, ws), ws[..WildCount(a)], ws[WildCount(a)..]);
      assert ws[..WildCount(a)] + ws[WildCount(a)..] == ws;
    case Mul(a, b) =>
      MatchComplete(a, ws[..WildCount(a)]);
      MatchComplete(b, ws[WildCount(a)..]);
      MatchOperands(p, Instantiate(p, ws), ws[..WildCount(a)], ws[WildCount(a)..]);
      assert ws[..WildCount(a)] + ws[WildCount(a)..] == ws;
    case Cast(_, v) => MatchComplete(v, ws);
    case Load(_, i) => MatchComplete(i, ws);
  }

  /** A sum or product matches a template of the same operator operand by operand. */
  lemma MatchOperands(p: Expr, e: Expr, wa: seq<Expr>, wb: seq<Expr>)
    requires (p.Add? && e.Add?) || (p.Mul? && e.Mul?)
    requires Match(p.a, e.a) == Some(wa) && Match(p.b, e.b) == Some(wb)
    ensures Match(p, e) == Some(wa + wb)
  {
  }

  /** The matcher succeeds exactly on the instances of the template. */
  lemma MatchIffInstance(p: Expr, e: Expr)
    ensures Match(p, e).Some? <==> IsInstance(p, e)
  {
    if IsInstance(p, e) {
      var ws :| |ws| == WildCount(p) && Instantiate(p, ws) == e;
      MatchComplete(p, ws);
    }
  }
}
