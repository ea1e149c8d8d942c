/** What the statistics of a reduction count. */
module ReductionStats {
  import opened Nets
  import opened Interaction
  import opened Rules
  import opened Engine
  import opened Reducer

  /** The symbols of the next pair that is reduced. */
  ghost function NextSymbols(n: Net): Option<(Symbol, Symbol)>
    decreases |n.redexes|
  {
    if n.redexes == [] then None
    else
      var ((x, y), m) := (n.redexes[0], n.(redexes := n.redexes[1..]));
      if Faces(m, x, y) then Some((m.agents[x], m.agents[y])) else NextSymbols(m)
  }

  /** The symbols of the pairs reduced in at most `budget` steps, in order. */
  ghost function Met(n: Net, budget: nat): seq<(Symbol, Symbol)>
    decreases budget
  {
    if budget == 0 || NextSymbols(n).None? then [] else [NextSymbols(n).value] + Met(Advance(n).0, budget - 1)
  }

  predicate BothErasers(p: (Symbol, Symbol)) { p.0.Era? && p.1.Era? }
  predicate OneEraser(p: (Symbol, Symbol)) { p.0.Era? != p.1.Era? }
  predicate SameSymbols(p: (Symbol, Symbol)) { (p.0.Con? && p.1.Con?) || (p.0.Dup? && p.1.Dup?) }
  predicate ConAndDup(p: (Symbol, Symbol)) { (p.0.Con? && p.1.Dup?) || (p.0.Dup? && p.1.Con?) }

  function Tally(ps: seq<(Symbol, Symbol)>, f: ((Symbol, Symbol)) -> bool): nat {
    if ps == [] then 0 else (if f(ps[0]) then 1 else 0) + Tally(ps[1..], f)
  }

  lemma {:induction false} StepRule(n: Net)
    ensures NextSymbols(n).Some? <==> Advance(n).1.Reduced?
    ensures NextSymbols(n).Some? ==>
      var (p, r) := (NextSymbols(n).value, Advance(n).1.rule);
      && (r.Annihilate? <==> SameSymbols(p)) && (r.Commute? <==> ConAndDup(p))
      && (r.Erase? <==> OneEraser(p)) && (r.Vanish? <==> BothErasers(p))
    decreases |n.redexes|
  {
    hide Apply;
    if n.redexes != [] {
      var ((x, y), m) := (n.redexes[0], n.(redexes := n.redexes[1..]));
      if !Faces(m, x, y) { StepRule(m); }
    }
  }

  lemma TallyMore(p: (Symbol, Symbol), ps: seq<(Symbol, Symbol)>, f: ((Symbol, Symbol)) -> bool)
    ensures Tally([p] + ps, f) == (if f(p) then 1 else 0) + Tally(ps, f)
  {
    assert ([p] + ps)[1..] == ps;
  }

  /** Each count is the number of pairs with those symbols that were reduced along the run. */
  lemma {:induction false} StatsExact(n: Net, stats: Stats, budget: nat)
    requires stats.total <= budget
    ensures var (st, ps) := (AdvanceN(n, stats, budget).1, Met(n, budget - stats.total));
      && st.total == stats.total + |ps|
      && st.annihilations == stats.annihilations + Tally(ps, SameSymbols)
      && st.commutations == stats.commutations + Tally(ps, ConAndDup)
      && st.erasures == stats.erasures + Tally(ps, OneEraser)
      && st.vanishings == stats.vanishings + Tally(ps, BothErasers)
    decreases budget - stats.total
  {
    hide Advance, NextSymbols;
    if stats.total < budget {
      StepRule(n);
      var (m, r) := Advance(n);
      if r.Reduced? {
        var p, rest := NextSymbols(n).value, Met(m, budget - stats.total - 1);
        StatsExact(m, stats.Count(r.rule), budget);
        hide Tally;
        TallyMore(p, rest, SameSymbols);
        TallyMore(p, rest, ConAndDup);
        TallyMore(p, rest, OneEraser);
        TallyMore(p, rest, BothErasers);
      }
    }
  }
}
