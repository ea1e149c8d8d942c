/** The backtracking search for an agent bijection between two nets, in its plain
    recursive form and as the loop over an explicit stack that the checker runs. */
module Backtracking {
  import opened Nets
  import opened Ordering

  type Mapping = map<AgentId, AgentId>

  /** One search: the two nets, the agents of `a` in the order they are matched,
      the candidates of `b` by symbol, and whether interface names must agree. */
  datatype Problem = Problem(a: Net, b: Net, order: seq<AgentId>,
                             groups: map<Symbol, seq<AgentId>>, strict: bool)
  {
    /** Every agent to match is live and its symbol has a candidate group. */
    ghost predicate Searchable() {
      forall i :: 0 <= i < |order| ==> order[i] in a.agents && a.agents[order[i]] in groups
    }

    function Candidates(i: nat): seq<AgentId>
      requires Searchable() && i < |order|
    {
      groups[a.agents[order[i]]]
    }
  }

  /** The targets `s` and `t` of two corresponding ports do not contradict `m`.
      An end at an agent that `m` does not map yet is left for later. */
  predicate EndAgrees(m: Mapping, s: PortRef, t: PortRef, strict: bool) {
    match (s, t)
    case (AgentPort(x, p), AgentPort(y, q)) => p == q && (x in m ==> m[x] == y)
    case (FreePort(k), FreePort(l)) => (strict ==> k == l) && (k == U32_MAX <==> l == U32_MAX)
    case _ => false
  }

  predicate Consistent(P: Problem, x: AgentId, y: AgentId, m: Mapping)
    requires x in P.a.agents
  {
    forall p | 0 <= p < TotalPorts(P.a.agents[x]) ::
      EndAgrees(m[x := y], P.a.Target(AgentPort(x, p)), P.b.Target(AgentPort(y, p)), P.strict)
  }

  predicate Usable(P: Problem, i: nat, c: nat, m: Mapping)
    requires P.Searchable() && i < |P.order| && c < |P.Candidates(i)|
  {
    P.Candidates(i)[c] !in m.Values && Consistent(P, P.order[i], P.Candidates(i)[c], m)
  }

  function Or<T>(x: Option<T>, y: Option<T>): Option<T> {
    if x.Some? then x else y
  }

  /** The plain recursive search: match the agents from position `i` on. */
  function Search(P: Problem, i: nat, m: Mapping): Option<Mapping>
    requires P.Searchable() && i <= |P.order|
    decreases |P.order| - i, 1, 0
  {
    if i == |P.order| then Some(m) else SearchFrom(P, i, 0, m)
  }

  /** Match the agent at position `i` with one of its candidates from `c` on. */
  function SearchFrom(P: Problem, i: nat, c: nat, m: Mapping): Option<Mapping>
    requires P.Searchable() && i < |P.order| && c <= |P.Candidates(i)|
    decreases |P.order| - i, 0, |P.Candidates(i)| - c
  {
    if c == |P.Candidates(i)| then None
    else if Usable(P, i, c, m) then
      Or(Search(P, i + 1, m[P.order[i] := P.Candidates(i)[c]]), SearchFrom(P, i, c + 1, m))
    else SearchFrom(P, i, c + 1, m)
  }

  /** What is left to explore when the loop backs up over `stack`. */
  function Backup(P: Problem, stack: seq<nat>, m: Mapping): Option<Mapping>
    requires P.Searchable() && ValidStack(P, stack)
  {
    if stack == [] then None
    else
      var i := |stack| - 1;
      var m' := m - {P.order[i]};
      Or(SearchFrom(P, i, stack[i], m'), Backup(P, stack[..i], m'))
  }

  /** Every stack entry is a position in the candidate list of its agent. */
  ghost predicate ValidStack(P: Problem, stack: seq<nat>)
    requires P.Searchable()
  {
    && |stack| <= |P.order|
    && forall i :: 0 <= i < |stack| ==> stack[i] <= |P.Candidates(i)|
  }

  // The number of nodes that each part of the search still visits.

  ghost function Cost(P: Problem, i: nat, m: Mapping): nat
    requires P.Searchable() && i <= |P.order|
    decreases |P.order| - i, 1, 0
  {
    if i == |P.order| then 1 else 1 + CostFrom(P, i, 0, m)
  }

  ghost function CostFrom(P: Problem, i: nat, c: nat, m: Mapping): nat
    requires P.Searchable() && i < |P.order| && c <= |P.Candidates(i)|
    decreases |P.order| - i, 0, |P.Candidates(i)| - c
  {
    if c == |P.Candidates(i)| then 0
    else if Usable(P, i, c, m) then
      1 + Cost(P, i + 1, m[P.order[i] := P.Candidates(i)[c]]) + CostFrom(P, i, c + 1, m)
    else CostFrom(P, i, c + 1, m)
  }

  ghost function BackupCost(P: Problem, stack: seq<nat>, m: Mapping): nat
    requires P.Searchable() && ValidStack(P, stack)
  {
    if stack == [] then 0
    else
      var i := |stack| - 1;
      var m' := m - {P.order[i]};
      1 + CostFrom(P, i, stack[i], m') + BackupCost(P, stack[..i], m')
  }

  /** `reverse` is the inverse of `m`. */
  ghost predicate Inverse(m: Mapping, reverse: Mapping) {
    && (forall x :: x in m ==> m[x] in reverse && reverse[m[x]] == x)
    && (forall y :: y in reverse ==> reverse[y] in m && m[reverse[y]] == y)
  }

  /** Exactly the first `i` agents are mapped. */
  ghost predicate Covers(P: Problem, i: nat, m: Mapping)
    requires i <= |P.order|
  {
    forall x :: x in m <==> x in P.order[..i]
  }

  /** Compares the targets of each port of `x` and `y` in turn. */
  method IsConsistent(P: Problem, x: AgentId, y: AgentId, m: Mapping) returns (ok: bool)
    requires x in P.a.agents && x !in m
    ensures ok == Consistent(P, x, y, m)
  {
    for p := 0 to TotalPorts(P.a.agents[x])
      invariant forall q | 0 <= q < p ::
          EndAgrees(m[x := y], P.a.Target(AgentPort(x, q)), P.b.Target(AgentPort(y, q)), P.strict)
    {
      match (P.a.Target(AgentPort(x, p)), P.b.Target(AgentPort(y, p))) {
        case (AgentPort(tx, px), AgentPort(ty, py)) =>
          if px != py { return false; }
          if tx == x {
            if ty != y { return false; }
          } else if tx in m && m[tx] != ty {
            return false;
          }
        case (FreePort(k), FreePort(l)) =>
          if P.strict && k != l { return false; }
          if (k == U32_MAX) != (l == U32_MAX) { return false; }
        case _ => return false;
      }
    }
    return true;
  }

  /** Scans the candidates of agent `i` from `start` for the first usable one;
      `c` is the length of the list when there is none. */
  method FirstCandidate(P: Problem, i: nat, start: nat, m: Mapping, reverse: Mapping) returns (c: nat)
    requires P.Searchable() && i < |P.order| && start <= |P.Candidates(i)|
    requires Inverse(m, reverse) && P.order[i] !in m
    ensures start <= c <= |P.Candidates(i)|
    ensures c < |P.Candidates(i)| ==> Usable(P, i, c, m)
    ensures SearchFrom(P, i, start, m) == SearchFrom(P, i, c, m)
    ensures CostFrom(P, i, start, m) == CostFrom(P, i, c, m)
  {
    c := start;
    while c < |P.Candidates(i)|
      invariant start <= c <= |P.Candidates(i)|
      invariant SearchFrom(P, i, start, m) == SearchFrom(P, i, c, m)
      invariant CostFrom(P, i, start, m) == CostFrom(P, i, c, m)
    {
      var y := P.Candidates(i)[c];
      assert y in reverse <==> y in m.Values;
      if y !in reverse {
        var ok := IsConsistent(P, P.order[i], y, m);
        if ok { return; }
      }
      c := c + 1;
    }
  }

  /** The variables of the search loop; the current position is `|stack|`. */
  datatype State = State(stack: seq<nat>, mapping: Mapping, reverse: Mapping)

  ghost predicate Valid(P: Problem, s: State)
    requires P.Searchable()
  {
    ValidStack(P, s.stack) && Covers(P, |s.stack|, s.mapping) && Inverse(s.mapping, s.reverse)
  }

  /** Maps the current agent to its candidate `c`, to resume at `c + 1`. */
  function Push(P: Problem, s: State, c: nat): State
    requires P.Searchable() && |s.stack| < |P.order| && c < |P.Candidates(|s.stack|)|
  {
    var x, y := P.order[|s.stack|], P.Candidates(|s.stack|)[c];
    State(s.stack + [c + 1], s.mapping[x := y], s.reverse[y := x])
  }

  /** Undoes the mapping of the last agent. */
  function Pop(P: Problem, s: State): State
    requires 0 < |s.stack| <= |P.order| && P.order[|s.stack| - 1] in s.mapping
  {
    var x := P.order[|s.stack| - 1];
    State(s.stack[..|s.stack| - 1], s.mapping - {x}, s.reverse - {s.mapping[x]})
  }

  lemma FreshAgent(P: Problem, s: State)
    requires P.Searchable() && Distinct(P.order) && Valid(P, s) && |s.stack| < |P.order|
    ensures P.order[|s.stack|] !in s.mapping
  {}

  lemma PushValid(P: Problem, s: State, c: nat)
    requires P.Searchable() && Distinct(P.order) && Valid(P, s) && |s.stack| < |P.order|
    requires c < |P.Candidates(|s.stack|)| && Usable(P, |s.stack|, c, s.mapping)
    ensures Valid(P, Push(P, s, c))
  {
    var i := |s.stack|;
    FreshAgent(P, s);
    assert P.order[..i + 1] == P.order[..i] + [P.order[i]];
  }

  lemma PopValid(P: Problem, s: State)
    requires P.Searchable() && Distinct(P.order) && Valid(P, s) && s.stack != []
    ensures P.order[|s.stack| - 1] in s.mapping
    ensures Valid(P, Pop(P, s))
  {
    var i := |s.stack| - 1;
    assert P.order[..i + 1] == P.order[..i] + [P.order[i]];
    var r := Pop(P, s);
    assert forall x :: x in r.mapping ==> x in P.order[..i];
  }

  /** Descending into a candidate keeps the answer and spends one unit of work. */
  lemma PushAnswer(P: Problem, s: State, c: nat)
    requires P.Searchable() && ValidStack(P, s.stack) && |s.stack| < |P.order|
    requires c < |P.Candidates(|s.stack|)| && Usable(P, |s.stack|, c, s.mapping)
    requires P.order[|s.stack|] !in s.mapping
    ensures var i, s' := |s.stack|, Push(P, s, c);
            && ValidStack(P, s'.stack) && |s'.stack| == i + 1
            && Or(Search(P, i + 1, s'.mapping), Backup(P, s'.stack, s'.mapping))
               == Or(SearchFrom(P, i, c, s.mapping), Backup(P, s.stack, s.mapping))
            && Cost(P, i + 1, s'.mapping) + BackupCost(P, s'.stack, s'.mapping)
               == CostFrom(P, i, c, s.mapping) + BackupCost(P, s.stack, s.mapping)
  {
    var x := P.order[|s.stack|];
    var s' := Push(P, s, c);
    assert s'.mapping - {x} == s.mapping;
    assert s'.stack[..|s.stack|] == s.stack;
  }

  /** Backing up over one agent resumes its candidates, then backs up further. */
  lemma PopAnswer(P: Problem, s: State)
    requires P.Searchable() && ValidStack(P, s.stack) && s.stack != [] && P.order[|s.stack| - 1] in s.mapping
    ensures var i, r := |s.stack| - 1, Pop(P, s);
      && |r.stack| == i && ValidStack(P, r.stack)
      && Backup(P, s.stack, s.mapping) == Or(SearchFrom(P, i, s.stack[i], r.mapping), Backup(P, r.stack, r.mapping))
      && BackupCost(P, s.stack, s.mapping) == 1 + CostFrom(P, i, s.stack[i], r.mapping) + BackupCost(P, r.stack, r.mapping)
  {}

  lemma NoCandidate(P: Problem, i: nat, m: Mapping)
    requires P.Searchable() && i < |P.order|
    ensures SearchFrom(P, i, |P.Candidates(i)|, m) == None && CostFrom(P, i, |P.Candidates(i)|, m) == 0
  {}

  lemma EmptyAnswer(P: Problem, m: Mapping)
    requires P.Searchable()
    ensures Backup(P, [], m) == None
  {}

  /** The search loop over an explicit stack of next-candidate positions. It ends
      on every input, returns what the recursive search returns, and leaves two
      mutually inverse maps. The branch for a symbol without a group is dead. */
  method Backtrack(P: Problem) returns (found: bool, mapping: Mapping, reverse: Mapping)
    requires P.Searchable() && Distinct(P.order)
    ensures Search(P, 0, map[]) == if found then Some(mapping) else None
    ensures Inverse(mapping, reverse)
  {
    var s := State([], map[], map[]);
    while true
      invariant Valid(P, s)
      invariant Search(P, 0, map[]) == Or(Search(P, |s.stack|, s.mapping), Backup(P, s.stack, s.mapping))
      decreases Cost(P, |s.stack|, s.mapping) + BackupCost(P, s.stack, s.mapping)
    {
      var index := |s.stack|;
      if index == |P.order| { return true, s.mapping, s.reverse; }
      if P.a.agents[P.order[index]] !in P.groups { assert false; }
      FreshAgent(P, s);
      var c := FirstCandidate(P, index, 0, s.mapping, s.reverse);
      if c < |P.Candidates(index)| {
        PushValid(P, s, c);
        PushAnswer(P, s, c);
        s := Push(P, s, c);
      } else {
        ghost var budget := Cost(P, index, s.mapping) + BackupCost(P, s.stack, s.mapping);
        var more;
        s, more := BackUp(P, s, budget);
        if !more { return false, s.mapping, s.reverse; }
      }
    }
  }

  /** Pops agents until one of them has another usable candidate. */
  method BackUp(P: Problem, start: State, ghost budget: nat) returns (s: State, more: bool)
    requires P.Searchable() && Distinct(P.order) && Valid(P, start)
    requires BackupCost(P, start.stack, start.mapping) < budget
    ensures Valid(P, s)
    ensures more ==>
      && Or(Search(P, |s.stack|, s.mapping), Backup(P, s.stack, s.mapping)) == Backup(P, start.stack, start.mapping)
      && Cost(P, |s.stack|, s.mapping) + BackupCost(P, s.stack, s.mapping) < budget
    ensures !more ==> Backup(P, start.stack, start.mapping) == None
  {
    hide Search, SearchFrom, Cost, CostFrom, Backup, BackupCost, Usable, Push, Covers, Inverse, Distinct;
    s := start;
    while s.stack != []
      invariant Valid(P, s)
      invariant Backup(P, s.stack, s.mapping) == Backup(P, start.stack, start.mapping)
      invariant BackupCost(P, s.stack, s.mapping) < budget
      decreases |s.stack|
    {
      PopValid(P, s);
      PopAnswer(P, s);
      var from := s.stack[|s.stack| - 1];
      s := Pop(P, s);
      var index := |s.stack|;
      FreshAgent(P, s);
      var c := FirstCandidate(P, index, from, s.mapping, s.reverse);
      if c < |P.Candidates(index)| {
        PushValid(P, s, c);
        PushAnswer(P, s, c);
        s := Push(P, s, c);
        return s, true;
      }
      NoCandidate(P, index, s.mapping);
    }
    EmptyAnswer(P, s.mapping);
    return s, false;
  }
}

/** Net isomorphism and the two checkers built on the search. */
module NetIsomorphism {
  import opened Nets
  import opened Ordering
  import opened Backtracking

  ghost predicate Injective<X(!new), Y>(f: map<X, Y>) {
    forall x, y :: x in f && y in f && f[x] == f[y] ==> x == y
  }

  /** A bijection between the live agents that keeps their symbols. */
  ghost predicate AgentBijection(a: Net, b: Net, f: Mapping) {
    && f.Keys == a.agents.Keys && f.Values == b.agents.Keys && Injective(f)
    && forall x :: x in f ==> f[x] in b.agents && b.agents[f[x]] == a.agents[x]
  }

  function MapPort(f: Mapping, p: PortRef): PortRef {
    if p.AgentPort? && p.id in f then AgentPort(f[p.id], p.port) else p
  }

  /** `f` renames the agents of `a` into `b` and keeps every wire and every
      interface name. */
  ghost predicate Isomorphism(a: Net, b: Net, f: Mapping) {
    && AgentBijection(a, b, f)
    && forall p :: a.IsPort(p) ==> b.Target(MapPort(f, p)) == MapPort(f, a.Target(p))
  }

  ghost predicate Isomorphic(a: Net, b: Net) {
    exists f :: Isomorphism(a, b, f)
  }

  /** Every agent keeps its id. */
  ghost function Identity(n: Net): Mapping {
    map x | x in n.agents :: x
  }

  lemma IdentityBijection(n: Net)
    ensures AgentBijection(n, n, Identity(n))
  {
    var f := Identity(n);
    assert f.Keys == n.agents.Keys;
    forall y ensures y in f.Values <==> y in n.agents {
      if y in n.agents { assert f[y] == y; }
    }
  }

  // ---------------------------------------------------------------- the search is sound

  /** The wires of the mapped agents agree as far as both ends are mapped. */
  ghost predicate Respects(P: Problem, m: Mapping) {
    forall p :: P.a.IsPort(p) && p.id in m ==>
      EndAgrees(m, P.a.Target(p), P.b.Target(AgentPort(m[p.id], p.port)), P.strict)
  }

  ghost predicate Partial(P: Problem, i: nat, m: Mapping) {
    && i <= |P.order| && Covers(P, i, m) && Injective(m) && Respects(P, m)
    && forall x :: x in m ==> x in P.a.agents && m[x] in P.b.agents && P.b.agents[m[x]] == P.a.agents[x]
  }

  /** The two nets are well formed, the order lists the agents of `a` once, and
      each group lists the agents of `b` with its symbol. */
  ghost predicate Ready(P: Problem) {
    && P.a.WellFormed() && P.b.WellFormed() && P.Searchable() && Distinct(P.order)
    && (forall x :: x in P.order <==> x in P.a.agents)
    && forall s, y :: s in P.groups ==> (y in P.groups[s] <==> y in P.b.agents && P.b.agents[y] == s)
  }

  /** A candidate that passes the one-directional check may be added: a wire from
      an agent mapped earlier was left open then, and is pinned now because the
      other end of the same wire is checked. */
  lemma ExtendRespects(P: Problem, i: nat, c: nat, m: Mapping)
    requires Ready(P) && i < |P.order| && Partial(P, i, m)
    requires c < |P.Candidates(i)| && Usable(P, i, c, m)
    ensures Respects(P, m[P.order[i] := P.Candidates(i)[c]])
  {
    var x, y := P.order[i], P.Candidates(i)[c];
    var m' := m[x := y];
    forall p | P.a.IsPort(p) && p.id in m'
      ensures EndAgrees(m', P.a.Target(p), P.b.Target(AgentPort(m'[p.id], p.port)), P.strict)
    {
      if p.id != x && P.a.Target(p).AgentPort? && P.a.Target(p).id == x {
        var q := P.a.Target(p);
        assert EndAgrees(m', P.a.Target(AgentPort(x, q.port)), P.b.Target(AgentPort(y, q.port)), P.strict);
        assert P.a.Target(q) == p;
        assert P.b.IsPort(AgentPort(y, q.port));
      } else if p.id == x {
        assert p == AgentPort(x, p.port);
      }
    }
  }

  lemma Extend(P: Problem, i: nat, c: nat, m: Mapping)
    requires Ready(P) && i < |P.order| && Partial(P, i, m)
    requires c < |P.Candidates(i)| && Usable(P, i, c, m)
    ensures Partial(P, i + 1, m[P.order[i] := P.Candidates(i)[c]])
  {
    ExtendRespects(P, i, c, m);
    assert P.order[..i + 1] == P.order[..i] + [P.order[i]];
    assert P.order[i] in P.order && P.Candidates(i)[c] in P.groups[P.a.agents[P.order[i]]];
    assert forall x :: x in m ==> m[x] in m.Values;
  }

  lemma {:induction false} SearchSound(P: Problem, i: nat, m: Mapping)
    requires Ready(P) && Partial(P, i, m)
    ensures Search(P, i, m).Some? ==> Partial(P, |P.order|, Search(P, i, m).value)
    decreases |P.order| - i, 1, 0
  {
    if i < |P.order| { SearchFromSound(P, i, 0, m); }
  }

  lemma {:induction false} SearchFromSound(P: Problem, i: nat, c: nat, m: Mapping)
    requires Ready(P) && Partial(P, i, m) && i < |P.order| && c <= |P.Candidates(i)|
    ensures SearchFrom(P, i, c, m).Some? ==> Partial(P, |P.order|, SearchFrom(P, i, c, m).value)
    decreases |P.order| - i, 0, |P.Candidates(i)| - c
  {
    if c < |P.Candidates(i)| {
      SearchFromSound(P, i, c + 1, m);
      if Usable(P, i, c, m) {
        Extend(P, i, c, m);
        SearchSound(P, i + 1, m[P.order[i] := P.Candidates(i)[c]]);
      }
    }
  }

  // ------------------------------------------------------------- the search is complete

  /** The map `g` agrees with `m` on everything that `m` maps. */
  ghost predicate Extends(g: Mapping, m: Mapping) {
    forall x :: x in m ==> x in g && g[x] == m[x]
  }

  /** Pruning discards nothing: the candidate a full solution picks is usable. */
  lemma SolutionUsable(P: Problem, i: nat, c: nat, m: Mapping, g: Mapping)
    requires Ready(P) && i < |P.order| && Partial(P, i, m) && Partial(P, |P.order|, g) && Extends(g, m)
    requires P.order[i] in g && c < |P.Candidates(i)| && P.Candidates(i)[c] == g[P.order[i]]
    ensures Usable(P, i, c, m)
  {
    var x, y := P.order[i], g[P.order[i]];
    assert x !in m && y !in m.Values;
    forall p | 0 <= p < TotalPorts(P.a.agents[x])
      ensures EndAgrees(m[x := y], P.a.Target(AgentPort(x, p)), P.b.Target(AgentPort(y, p)), P.strict)
    {
      assert P.a.IsPort(AgentPort(x, p));
    }
  }

  lemma SolutionExtends(P: Problem, i: nat, c: nat, m: Mapping, g: Mapping)
    requires Ready(P) && i < |P.order| && Partial(P, i, m) && Partial(P, |P.order|, g) && Extends(g, m)
    requires P.order[i] in g && c < |P.Candidates(i)| && P.Candidates(i)[c] == g[P.order[i]]
    ensures Usable(P, i, c, m)
    ensures var m' := m[P.order[i] := P.Candidates(i)[c]]; Partial(P, i + 1, m') && Extends(g, m')
  {
    SolutionUsable(P, i, c, m, g);
    Extend(P, i, c, m);
  }

  lemma {:induction false} SearchComplete(P: Problem, i: nat, m: Mapping, g: Mapping)
    requires Ready(P) && Partial(P, i, m) && Partial(P, |P.order|, g) && Extends(g, m)
    ensures Search(P, i, m).Some?
    decreases |P.order| - i, 1, 0
  {
    if i < |P.order| {
      var x := P.order[i];
      assert x in P.order[..|P.order|];
      assert g[x] in P.groups[P.a.agents[x]];
      var k :| 0 <= k < |P.Candidates(i)| && P.Candidates(i)[k] == g[x];
      SearchFromComplete(P, i, 0, k, m, g);
    }
  }

  lemma {:induction false} SearchFromComplete(P: Problem, i: nat, c: nat, k: nat, m: Mapping, g: Mapping)
    requires Ready(P) && Partial(P, i, m) && Partial(P, |P.order|, g) && Extends(g, m) && i < |P.order|
    requires P.order[i] in g && c <= k < |P.Candidates(i)| && P.Candidates(i)[k] == g[P.order[i]]
    ensures SearchFrom(P, i, c, m).Some?
    decreases |P.order| - i, 0, |P.Candidates(i)| - c
  {
    hide Partial, Usable;
    if c < k {
      SearchFromComplete(P, i, c + 1, k, m, g);
    } else {
      SolutionExtends(P, i, c, m, g);
      SearchComplete(P, i + 1, m[P.order[i] := P.Candidates(i)[c]], g);
    }
  }

  // -------------------------------------------------------------------- counting agents

  lemma {:induction false} InjectiveSize(f: Mapping)
    requires Injective(f)
    ensures |f.Values| == |f.Keys|
  {
    if f.Keys == {} {
      assert f.Values == {};
    } else {
      var x :| x in f;
      var g := f - {x};
      forall y ensures y in g.Values <==> y in f.Values - {f[x]} {
        if y in f.Values && y != f[x] {
          var z :| z in f && f[z] == y;
          assert z in g && g[z] == y;
        }
      }
      assert g.Values == f.Values - {f[x]};
      assert g.Keys == f.Keys - {x};
      InjectiveSize(g);
    }
  }

  lemma SubsetOfEqualSize(s: set<AgentId>, t: set<AgentId>)
    requires s <= t && |s| == |t|
    ensures s == t
  {
    assert |t| == |s| + |t - s|;
  }

  ghost function OnSymbol(a: Net, f: Mapping, s: Symbol): Mapping {
    map x | x in f && x in a.agents && a.agents[x] == s :: f[x]
  }

  /** Equal counts per symbol make an injection of agents a bijection. */
  lemma CountsGiveBijection(a: Net, b: Net, f: Mapping)
    requires f.Keys == a.agents.Keys && Injective(f)
    requires forall x :: x in f ==> f[x] in b.agents && b.agents[f[x]] == a.agents[x]
    requires forall s :: |a.AgentsOf(s)| == |b.AgentsOf(s)|
    ensures AgentBijection(a, b, f)
  {
    forall y | y in b.agents ensures y in f.Values {
      var s := b.agents[y];
      var g := OnSymbol(a, f, s);
      InjectiveSize(g);
      assert g.Keys == a.AgentsOf(s);
      assert g.Values <= b.AgentsOf(s);
      SubsetOfEqualSize(g.Values, b.AgentsOf(s));
      assert y in g.Values;
    }
  }

  lemma BijectionGivesCounts(a: Net, b: Net, f: Mapping, s: Symbol)
    requires AgentBijection(a, b, f)
    ensures |a.AgentsOf(s)| == |b.AgentsOf(s)|
  {
    var g := OnSymbol(a, f, s);
    InjectiveSize(g);
    assert g.Keys == a.AgentsOf(s);
    assert g.Values == b.AgentsOf(s) by {
      forall y | y in b.AgentsOf(s) ensures y in g.Values {
        assert y in f.Values;
        var x :| x in f && f[x] == y;
        assert x in g;
      }
    }
  }

  ghost function Below(n: Net, s: Symbol, upTo: nat): set<AgentId> {
    set id | id in n.agents && n.agents[id] == s && id < upTo
  }

  ghost predicate Counts(n: Net, upTo: nat, counts: map<Symbol, nat>) {
    && (forall s :: s in counts <==> Below(n, s, upTo) != {})
    && (forall s :: s in counts ==> counts[s] == |Below(n, s, upTo)|)
  }

  lemma BelowStep(n: Net, s: Symbol, id: nat)
    ensures if id in n.agents && n.agents[id] == s
            then Below(n, s, id + 1) == Below(n, s, id) + {id} && |Below(n, s, id + 1)| == |Below(n, s, id)| + 1
            else Below(n, s, id + 1) == Below(n, s, id)
  {
    if id in n.agents && n.agents[id] == s {
      assert Below(n, s, id + 1) == Below(n, s, id) + {id};
    } else {
      assert Below(n, s, id + 1) == Below(n, s, id);
    }
  }

  lemma CountStep(n: Net, id: nat, counts: map<Symbol, nat>)
    requires Counts(n, id, counts)
    ensures id !in n.agents ==> Counts(n, id + 1, counts)
    ensures id in n.agents ==>
      var s := n.agents[id]; Counts(n, id + 1, counts[s := if s in counts then counts[s] + 1 else 1])
  {
    hide Below;
    forall s ensures if id in n.agents && n.agents[id] == s
                     then Below(n, s, id + 1) != {} && |Below(n, s, id + 1)| == |Below(n, s, id)| + 1
                     else Below(n, s, id + 1) == Below(n, s, id)
    {
      BelowStep(n, s, id);
      assert id in Below(n, s, id) + {id};
    }
  }

  /** One walk over the arena, counting the live agents of each symbol. */
  method CountAgents(n: Net) returns (counts: map<Symbol, nat>)
    requires n.WellFormed()
    ensures forall s :: s in counts <==> n.AgentsOf(s) != {}
    ensures forall s :: s in counts ==> counts[s] == |n.AgentsOf(s)|
  {
    counts := map[];
    for id := 0 to n.arena
      invariant Counts(n, id, counts)
    {
      CountStep(n, id, counts);
      if id in n.agents {
        var s := n.agents[id];
        counts := counts[s := if s in counts then counts[s] + 1 else 1];
      }
    }
    assert forall s :: Below(n, s, n.arena) == n.AgentsOf(s);
  }

  /** The live agents with symbol `s`, in arena order. */
  function Members(n: Net, s: Symbol, upTo: nat): (r: seq<AgentId>)
    ensures forall y :: y in r <==> y in n.agents && n.agents[y] == s && y < upTo
  {
    if upTo == 0 then []
    else if upTo - 1 in n.agents && n.agents[upTo - 1] == s then Members(n, s, upTo - 1) + [upTo - 1]
    else Members(n, s, upTo - 1)
  }

  function Groups(n: Net, upTo: nat): map<Symbol, seq<AgentId>> {
    map s: Symbol | Members(n, s, upTo) != [] :: Members(n, s, upTo)
  }

  /** One walk over the arena, collecting the live agents of each symbol. */
  method GroupAgents(n: Net) returns (groups: map<Symbol, seq<AgentId>>)
    ensures groups == Groups(n, n.arena)
  {
    groups := map[];
    for id := 0 to n.arena
      invariant forall s :: s in groups <==> Members(n, s, id) != []
      invariant forall s :: s in groups ==> groups[s] == Members(n, s, id)
    {
      if id in n.agents {
        var s := n.agents[id];
        groups := groups[s := (if s in groups then groups[s] else []) + [id]];
      }
    }
  }

  function Key(a: Net, groups: map<Symbol, seq<AgentId>>): nat -> int {
    (id: nat) => if id in a.agents && a.agents[id] in groups then |groups[a.agents[id]]| else 0
  }

  /** The search that both checkers set up: fewest candidates first. */
  function Setup(a: Net, b: Net, strict: bool): Problem {
    var groups := Groups(b, b.arena);
    Problem(a, b, SortBy(Key(a, groups), LiveIds(a, a.arena)), groups, strict)
  }

  lemma SetupReady(a: Net, b: Net, strict: bool)
    requires a.WellFormed() && b.WellFormed()
    requires forall s :: |a.AgentsOf(s)| == |b.AgentsOf(s)|
    ensures Ready(Setup(a, b, strict))
  {
    var P := Setup(a, b, strict);
    forall i | 0 <= i < |P.order| ensures P.order[i] in a.agents && a.agents[P.order[i]] in P.groups {
      assert P.order[i] in P.order;
      var s := a.agents[P.order[i]];
      assert P.order[i] in a.AgentsOf(s);
      assert b.AgentsOf(s) != {};
      var y :| y in b.AgentsOf(s);
      assert y in Members(b, s, b.arena);
    }
  }

  /** A full solution of the search is an injection that keeps symbols. */
  lemma FullIsBijection(P: Problem, f: Mapping)
    requires Ready(P) && Partial(P, |P.order|, f)
    requires forall s :: |P.a.AgentsOf(s)| == |P.b.AgentsOf(s)|
    ensures AgentBijection(P.a, P.b, f)
  {
    assert P.order[..|P.order|] == P.order;
    assert f.Keys == P.a.agents.Keys;
    CountsGiveBijection(P.a, P.b, f);
  }

  lemma BijectionIsFull(P: Problem, f: Mapping)
    requires Ready(P) && AgentBijection(P.a, P.b, f) && Respects(P, f)
    ensures Partial(P, |P.order|, f)
  {
    assert P.order[..|P.order|] == P.order;
  }

  lemma {:induction false} SearchDecides(P: Problem)
    requires Ready(P) && forall s :: |P.a.AgentsOf(s)| == |P.b.AgentsOf(s)|
    ensures Search(P, 0, map[]).Some? ==>
              AgentBijection(P.a, P.b, Search(P, 0, map[]).value) && Respects(P, Search(P, 0, map[]).value)
    ensures (exists f :: AgentBijection(P.a, P.b, f) && Respects(P, f)) ==> Search(P, 0, map[]).Some?
  {
    SearchSound(P, 0, map[]);
    if Search(P, 0, map[]).Some? { FullIsBijection(P, Search(P, 0, map[]).value); }
    if f :| AgentBijection(P.a, P.b, f) && Respects(P, f) {
      BijectionIsFull(P, f);
      SearchComplete(P, 0, map[], f);
    }
  }

  /** With every agent mapped, the deferred checks amount to the isomorphism. */
  lemma StrictRespects(a: Net, b: Net, f: Mapping)
    requires a.WellFormed() && AgentBijection(a, b, f)
    ensures Respects(Setup(a, b, true), f) <==> Isomorphism(a, b, f)
  {
    forall p | a.IsPort(p)
      ensures EndAgrees(f, a.Target(p), b.Target(AgentPort(f[p.id], p.port)), true)
              <==> b.Target(MapPort(f, p)) == MapPort(f, a.Target(p))
    {
      if a.Target(p).AgentPort? { assert a.Target(p).id in f; }
    }
  }

  /** Decides isomorphism of any two well-formed nets, in both directions. */
  method NetsIsomorphic(a: Net, b: Net) returns (r: bool)
    requires a.WellFormed() && b.WellFormed()
    ensures r <==> Isomorphic(a, b)
  {
    var countsA := CountAgents(a);
    var countsB := CountAgents(b);
    if countsA != countsB {
      RejectCounts(a, b, countsA, countsB);
      return false;
    }
    EqualCounts(a, b, countsA);
    if countsA == map[] {
      EmptyNets(a, b);
      return true;
    }
    var groups := GroupAgents(b);
    var P := Problem(a, b, SortBy(Key(a, groups), LiveIds(a, a.arena)), groups, true);
    SetupReady(a, b, true);
    var mapping, reverse;
    r, mapping, reverse := Backtrack(P);
    SearchDecides(P);
    StrictAnswer(a, b, r);
  }

  lemma RejectCounts(a: Net, b: Net, countsA: map<Symbol, nat>, countsB: map<Symbol, nat>)
    requires forall s :: s in countsA <==> a.AgentsOf(s) != {}
    requires forall s :: s in countsB <==> b.AgentsOf(s) != {}
    requires forall s :: s in countsA ==> countsA[s] == |a.AgentsOf(s)|
    requires forall s :: s in countsB ==> countsB[s] == |b.AgentsOf(s)|
    requires countsA != countsB
    ensures forall f :: !AgentBijection(a, b, f)
  {
    forall f ensures !AgentBijection(a, b, f) {
      if AgentBijection(a, b, f) {
        forall s ensures |a.AgentsOf(s)| == |b.AgentsOf(s)| { BijectionGivesCounts(a, b, f, s); }
        assert forall s :: a.AgentsOf(s) == {} <==> b.AgentsOf(s) == {};
      }
    }
  }

  lemma EqualCounts(a: Net, b: Net, counts: map<Symbol, nat>)
    requires forall s :: s in counts <==> a.AgentsOf(s) != {}
    requires forall s :: s in counts <==> b.AgentsOf(s) != {}
    requires forall s :: s in counts ==> counts[s] == |a.AgentsOf(s)| == |b.AgentsOf(s)|
    ensures forall s :: |a.AgentsOf(s)| == |b.AgentsOf(s)|
  {}

  lemma EmptyNets(a: Net, b: Net)
    requires forall s :: a.AgentsOf(s) == {} && b.AgentsOf(s) == {}
    ensures Isomorphism(a, b, map[])
  {
    assert forall x :: x in a.agents ==> x in a.AgentsOf(a.agents[x]);
    assert forall x :: x in b.agents ==> x in b.AgentsOf(b.agents[x]);
    var f: Mapping := map[];
    assert f.Values == {};
  }

  lemma StrictAnswer(a: Net, b: Net, r: bool)
    requires a.WellFormed() && b.WellFormed() && Setup(a, b, true).Searchable()
    requires var P, res := Setup(a, b, true), Search(Setup(a, b, true), 0, map[]);
      && r == res.Some?
      && (r ==> AgentBijection(a, b, res.value) && Respects(P, res.value))
      && ((exists f :: AgentBijection(a, b, f) && Respects(P, f)) ==> r)
    ensures r <==> Isomorphic(a, b)
  {
    if r { StrictRespects(a, b, Search(Setup(a, b, true), 0, map[]).value); }
    if f :| Isomorphism(a, b, f) { StrictRespects(a, b, f); }
  }
}
