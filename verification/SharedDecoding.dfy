/** Reading numbers back from nets that still share through duplicators. */
module SharedDecoding {
  import opened Nets
  import opened Building
  import opened Readback
  import opened Decoding

  const BOUND: nat := 1000

  predicate AtAux(p: PortRef) {
    p.AgentPort? && (p.port == 1 || p.port == 2)
  }

  /** Passes through duplicators from an auxiliary to the principal side, at most `fuel` looks. */
  function Follow(n: Net, p: PortRef, fuel: nat): Option<PortRef>
    decreases fuel
  {
    if fuel == 0 then None
    else if !AtAux(p) then Some(p)
    else if p.id !in n.agents then None
    else if n.agents[p.id] == Dup then Follow(n, n.Target(P(p.id, 0)), fuel - 1)
    else Some(p)
  }

  method FollowThroughDupAux(n: Net, start: PortRef) returns (r: Option<PortRef>)
    ensures r == Follow(n, start, BOUND)
  {
    var current := start;
    for i := 0 to BOUND
      invariant Follow(n, start, BOUND) == Follow(n, current, BOUND - i)
    {
      if AtAux(current) {
        if current.id !in n.agents { return None; }
        if n.agents[current.id] == Dup {
          current := n.Target(P(current.id, 0));
        } else {
          return Some(current);
        }
      } else {
        return Some(current);
      }
    }
    r := None;
  }

  /** Following copies from the body of `x` never ends behind an argument port. */
  lemma {:induction false} FollowEntry(n: Net, x: AgentId, p: PortRef, fuel: nat)
    requires n.WellFormed() && Entry(n, x, p) && Follow(n, p, fuel).Some?
    ensures Entry(n, x, Follow(n, p, fuel).value)
    decreases fuel
  {
    if AtAux(p) && p.id in n.agents && n.agents[p.id] == Dup {
      var q := n.Target(P(p.id, 0));
      assert n.IsPort(P(p.id, 0));
      assert Entry(n, x, q);
      FollowEntry(n, x, q, fuel - 1);
    }
  }

  // ------------------------------------------------------------- the boundary

  datatype BranchEnd = XVariable | DupPrincipal(id: AgentId) | Other

  /** What one branch of a duplicator leads to. */
  function Classify(n: Net, p: PortRef, x: AgentId): Option<BranchEnd> {
    if p == P(x, 1) then Some(XVariable)
    else if p.FreePort? then Some(Other)
    else if p.id !in n.agents then None
    else if n.agents[p.id] == Dup && (p.port == 1 || p.port == 2) then
      var t := n.Target(P(p.id, 0));
      if t == P(x, 1) then Some(XVariable)
      else if t.AgentPort? && t.port == 0 then
        (if t.id !in n.agents then None
         else if n.agents[t.id] == Dup then Some(DupPrincipal(t.id)) else Some(Other))
      else Some(Other)
    else if n.agents[p.id] == Dup && p.port == 0 then Some(DupPrincipal(p.id))
    else Some(Other)
  }

  /** The number of duplicators from here to the variable, on top of `m`. */
  function Multiplier(n: Net, dup: AgentId, x: AgentId, m: nat, fuel: nat): Option<nat>
    decreases fuel
  {
    if fuel == 0 then None
    else
      var c1, c2 := Classify(n, n.Target(P(dup, 1)), x), Classify(n, n.Target(P(dup, 2)), x);
      if c1.None? || c2.None? then None
      else if c1.value.XVariable? || c2.value.XVariable? then Some(m)
      else if c1.value.DupPrincipal? then Multiplier(n, c1.value.id, x, m + 1, fuel - 1)
      else if c2.value.DupPrincipal? then Multiplier(n, c2.value.id, x, m + 1, fuel - 1)
      else None
  }

  // The boundary, on wires and agents alone.

  /** Entered at `t`, the net leads to `u`: straight on, or through one duplicator from an
      auxiliary to the principal port. */
  predicate LeadsTo(n: Net, t: PortRef, u: PortRef) {
    t == u || (AtAux(t) && Has(n, t.id, Dup) && n.Target(P(t.id, 0)) == u)
  }

  /** The agent that decides about `t` is there. */
  predicate Answered(n: Net, x: AgentId, t: PortRef) {
    t.FreePort? || t == P(x, 1) ||
    (t.id in n.agents
     && (AtAux(t) && Has(n, t.id, Dup) ==>
           var u := n.Target(P(t.id, 0)); u.AgentPort? && u.port == 0 ==> u.id in n.agents))
  }

  /** The two branches of a duplicator. */
  function Branch(n: Net, d: AgentId, second: bool): PortRef {
    n.Target(P(d, if second then 2 else 1))
  }

  /** A branch of `d` is the variable of `x`. */
  predicate Touches(n: Net, d: AgentId, x: AgentId) {
    LeadsTo(n, Branch(n, d, false), P(x, 1)) || LeadsTo(n, Branch(n, d, true), P(x, 1))
  }

  /** `t` leads to the duplicator `e` from its principal side. */
  predicate Enters(n: Net, t: PortRef, e: AgentId) {
    LeadsTo(n, t, P(e, 0)) && Has(n, e, Dup)
  }

  /** From `d` the boundary goes on to `e`: along the first branch if it leads to any
      duplicator, else along the second. */
  ghost predicate GoesTo(n: Net, d: AgentId, e: AgentId) {
    || Enters(n, Branch(n, d, false), e)
    || ((forall g: AgentId :: !Enters(n, Branch(n, d, false), g)) && Enters(n, Branch(n, d, true), e))
  }

  /** The duplicators of the boundary: only the last one has a branch at the variable. */
  ghost predicate Boundary(n: Net, x: AgentId, ds: seq<AgentId>) {
    && ds != []
    && (forall i :: 0 <= i < |ds| ==> Answered(n, x, Branch(n, ds[i], false)) && Answered(n, x, Branch(n, ds[i], true)))
    && (forall i :: 0 <= i < |ds| - 1 ==> !Touches(n, ds[i], x) && GoesTo(n, ds[i], ds[i + 1]))
    && Touches(n, ds[|ds| - 1], x)
  }

  /** What a branch is, in those terms. */
  lemma ClassifyExact(n: Net, t: PortRef, x: AgentId)
    ensures Classify(n, t, x).Some? <==> Answered(n, x, t)
    ensures Classify(n, t, x) == Some(XVariable) <==> LeadsTo(n, t, P(x, 1)) && Answered(n, x, t)
    ensures forall e: AgentId :: Classify(n, t, x) == Some(DupPrincipal(e)) <==>
      Enters(n, t, e) && !LeadsTo(n, t, P(x, 1)) && Answered(n, x, t)
  {}

  lemma BoundaryMore(n: Net, x: AgentId, d: AgentId, ds: seq<AgentId>)
    requires Boundary(n, x, ds) && GoesTo(n, d, ds[0]) && !Touches(n, d, x)
    requires Answered(n, x, Branch(n, d, false)) && Answered(n, x, Branch(n, d, true))
    ensures Boundary(n, x, [d] + ds)
  {
    hide Answered, Touches, GoesTo, Branch;
  }

  lemma BoundaryRest(n: Net, x: AgentId, ds: seq<AgentId>)
    requires Boundary(n, x, ds)
    ensures Answered(n, x, Branch(n, ds[0], false)) && Answered(n, x, Branch(n, ds[0], true))
    ensures |ds| == 1 ==> Touches(n, ds[0], x)
    ensures |ds| > 1 ==> !Touches(n, ds[0], x) && GoesTo(n, ds[0], ds[1]) && Boundary(n, x, ds[1..])
  {
    hide Answered, Touches, GoesTo, Branch;
  }

  /** One turn of the loop, in those terms. */
  lemma TurnExact(n: Net, d: AgentId, x: AgentId, e: AgentId)
    ensures var c1, c2 := Classify(n, Branch(n, d, false), x), Classify(n, Branch(n, d, true), x);
      && (c1.Some? && c2.Some? <==> Answered(n, x, Branch(n, d, false)) && Answered(n, x, Branch(n, d, true)))
      && (c1.Some? && c2.Some? ==>
            && (c1.value.XVariable? || c2.value.XVariable? <==> Touches(n, d, x))
            && (!Touches(n, d, x) ==>
                  (GoesTo(n, d, e) <==> c1.value == DupPrincipal(e) || (!c1.value.DupPrincipal? && c2.value == DupPrincipal(e)))))
  {
    hide Classify, LeadsTo, Answered;
    ClassifyExact(n, Branch(n, d, false), x);
    ClassifyExact(n, Branch(n, d, true), x);
  }

  /** The count is `m` plus the duplicators passed: exactly the boundary paths are counted. */
  lemma {:induction false} BoundaryCounted(n: Net, d: AgentId, x: AgentId, m: nat, fuel: nat, ds: seq<AgentId>)
    requires Boundary(n, x, ds) && ds != [] && ds[0] == d
    ensures |ds| <= fuel ==> Multiplier(n, d, x, m, fuel).Some? && Multiplier(n, d, x, m, fuel).value == m + |ds| - 1
    ensures |ds| > fuel ==> Multiplier(n, d, x, m, fuel).None?
    decreases fuel
  {
    hide Classify, Boundary, Touches, GoesTo, Answered;
    if fuel > 0 {
      var c1, c2 := Classify(n, Branch(n, d, false), x), Classify(n, Branch(n, d, true), x);
      BoundaryRest(n, x, ds);
      if |ds| > 1 {
        TurnExact(n, d, x, ds[1]);
        BoundaryCounted(n, ds[1], x, m + 1, fuel - 1, ds[1..]);
      } else {
        TurnExact(n, d, x, d);
      }
    }
  }

  lemma {:induction false} CountedBoundary(n: Net, d: AgentId, x: AgentId, m: nat, fuel: nat) returns (ds: seq<AgentId>)
    requires Multiplier(n, d, x, m, fuel).Some?
    ensures Boundary(n, x, ds) && ds != [] && ds[0] == d && |ds| <= fuel
    decreases fuel
  {
    hide Classify, Touches, GoesTo, Answered;
    var c1, c2 := Classify(n, Branch(n, d, false), x), Classify(n, Branch(n, d, true), x);
    TurnExact(n, d, x, d);
    if Touches(n, d, x) {
      ds := [d];
    } else {
      var e := if c1.value.DupPrincipal? then c1.value.id else c2.value.id;
      TurnExact(n, d, x, e);
      var rest := CountedBoundary(n, e, x, m + 1, fuel - 1);
      BoundaryMore(n, x, d, rest);
      ds := [d] + rest;
    }
  }

  /** A boundary of at most 1000 duplicators from `d`, and `k` one more than its length. */
  ghost predicate Multiplies(n: Net, d: AgentId, x: AgentId, k: nat) {
    exists ds :: Boundary(n, x, ds) && ds != [] && ds[0] == d && |ds| <= 1000 && k == |ds| + 1
  }

  /** The multiplier is one more than the number of duplicators on the boundary. */
  lemma MultiplierExact(n: Net, d: AgentId, x: AgentId, k: nat)
    ensures Multiplier(n, d, x, 2, BOUND) == Some(k) <==> Multiplies(n, d, x, k)
  {
    hide Boundary, Multiplier;
    if Multiplier(n, d, x, 2, BOUND) == Some(k) {
      var ds := CountedBoundary(n, d, x, 2, BOUND);
      BoundaryCounted(n, d, x, 2, BOUND, ds);
    }
    if Multiplies(n, d, x, k) {
      var ds :| Boundary(n, x, ds) && ds != [] && ds[0] == d && |ds| <= 1000 && k == |ds| + 1;
      BoundaryCounted(n, d, x, 2, BOUND, ds);
    }
  }

  method CountDupBoundaryMultiplier(n: Net, first: AgentId, x: AgentId) returns (r: Option<nat>)
    ensures r == Multiplier(n, first, x, 2, BOUND)
    ensures forall k: nat :: r == Some(k) <==> Multiplies(n, first, x, k)
  {
    hide Classify, Multiplies;
    forall k: nat ensures Multiplier(n, first, x, 2, BOUND) == Some(k) <==> Multiplies(n, first, x, k) {
      MultiplierExact(n, first, x, k);
    }
    var m, current := 2, first;
    for i := 0 to BOUND
      invariant Multiplier(n, first, x, 2, BOUND) == Multiplier(n, current, x, m, BOUND - i)
    {
      var c1 := Classify(n, n.Target(P(current, 1)), x);
      if c1.None? { return None; }
      var c2 := Classify(n, n.Target(P(current, 2)), x);
      if c2.None? { return None; }
      if c1.value.XVariable? || c2.value.XVariable? { return Some(m); }
      if c1.value.DupPrincipal? {
        m, current := m + 1, c1.value.id;
      } else if c2.value.DupPrincipal? {
        m, current := m + 1, c2.value.id;
      } else {
        return None;
      }
    }
    r := None;
  }

  /** At most 1001 from a start of 2. */
  lemma {:induction false} MultiplierBound(n: Net, dup: AgentId, x: AgentId, m: nat, fuel: nat)
    ensures var r := Multiplier(n, dup, x, m, fuel); r.Some? ==> m <= r.value < m + fuel
    decreases fuel
  {
    hide Classify;
    if fuel > 0 {
      var c1, c2 := Classify(n, n.Target(P(dup, 1)), x), Classify(n, n.Target(P(dup, 2)), x);
      if c1.Some? && c1.value.DupPrincipal? { MultiplierBound(n, c1.value.id, x, m + 1, fuel - 1); }
      if c2.Some? && c2.value.DupPrincipal? { MultiplierBound(n, c2.value.id, x, m + 1, fuel - 1); }
    }
  }

  // ----------------------------------------------------------------- the decoder

  predicate AtBoundary(n: Net, p: PortRef) {
    p.AgentPort? && p.port == 0 && Has(n, p.id, Dup)
  }

  /** The number found where the walk of length `len` ends. */
  function Outcome(n: Net, x: AgentId, e: PortRef, len: nat): Option<nat> {
    if e == P(x, 1) then Some(len)
    else if AtBoundary(n, e) then
      var m := Multiplier(n, e.id, x, 2, BOUND);
      if m.None? then None else Some(Scaled(len, m.value))
    else None
  }

  function Scaled(len: nat, m: nat): nat {
    len * m
  }

  /** The whole walk: two lambdas, through copies to the chain, along it to its end. */
  ghost predicate Walk(n: Net, f: AgentId, x: AgentId, start: PortRef, ids: seq<AgentId>) {
    && Lambdas(n, f, x) && Follow(n, n.Target(P(x, 2)), BOUND) == Some(start)
    && Chain(n, x, start, ids) && !GoesOn(n, x, Reached(n, start, ids))
  }

  /** The walk is determined by the net. */
  lemma WalkUnique(n: Net, f: AgentId, x: AgentId, s: PortRef, ids: seq<AgentId>, f': AgentId, x': AgentId, s': PortRef, js: seq<AgentId>)
    requires Walk(n, f, x, s, ids) && Walk(n, f', x', s', js)
    ensures f == f' && x == x' && s == s' && ids == js
  {
    hide Chain, Follow;
    ChainUnique(n, x, s, ids, js);
  }

  ghost predicate SharesTo(n: Net, k: nat) {
    exists f: AgentId, x: AgentId, start: PortRef, ids: seq<AgentId> ::
      Walk(n, f, x, start, ids) && Outcome(n, x, Reached(n, start, ids), |ids|) == Some(k)
  }

  lemma Found(n: Net, f: AgentId, x: AgentId, start: PortRef, ids: seq<AgentId>, r: Option<nat>)
    requires Walk(n, f, x, start, ids) && r == Outcome(n, x, Reached(n, start, ids), |ids|)
    ensures forall k: nat :: r == Some(k) <==> SharesTo(n, k)
  {
    hide Walk, Outcome;
    forall k: nat | SharesTo(n, k) ensures r == Some(k) {
      var f', x', s', js :| Walk(n, f', x', s', js) && Outcome(n, x', Reached(n, s', js), |js|) == Some(k);
      WalkUnique(n, f, x, start, ids, f', x', s', js);
    }
  }

  lemma NotFound(n: Net)
    requires n.root.None? || !n.root.value.AgentPort? || n.root.value.port != 0 || !Has(n, n.root.value.id, Con)
          || (var body := n.Target(P(n.root.value.id, 2));
              body.FreePort? || body.port != 0 || !Has(n, body.id, Con)
              || Follow(n, n.Target(P(body.id, 2)), BOUND).None?)
    ensures forall k: nat :: !SharesTo(n, k)
  {
    hide Follow, Outcome, Chain;
  }

  // The result, without the decoder's own functions.

  /** Where one is after the duplicators `ds`. */
  function Passed(n: Net, p: PortRef, ds: seq<AgentId>): PortRef {
    if ds == [] then p else n.Target(P(ds[|ds| - 1], 0))
  }

  /** From `p` through the duplicators `ds`, each from an auxiliary to the principal side,
      to `q`, which is not at another one. */
  ghost predicate CopyPath(n: Net, p: PortRef, ds: seq<AgentId>, q: PortRef) {
    && (forall i :: 0 <= i < |ds| ==>
          var t := Passed(n, p, ds[..i]); (t == P(ds[i], 1) || t == P(ds[i], 2)) && Has(n, ds[i], Dup))
    && Passed(n, p, ds) == q && (AtAux(q) ==> q.id in n.agents && n.agents[q.id] != Dup)
  }

  lemma PassedMore(n: Net, d: AgentId, j: nat, ds: seq<AgentId>)
    ensures Passed(n, P(d, j), [d] + ds) == Passed(n, n.Target(P(d, 0)), ds)
  {
    if ds != [] { assert ([d] + ds)[|ds|] == ds[|ds| - 1]; }
  }

  lemma CopyPathMore(n: Net, d: AgentId, j: nat, ds: seq<AgentId>, q: PortRef)
    requires Has(n, d, Dup) && 1 <= j <= 2 && CopyPath(n, n.Target(P(d, 0)), ds, q)
    ensures CopyPath(n, P(d, j), [d] + ds, q)
  {
    var p, all := P(d, j), [d] + ds;
    PassedMore(n, d, j, ds);
    forall i | 0 <= i < |all|
      ensures var t := Passed(n, p, all[..i]); (t == P(all[i], 1) || t == P(all[i], 2)) && Has(n, all[i], Dup)
    {
      if i > 0 {
        assert all[..i] == [d] + ds[..i - 1];
        PassedMore(n, d, j, ds[..i - 1]);
        assert all[i] == ds[i - 1];
      }
    }
  }

  lemma CopyPathRest(n: Net, p: PortRef, ds: seq<AgentId>, q: PortRef)
    requires CopyPath(n, p, ds, q)
    ensures ds == [] ==> p == q
    ensures ds != [] ==> AtAux(p) && p.id == ds[0] && Has(n, p.id, Dup) && CopyPath(n, n.Target(P(p.id, 0)), ds[1..], q)
  {
    if ds != [] {
      var rest := ds[1..];
      assert ds[..0] == [] && Passed(n, p, ds[..0]) == p;
      assert ds == [p.id] + rest;
      PassedMore(n, p.id, p.port, rest);
      forall i | 0 <= i < |rest|
        ensures var t := Passed(n, n.Target(P(p.id, 0)), rest[..i]); (t == P(rest[i], 1) || t == P(rest[i], 2)) && Has(n, rest[i], Dup)
      {
        assert ds[..i + 1] == [p.id] + rest[..i];
        PassedMore(n, p.id, p.port, rest[..i]);
        assert rest[i] == ds[i + 1];
      }
    }
  }

  /** Following copies ends where the copy path ends, if that has fewer than `fuel` copies. */
  lemma {:induction false} CopiesFollowed(n: Net, p: PortRef, fuel: nat, ds: seq<AgentId>, q: PortRef)
    requires CopyPath(n, p, ds, q)
    ensures Follow(n, p, fuel) == if |ds| < fuel then Some(q) else None
    decreases fuel
  {
    CopyPathRest(n, p, ds, q);
    if fuel > 0 && ds != [] { CopiesFollowed(n, n.Target(P(p.id, 0)), fuel - 1, ds[1..], q); }
  }

  lemma {:induction false} FollowedCopies(n: Net, p: PortRef, fuel: nat) returns (ds: seq<AgentId>)
    requires Follow(n, p, fuel).Some?
    ensures CopyPath(n, p, ds, Follow(n, p, fuel).value) && |ds| < fuel
    decreases fuel
  {
    if AtAux(p) && n.agents[p.id] == Dup {
      var rest := FollowedCopies(n, n.Target(P(p.id, 0)), fuel - 1);
      CopyPathMore(n, p.id, p.port, rest, Follow(n, p, fuel).value);
      ds := [p.id] + rest;
    } else {
      ds := [];
    }
  }

  /** Two lambdas, fewer than 1000 copies, a chain of applications; then the variable, or a
      boundary of duplicators that multiplies the length of the chain. */
  ghost predicate Shared(n: Net, f: AgentId, x: AgentId, copies: seq<AgentId>, start: PortRef, ids: seq<AgentId>, k: nat) {
    && Lambdas(n, f, x) && CopyPath(n, n.Target(P(x, 2)), copies, start) && |copies| < 1000 && Chain(n, x, start, ids)
    && var e := Reached(n, start, ids);
       || (e == P(x, 1) && k == |ids|)
       || (e != P(x, 1) && AtBoundary(n, e) && exists m: nat :: Multiplies(n, e.id, x, m) && k == |ids| * m)
  }

  /** The decoder accepts exactly these nets, with that number. */
  lemma SharesExactly(n: Net, k: nat)
    ensures SharesTo(n, k) <==>
      exists f: AgentId, x: AgentId, copies: seq<AgentId>, start: PortRef, ids: seq<AgentId> :: Shared(n, f, x, copies, start, ids, k)
  {
    hide CopyPath, Chain, Follow, Multiplier, Multiplies;
    if SharesTo(n, k) {
      var f: AgentId, x: AgentId, start: PortRef, ids: seq<AgentId> :|
        Walk(n, f, x, start, ids) && Outcome(n, x, Reached(n, start, ids), |ids|) == Some(k);
      var copies := FollowedCopies(n, n.Target(P(x, 2)), BOUND);
      var e := Reached(n, start, ids);
      if e != P(x, 1) {
        var m := Multiplier(n, e.id, x, 2, BOUND).value;
        MultiplierExact(n, e.id, x, m);
      }
      assert Shared(n, f, x, copies, start, ids, k);
    }
    if f: AgentId, x: AgentId, copies: seq<AgentId>, start: PortRef, ids: seq<AgentId> :| Shared(n, f, x, copies, start, ids, k) {
      CopiesFollowed(n, n.Target(P(x, 2)), BOUND, copies, start);
      var e := Reached(n, start, ids);
      if e != P(x, 1) {
        var m: nat :| Multiplies(n, e.id, x, m) && k == |ids| * m;
        MultiplierExact(n, e.id, x, m);
      }
      assert Walk(n, f, x, start, ids) && Outcome(n, x, e, |ids|) == Some(k);
    }
  }

  /** decode_shared_chain: its unbounded loop ends on every symmetric net, and what it
      returns is the length of the chain, or that times the boundary multiplier. */
  method DecodeSharedChain(n: Net) returns (r: Option<nat>)
    requires n.WellFormed()
    ensures forall k: nat :: r == Some(k) <==> SharesTo(n, k)
    ensures r.Some? ==> r.value <= Scaled(|n.agents|, 1001)
  {
    hide Net.WellFormed, Chain, Follow, Multiplier, Scaled, SharesTo;
    if n.root.None? || !n.root.value.AgentPort? || n.root.value.port != 0 { NotFound(n); return None; }
    var f := n.root.value.id;
    if !Has(n, f, Con) { NotFound(n); return None; }
    var body := n.Target(P(f, 2));
    if body.FreePort? || body.port != 0 { NotFound(n); return None; }
    var x := body.id;
    if !Has(n, x, Con) { NotFound(n); return None; }
    var start := FollowThroughDupAux(n, n.Target(P(x, 2)));
    if start.None? { NotFound(n); return None; }
    BodyEntry(n, x);
    FollowEntry(n, x, n.Target(P(x, 2)), BOUND);
    var count, current := 0, start.value;
    ghost var ids: seq<AgentId> := [];
    NoSteps(n, x, current);
    while true
      invariant Chain(n, x, start.value, ids) && count == |ids| <= |n.agents|
      invariant current == Reached(n, start.value, ids)
      decreases |n.agents| - |ids|
    {
      if current == P(x, 1) {
        Found(n, f, x, start.value, ids, Some(count));
        ScaledBound(count, 1, |n.agents|);
        return Some(count);
      } else if current.AgentPort? && current.port == 1 {
        if !Has(n, current.id, Con) {
          Found(n, f, x, start.value, ids, None);
          return None;
        }
        ChainMore(n, x, start.value, ids);
        ids := ids + [current.id];
        ChainShort(n, x, start.value, ids);
        count := count + 1;
        current := n.Target(P(current.id, 2));
      } else if current.AgentPort? && current.port == 0 && Has(n, current.id, Dup) {
        var m := CountDupBoundaryMultiplier(n, current.id, x);
        MultiplierBound(n, current.id, x, 2, BOUND);
        r := if m.None? then None else Some(Scaled(count, m.value));
        Found(n, f, x, start.value, ids, r);
        if m.Some? { ScaledBound(count, m.value, |n.agents|); }
        return;
      } else {
        Found(n, f, x, start.value, ids, None);
        return None;
      }
    }
  }

  lemma ScaledBound(count: nat, m: nat, all: nat)
    requires count <= all && m <= 1001
    ensures Scaled(count, m) <= Scaled(all, 1001)
    ensures m == 1 ==> count <= Scaled(all, 1001)
  {
    assert count * m <= all * m <= all * 1001;
  }

  /** With 32-bit ids there is no 64-bit overflow. */
  lemma NoOverflow(agents: nat)
    requires agents <= 0x1_0000_0000
    ensures Scaled(agents, 1001) < 0x1_0000_0000_0000_0000
  {}
}
