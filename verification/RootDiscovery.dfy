/** Finding the root of a result net. */
module RootDiscovery {
  import opened Nets
  import NetOps
  import opened Building
  import opened Readback
  import opened Arithmetic
  import Reducer
  import Lambda

  /** How far the search over the live agents has come. */
  datatype Search = Nobody | Open(id: AgentId) | Labelled(id: AgentId) | Ambiguous

  /** The first constructor whose principal port carries a label wins; without one, the
      only constructor with an open principal port; two of those end the search at once. */
  function LookAt(n: Net, x: AgentId, s: Search): Search {
    var t := n.Target(P(x, 0));
    if s.Labelled? || s.Ambiguous? || !Has(n, x, Con) || t.AgentPort? then s
    else if t != DISCONNECTED then Labelled(x)
    else if s.Open? then Ambiguous
    else Open(x)
  }

  function Look(n: Net, ids: seq<AgentId>): Search {
    if ids == [] then Nobody else LookAt(n, ids[|ids| - 1], Look(n, ids[..|ids| - 1]))
  }

  predicate Hit(s: Search) {
    s.Open? || s.Labelled?
  }

  /** The search over the whole net. */
  function Root(n: Net): Search {
    Look(n, LiveIds(n, n.arena))
  }

  /** The scan over the live agents, in id order. */
  method FindRoot(n: Net) returns (r: Option<AgentId>)
    ensures r.Some? <==> Hit(Root(n))
    ensures r.Some? ==> r.value == Root(n).id
  {
    hide Look, LiveIds;
    var ids := LiveIds(n, n.arena);
    var candidate: Option<AgentId> := None;
    LookNone(n, ids);
    for k := 0 to |ids|
      invariant Look(n, ids[..k]) == if candidate.None? then Nobody else Open(candidate.value)
    {
      var x := ids[k];
      LookMore(n, ids, k);
      if Has(n, x, Con) {
        var t := n.Target(P(x, 0));
        if t.FreePort? && t.name != U32_MAX {
          LookStays(n, ids, k + 1);
          return Some(x);
        } else if t == DISCONNECTED {
          if candidate.Some? {
            LookStays(n, ids, k + 1);
            return None;
          }
          candidate := Some(x);
        }
      }
    }
    assert ids[..|ids|] == ids;
    r := candidate;
  }

  method DiscoverRoot(cell: Reducer.NetCell) returns (found: bool)
    modifies cell
    ensures found == Hit(Root(old(cell.net)))
    ensures found ==> var n, x := old(cell.net), P(Root(old(cell.net)).id, 0);
      cell.net == NetOps.Disconnect(n, x).(root := Some(x))
    ensures !found ==> cell.net == old(cell.net)
  {
    hide NetOps.Disconnect, Root;
    var r := FindRoot(cell.net);
    found := r.Some?;
    if found {
      cell.Disconnect(P(r.value, 0));
      cell.net := cell.net.(root := Some(P(r.value, 0)));
    }
  }

  lemma LookNone(n: Net, ids: seq<AgentId>)
    ensures Look(n, ids[..0]) == Nobody
  {}

  lemma LookMore(n: Net, ids: seq<AgentId>, k: nat)
    requires k < |ids|
    ensures Look(n, ids[..k + 1]) == LookAt(n, ids[k], Look(n, ids[..k]))
  {
    assert ids[..k + 1][..k] == ids[..k];
  }

  lemma {:induction false} LookStays(n: Net, ids: seq<AgentId>, k: nat)
    requires k <= |ids| && (Look(n, ids[..k]).Labelled? || Look(n, ids[..k]).Ambiguous?)
    ensures Look(n, ids) == Look(n, ids[..k])
  {
    if k == |ids| {
      assert ids[..k] == ids;
    } else {
      assert ids[..|ids| - 1][..k] == ids[..k];
      LookStays(n, ids[..|ids| - 1], k);
    }
  }

  /** On a net whose only interface wire is on the principal port of a constructor, and
      whose other ports are all wired, that constructor is found. */
  lemma {:induction false} LookFinds(n: Net, out: PortRef, e: Lambda.Term, ids: seq<AgentId>)
    requires Closed(n, out, e) && out.port == 0 && Has(n, out.id, Con)
    requires forall i :: 0 <= i < |ids| ==> ids[i] in n.agents
    ensures Look(n, ids) == if out.id in ids then Labelled(out.id) else Nobody
  {
    hide Denotes, Net.WellFormed;
    if ids != [] {
      var k := |ids| - 1;
      LookFinds(n, out, e, ids[..k]);
      assert ids == ids[..k] + [ids[k]];
      assert n.IsPort(P(ids[k], 0));
    }
  }

  /** The root found in such a net is the constructor at the interface, its principal port
      is open, and there the net denotes what it denoted at the interface. */
  lemma RootFound(n: Net, out: PortRef, e: Lambda.Term)
    requires Closed(n, out, e) && out.port == 0 && Has(n, out.id, Con)
    ensures Root(n) == Labelled(out.id)
    ensures var m := NetOps.Disconnect(n, out).(root := Some(out));
      m.Target(out) == DISCONNECTED && Denotes(m, out, e)
  {
    hide Denotes;
    assert out.id in LiveIds(n, n.arena);
    forall i | 0 <= i < |LiveIds(n, n.arena)| ensures LiveIds(n, n.arena)[i] in n.agents {
      assert LiveIds(n, n.arena)[i] in LiveIds(n, n.arena);
    }
    LookFinds(n, out, e, LiveIds(n, n.arena));
    var m := NetOps.Disconnect(n, out).(root := Some(out));
    forall p | n.IsPort(p) && n.Target(p).AgentPort? ensures m.Target(p) == n.Target(p) {}
    DenotesInterface(n, m, out, e);
  }

  lemma DenotesInterface(n: Net, m: Net, out: PortRef, e: Lambda.Term)
    requires Denotes(n, out, e) && m.agents == n.agents
    requires forall p :: n.IsPort(p) && n.Target(p).AgentPort? ==> m.Target(p) == n.Target(p)
    ensures Denotes(m, out, e)
  {
    var t :| Reads(n, {}, out, t) && TermOf(t, []) == e;
    ReadsInterface(n, m, {}, out, t);
  }

  /** Reading a term only ever follows wires between agents. */
  lemma {:induction false} ReadsInterface(n: Net, m: Net, scope: set<AgentId>, q: PortRef, t: Tree)
    requires Reads(n, scope, q, t) && m.agents == n.agents
    requires forall p :: n.IsPort(p) && n.Target(p).AgentPort? ==> m.Target(p) == n.Target(p)
    ensures Reads(m, scope, q, t)
    decreases t
  {
    match t
    case Var(_) =>
    case Lam(x, b) =>
      ReadsWired(n, scope + {x}, n.Target(P(x, 2)), b);
      ReadsInterface(n, m, scope + {x}, n.Target(P(x, 2)), b);
    case App(a, f, g) =>
      ReadsWired(n, scope, n.Target(P(a, 0)), f);
      ReadsWired(n, scope, n.Target(P(a, 2)), g);
      ReadsInterface(n, m, scope, n.Target(P(a, 0)), f);
      ReadsInterface(n, m, scope, n.Target(P(a, 2)), g);
    case Copy(d, t') =>
      ReadsWired(n, scope, n.Target(P(d, 0)), t');
      ReadsInterface(n, m, scope, n.Target(P(d, 0)), t');
  }

  // ------------------------------------------------------------- exactly what is found

  /** A constructor whose principal port carries a label. */
  predicate IsLabelled(n: Net, x: AgentId) {
    Has(n, x, Con) && n.Target(P(x, 0)).FreePort? && n.Target(P(x, 0)) != DISCONNECTED
  }

  /** A constructor whose principal port is open. */
  predicate IsOpen(n: Net, x: AgentId) {
    Has(n, x, Con) && n.Target(P(x, 0)) == DISCONNECTED
  }

  ghost function OpenBelow(n: Net, k: nat): set<AgentId> {
    set x | x in n.agents && x < k && IsOpen(n, x)
  }

  ghost predicate NoneLabelled(n: Net, k: nat) {
    forall x: AgentId :: x < k ==> !IsLabelled(n, x)
  }

  lemma OpenBelowMore(n: Net, k: nat)
    ensures OpenBelow(n, k + 1) == OpenBelow(n, k) + (if IsOpen(n, k) then {k} else {})
    ensures |OpenBelow(n, k + 1)| == |OpenBelow(n, k)| + (if IsOpen(n, k) then 1 else 0)
  {
    assert OpenBelow(n, k + 1) == OpenBelow(n, k) + (if IsOpen(n, k) then {k} else {});
  }

  lemma {:induction false} OpenBelowGrows(n: Net, j: nat, k: nat)
    requires j <= k
    ensures OpenBelow(n, j) <= OpenBelow(n, k) && |OpenBelow(n, j)| <= |OpenBelow(n, k)|
  {
    if j < k {
      OpenBelowGrows(n, j, k - 1);
      OpenBelowMore(n, k - 1);
    }
  }

  /** The search over the ids below `k`, described without it. */
  ghost predicate Described(n: Net, k: nat, s: Search) {
    match s
    case Nobody => NoneLabelled(n, k) && OpenBelow(n, k) == {}
    case Open(z) => NoneLabelled(n, k) && OpenBelow(n, k) == {z}
    case Labelled(z) => z < k && IsLabelled(n, z) && NoneLabelled(n, z) && |OpenBelow(n, z)| <= 1
    case Ambiguous => exists j: nat :: j <= k && NoneLabelled(n, j) && |OpenBelow(n, j)| >= 2
  }

  lemma {:induction false} LookDescribed(n: Net, k: nat)
    ensures Described(n, k, Look(n, LiveIds(n, k)))
  {
    if k == 0 {
      assert OpenBelow(n, 0) == {};
    } else {
      hide Described;
      var x := k - 1;
      LookDescribed(n, x);
      LookGrows(n, x);
      var s := Look(n, LiveIds(n, x));
      if x in n.agents { LookStep(n, x, s); } else { LookSkip(n, x, s); }
    }
  }

  lemma LookGrows(n: Net, x: AgentId)
    ensures Look(n, LiveIds(n, x + 1)) ==
      if x in n.agents then LookAt(n, x, Look(n, LiveIds(n, x))) else Look(n, LiveIds(n, x))
  {
    hide LookAt;
    if x in n.agents {
      assert LiveIds(n, x + 1) == LiveIds(n, x) + [x];
      assert LiveIds(n, x + 1)[..|LiveIds(n, x)|] == LiveIds(n, x);
    }
  }

  lemma LookSkip(n: Net, x: AgentId, s: Search)
    requires Described(n, x, s) && x !in n.agents
    ensures Described(n, x + 1, s)
  {
    OpenBelowMore(n, x);
  }

  lemma LookStep(n: Net, x: AgentId, s: Search)
    requires Described(n, x, s) && x in n.agents
    ensures Described(n, x + 1, LookAt(n, x, s))
  {
    OpenBelowMore(n, x);
    match s
    case Nobody =>
    case Open(z) =>
    case Labelled(_) =>
    case Ambiguous =>
  }

  /** Two descriptions that fit the same net are the same. */
  lemma DescribedOnce(n: Net, k: nat, s: Search, t: Search)
    requires Described(n, k, s) && Described(n, k, t)
    ensures s == t
  {
    if s.Ambiguous? != t.Ambiguous? {
      var j: nat :| j <= k && NoneLabelled(n, j) && |OpenBelow(n, j)| >= 2;
      var o := if s.Ambiguous? then t else s;
      if o.Labelled? { assert !(o.id < j); OpenBelowGrows(n, j, o.id); } else { OpenBelowGrows(n, j, k); }
    }
  }

  /** Over every net: a labelled constructor is found exactly if it is the first one in id
      order and at most one open constructor precedes it; an open one exactly if it is the
      only one and nothing is labelled; the search is ambiguous exactly if two open
      constructors come before any labelled one. */
  lemma RootExact(n: Net, s: Search)
    ensures Root(n) == s <==> Described(n, n.arena, s)
  {
    hide Described;
    LookDescribed(n, n.arena);
    if Described(n, n.arena, s) { DescribedOnce(n, n.arena, Root(n), s); }
  }

  /** Two open constructors hide every label above them: here agents 0 and 1 are open, and
      the label on agent 2 is not found. */
  const HIDDEN: Net :=
    Net(map[0 := Con, 1 := Con, 2 := Con], map[AgentPort(2, 0) := FreePort(0)], 3, 3, [], None, [], true)

  lemma HiddenLabel()
    ensures IsLabelled(HIDDEN, 2) && Root(HIDDEN) == Ambiguous
  {
    HiddenOpen();
    hide Root, IsOpen, OpenBelow;
    OpenBelowMore(HIDDEN, 0);
    OpenBelowMore(HIDDEN, 1);
    RootExact(HIDDEN, Ambiguous);
  }

  lemma HiddenOpen()
    ensures IsOpen(HIDDEN, 0) && IsOpen(HIDDEN, 1) && IsLabelled(HIDDEN, 2) && NoneLabelled(HIDDEN, 2)
  {}
}
