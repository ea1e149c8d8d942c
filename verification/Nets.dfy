/** Interaction combinator nets: agents, ports and wires.

    The agent arena and the flat port array of the source are modelled by finite
    maps; `arena` is the number of allocated slots. A port without an entry is
    disconnected. `recycling` says whether freed ids may be handed out again. */
module Nets {
  datatype Option<+T> = None | Some(value: T)

  type AgentId = nat

  /** The three combinators of Lafont: constructor, duplicator, eraser. */
  datatype Symbol = Con | Dup | Era

  const U32_MAX: nat := 0xFFFF_FFFF

  /** One end of a wire: a port of an agent, or a named end of the interface. */
  datatype PortRef = AgentPort(id: AgentId, port: nat) | FreePort(name: nat)

  /** The sentinel stored in a slot that carries no wire. */
  const DISCONNECTED: PortRef := FreePort(U32_MAX)

  /** The principal port and the auxiliary ports together. */
  function TotalPorts(s: Symbol): nat {
    if s.Era? then 1 else 3
  }

  datatype Net = Net(agents: map<AgentId, Symbol>, ports: map<PortRef, PortRef>,
                     arena: nat, nextId: AgentId, redexes: seq<(AgentId, AgentId)>,
                     root: Option<PortRef>, freeList: seq<AgentId>, recycling: bool)
  {
    function Target(p: PortRef): PortRef {
      if p.AgentPort? && p in ports then ports[p] else DISCONNECTED
    }

    /** `p` is a legal port of a live agent. */
    predicate IsPort(p: PortRef) {
      p.AgentPort? && p.id in agents && p.port < TotalPorts(agents[p.id])
    }

    /** Invariants I1 and I2: wires are symmetric and end at legal ports of live
        agents, and live agents have a slot in the arena. */
    ghost predicate WellFormed() {
      && (forall p :: IsPort(p) && Target(p).AgentPort? ==>
            IsPort(Target(p)) && Target(Target(p)) == p)
      && (forall id :: id in agents ==> id < arena)
    }

    ghost function AgentsOf(s: Symbol): set<AgentId> {
      set id | id in agents && agents[id] == s
    }
  }

  /** Symmetric wires between legal ports, and agents within the arena, make a net well formed. */
  lemma SymmetricWellFormed(n: Net)
    requires forall p :: n.IsPort(p) && n.Target(p).AgentPort? ==> n.IsPort(n.Target(p)) && n.Target(n.Target(p)) == p
    requires forall id :: id in n.agents ==> id < n.arena
    ensures n.WellFormed()
  {}

  const EMPTY: Net := Net(map[], map[], 0, 0, [], None, [], true)

  /** The arena is walked slot by slot; these are the live agents it yields. */
  function LiveIds(n: Net, upTo: nat): (s: seq<AgentId>)
    ensures forall id :: id in s <==> id in n.agents && id < upTo
    ensures forall i, j :: 0 <= i < j < |s| ==> s[i] < s[j]
  {
    if upTo == 0 then []
    else if upTo - 1 in n.agents then
      var s := LiveIds(n, upTo - 1);
      assert forall i :: 0 <= i < |s| ==> s[i] in s;
      s + [upTo - 1]
    else LiveIds(n, upTo - 1)
  }
}

/** Sorting agent ids by an integer key, ties broken by the id. */
module Ordering {
  predicate Before(key: nat -> int, x: nat, y: nat) {
    key(x) < key(y) || (key(x) == key(y) && x < y)
  }

  ghost predicate Sorted(key: nat -> int, s: seq<nat>) {
    forall i, j :: 0 <= i < j < |s| ==> Before(key, s[i], s[j])
  }

  ghost predicate Distinct<T(!new)>(s: seq<T>) {
    forall i, j :: 0 <= i < j < |s| ==> s[i] != s[j]
  }

  function Insert(key: nat -> int, x: nat, s: seq<nat>): (r: seq<nat>)
    requires Sorted(key, s) && x !in s
    ensures Sorted(key, r)
    ensures forall y :: y in r <==> y == x || y in s
    ensures |r| == |s| + 1
  {
    if s == [] then [x]
    else if Before(key, x, s[0]) then [x] + s
    else
      var r' := Insert(key, x, s[1..]);
      assert forall y :: y in s <==> y == s[0] || y in s[1..];
      assert forall i :: 0 <= i < |r'| ==> r'[i] in r' && Before(key, s[0], r'[i]);
      [s[0]] + r'
  }

  function SortBy(key: nat -> int, s: seq<nat>): (r: seq<nat>)
    requires Distinct(s)
    ensures Sorted(key, r)
    ensures forall y :: y in r <==> y in s
    ensures |r| == |s|
  {
    if s == [] then []
    else
      assert forall y :: y in s <==> y == s[0] || y in s[1..];
      Insert(key, s[0], SortBy(key, s[1..]))
  }

  /** A strictly sorted sequence is determined by its elements. */
  lemma {:induction false} SortedUnique(key: nat -> int, s: seq<nat>, t: seq<nat>)
    requires Sorted(key, s) && Sorted(key, t)
    requires forall y :: y in s <==> y in t
    ensures s == t
  {
    assert t != [] ==> t[0] in t;
    if s == [] {
    } else {
      assert s[0] in s && t != [];
      assert t[0] in t;
      var i :| 0 <= i < |t| && t[i] == s[0];
      var j :| 0 <= j < |s| && s[j] == t[0];
      assert s[0] == t[0];
      forall y ensures y in s[1..] <==> y in t[1..] {
        if y in s[1..] { var k :| 1 <= k < |s| && s[k] == y; assert y in t && y != t[0]; }
        if y in t[1..] { var k :| 1 <= k < |t| && t[k] == y; assert y in s && y != s[0]; }
      }
      SortedUnique(key, s[1..], t[1..]);
      assert s == [s[0]] + s[1..] && t == [t[0]] + t[1..];
    }
  }
}
