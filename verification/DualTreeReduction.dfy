/** Reducing the dual tree: the two trees annihilate each other node by node. */
module DualTreeReduction {
  import opened Nets
  import opened NetOps
  import opened Interaction
  import opened Engine
  import opened Assembler
  import opened TreeNumbering
  import opened DualTree
  import opened DualTreeNet
  import opened DualTreeTheorems
  import Confluence
  import Rules
  import R = Reducer
  import U = Runs
  import Uniqueness

  // ------------------------------------------------------------------- the mirror image

  /** The node at the same level with every turn on the way to it reversed. */
  function Flip(i: nat): nat {
    if i == 0 then 0 else 2 * Flip((i - 1) / 2) + if i % 2 == 1 then 2 else 1
  }

  lemma FlipChild(i: nat, j: nat)
    requires 1 <= j <= 2
    ensures Flip(2 * i + j) == 2 * Flip(i) + 3 - j
  {
    assert j == 1 || j == 2;
    assert (2 * i + j - 1) / 2 == i;
  }

  lemma {:induction false} FlipBelow(depth: nat, i: nat)
    requires i < Nodes(depth)
    ensures Flip(i) < Nodes(depth)
  {
    if i > 0 { FlipBelow(depth - 1, (i - 1) / 2); }
  }

  lemma {:induction false} FlipTwice(i: nat)
    ensures Flip(Flip(i)) == i
  {
    if i == 0 {
      assert Flip(0) == 0;
    } else {
      hide Flip;
      var p, j := (i - 1) / 2, if i % 2 == 1 then 1 else 2;
      assert i == 2 * p + j;
      FlipChild(p, j);
      FlipTwice(p);
      FlipChild(Flip(p), 3 - j);
    }
  }

  function Mirror(depth: nat, x: AgentId): AgentId
    requires x < Total(depth)
  {
    FlipBelow(depth, Node(depth, x));
    Id(depth, !IsRight(depth, x), Flip(Node(depth, x)))
  }

  lemma MirrorTwice(depth: nat, x: AgentId)
    requires x < Total(depth)
    ensures var y := Mirror(depth, x); y < Total(depth) && y != x && Mirror(depth, y) == x
  {
    hide Position, NodeAt, Node, Flip, Id;
    var i := Node(depth, x);
    FlipBelow(depth, i);
    IdNode(depth, !IsRight(depth, x), Flip(i));
    FlipTwice(i);
    NodeId(depth, x);
  }

  /** A child on one side is mirrored by the child on the other port on the other side. */
  lemma MirrorChild(depth: nat, x: AgentId, j: nat)
    requires x < Total(depth) && 1 <= j <= 2
    ensures var s, t := Wiring(depth, AgentPort(x, j)), Wiring(depth, AgentPort(Mirror(depth, x), 3 - j));
      && (s.AgentPort? ==> s.port == 0 && s.id < Total(depth) && t == AgentPort(Mirror(depth, s.id), 0))
      && (s.FreePort? ==> t.FreePort?)
  {
    hide Position, NodeAt, Node, Flip, Id, Nodes, LeafName;
    var right, i := IsRight(depth, x), Node(depth, x);
    FlipBelow(depth, i);
    FlipChild(i, j);
    IdNode(depth, !right, Flip(i));
    var c := 2 * i + j;
    if c < Nodes(depth) {
      FlipBelow(depth, c);
      IdNode(depth, right, c);
    } else if Flip(c) < Nodes(depth) {
      FlipBelow(depth, Flip(c));
      FlipTwice(c);
    }
  }

  /** Above a node is its parent, nearer to the root, or for a root its mirror image. */
  lemma Above(depth: nat, x: AgentId)
    requires depth >= 1 && x < Total(depth)
    ensures var u := Wiring(depth, AgentPort(x, 0));
      && u.AgentPort? && u.id < Total(depth) && u.port <= 2 && Wiring(depth, u) == AgentPort(x, 0)
      && (u.port == 0 ==> u == AgentPort(Mirror(depth, x), 0))
      && (u.port != 0 ==> Node(depth, u.id) < Node(depth, x))
  {
    hide Position, NodeAt, Node, Id, Nodes;
    WiringSymmetric(depth, AgentPort(x, 0));
    RootLast(depth);
    var right, i := IsRight(depth, x), Node(depth, x);
    if i > 0 { IdNode(depth, right, (i - 1) / 2); }
  }

  // --------------------------------------------------------------------------- what is left

  /** The live agent `x` is wired as at the start, except that without its parent it faces
      its mirror image. */
  ghost predicate Placed(depth: nat, n: Net, x: AgentId)
    requires x < Total(depth)
  {
    && (forall j :: 1 <= j <= 2 ==>
          var s := Wiring(depth, AgentPort(x, j));
          n.Target(AgentPort(x, j)) == s && (s.AgentPort? ==> s.id in n.agents))
    && (var u := Wiring(depth, AgentPort(x, 0));
        n.Target(AgentPort(x, 0)) == if u.AgentPort? && u.port != 0 && u.id in n.agents then u else AgentPort(Mirror(depth, x), 0))
  }

  /** What remains of two trees that are annihilating each other. */
  ghost predicate Remains(depth: nat, n: Net) {
    && depth >= 1 && (forall x :: x in n.agents ==> x < Total(depth) && x < n.arena && n.agents[x].Con?)
    && (forall x :: x in n.agents && x < Total(depth) ==> Mirror(depth, x) in n.agents && Placed(depth, n, x))
  }

  lemma RemainsAt(depth: nat, n: Net, x: AgentId)
    requires Remains(depth, n) && x in n.agents
    ensures depth >= 1 && x < Total(depth) && x < n.arena && n.agents[x].Con? && Mirror(depth, x) in n.agents && Placed(depth, n, x)
  {}

  /** Auxiliary ports lead down to a principal port, or to a label. */
  lemma Downwards(depth: nat, n: Net, x: AgentId, j: nat)
    requires Remains(depth, n) && x in n.agents && 1 <= j <= 2
    ensures var t := n.Target(AgentPort(x, j)); t.AgentPort? ==> t.port == 0 && t.id in n.agents
    ensures x < Total(depth) && n.Target(AgentPort(x, j)) == Wiring(depth, AgentPort(x, j))
  {
    RemainsAt(depth, n, x);
    hide Remains, Wiring, Mirror;
    MirrorChild(depth, x, j);
  }

  /** Two agents that face each other are mirror images. */
  lemma FacingMirror(depth: nat, n: Net, a: AgentId, b: AgentId)
    requires Remains(depth, n) && a in n.agents && n.Target(AgentPort(a, 0)) == AgentPort(b, 0)
    ensures a < Total(depth) && b == Mirror(depth, a)
  {
    RemainsAt(depth, n, a);
    hide Remains, Wiring, Mirror;
  }

  lemma RemainsSound(depth: nat, n: Net)
    requires Remains(depth, n)
    ensures Sound(n)
  {
    hide Remains, Wiring, Mirror, Node, Total;
    forall p | n.IsPort(p)
      ensures n.Target(p) != p && (n.Target(p).AgentPort? ==> n.IsPort(n.Target(p)) && n.Target(n.Target(p)) == p)
    {
      RemainsAt(depth, n, p.id);
      assert p == AgentPort(p.id, p.port);
      if p.port == 0 { UpBack(depth, n, p.id); } else { DownBack(depth, n, p.id, p.port); }
    }
    forall x | x in n.agents ensures x < n.arena { RemainsAt(depth, n, x); }
  }

  lemma UpBack(depth: nat, n: Net, x: AgentId)
    requires Remains(depth, n) && x in n.agents
    ensures var p := AgentPort(x, 0); var t := n.Target(p); t != p && n.IsPort(t) && n.Target(t) == p
  {
    RemainsAt(depth, n, x);
    Above(depth, x);
    MirrorTwice(depth, x);
    hide Remains, Wiring, Mirror, Node;
    var u, y := Wiring(depth, AgentPort(x, 0)), Mirror(depth, x);
    if u.port != 0 && u.id in n.agents {
      RemainsAt(depth, n, u.id);
      Downwards(depth, n, u.id, u.port);
    } else {
      RemainsAt(depth, n, y);
      MirrorOrphan(depth, n, x);
    }
  }

  /** With a node its mirror image has lost its parent. */
  lemma MirrorOrphan(depth: nat, n: Net, x: AgentId)
    requires Remains(depth, n) && x in n.agents && n.Target(AgentPort(x, 0)) == AgentPort(Mirror(depth, x), 0)
    ensures n.Target(AgentPort(Mirror(depth, x), 0)) == AgentPort(x, 0)
  {
    RemainsAt(depth, n, x);
    var y := Mirror(depth, x);
    MirrorTwice(depth, x);
    hide Remains, Wiring, Mirror, Node;
    RemainsAt(depth, n, y);
    Above(depth, x);
    Above(depth, y);
    var v := Wiring(depth, AgentPort(y, 0));
    if v.port != 0 && v.id in n.agents {
      RemainsAt(depth, n, v.id);
      MirrorChild(depth, v.id, v.port);
      var q := AgentPort(Mirror(depth, v.id), 3 - v.port);
      RemainsAt(depth, n, q.id);
      ParentOf(depth, x, q);
    }
  }

  lemma ParentOf(depth: nat, x: AgentId, q: PortRef)
    requires depth >= 1 && x < Total(depth) && TreePort(depth, q) && Wiring(depth, q) == AgentPort(x, 0)
    ensures Wiring(depth, AgentPort(x, 0)) == q
  {
    hide Wiring;
    WiringSymmetric(depth, q);
  }

  lemma DownBack(depth: nat, n: Net, x: AgentId, j: nat)
    requires Remains(depth, n) && x in n.agents && 1 <= j <= 2
    ensures var p := AgentPort(x, j); var t := n.Target(p); t != p && (t.AgentPort? ==> n.IsPort(t) && n.Target(t) == p)
  {
    Downwards(depth, n, x, j);
    var t := n.Target(AgentPort(x, j));
    if t.AgentPort? {
      RemainsAt(depth, n, t.id);
      RemainsAt(depth, n, x);
      hide Remains, Wiring, Mirror;
      ParentOf(depth, t.id, AgentPort(x, j));
    }
  }

  lemma RemainsClean(depth: nat, n: Net, a: AgentId, b: AgentId)
    requires Remains(depth, n) && Pair(n, a, b)
    ensures Clean(n, a, b) && Anni(n, a, b) && n.agents[a].Con? && n.agents[b].Con?
  {
    RemainsAt(depth, n, a);
    RemainsAt(depth, n, b);
    hide Remains, Wiring, Mirror;
    Downwards(depth, n, a, 1);
    Downwards(depth, n, a, 2);
  }

  lemma NoLoopHere(depth: nat, n: Net, a: AgentId, b: AgentId, c: AgentId, d: AgentId)
    requires Remains(depth, n) && Confluence.TwoPairs(n, a, b, c, d)
    ensures !Confluence.LoopClosed(n, a, b, c, d)
  {
    RemainsClean(depth, n, a, b);
    RemainsClean(depth, n, c, d);
    hide Remains, Clean;
  }

  lemma RemainsCalm(depth: nat, n: Net)
    requires Remains(depth, n)
    ensures U.AllClean(n) && Uniqueness.Calm(n)
  {
    hide Remains, Clean, Confluence.LoopClosed, Pair;
    forall a, b | Pair(n, a, b) ensures Clean(n, a, b) { RemainsClean(depth, n, a, b); }
    forall a, b, c, d | Confluence.TwoPairs(n, a, b, c, d) ensures !Confluence.LoopClosed(n, a, b, c, d) {
      NoLoopHere(depth, n, a, b, c, d);
    }
  }

  // ---------------------------------------------------------------------- one interaction

  /** The wire of `x` after the step. */
  lemma StepWire(n: Net, a: AgentId, b: AgentId, m: Net, p: PortRef)
    requires Pair(n, a, b) && Reduced(n, a, b, [], m) && n.IsPort(p) && Survives(n, a, b, p.id)
    ensures m.Target(p) == End(n, a, b, n.Target(p))
  {
    assert m.Target(p) == Follow(n, a, b, [], n.Target(p));
  }

  lemma PrincipalStays(n: Net, a: AgentId, b: AgentId, t: PortRef)
    requires Pair(n, a, b) && (t.AgentPort? ==> t.port == 0 || (t.id != a && t.id != b))
    ensures End(n, a, b, t) == t
  {}

  /** A child survives its parent. */
  lemma ChildSurvives(depth: nat, n: Net, a: AgentId, b: AgentId, x: AgentId, j: nat)
    requires Remains(depth, n) && Pair(n, a, b) && Survives(n, a, b, x) && 1 <= j <= 2
    ensures var t := n.Target(AgentPort(x, j)); t.AgentPort? ==> Survives(n, a, b, t.id)
  {
    hide Remains;
    Downwards(depth, n, x, j);
    DownBack(depth, n, x, j);
  }

  lemma StepDown(depth: nat, n: Net, a: AgentId, b: AgentId, m: Net, x: AgentId, j: nat)
    requires Remains(depth, n) && Pair(n, a, b) && Reduced(n, a, b, [], m) && Survives(n, a, b, x) && 1 <= j <= 2
    ensures x < Total(depth) && x in m.agents
    ensures var s := Wiring(depth, AgentPort(x, j));
      m.Target(AgentPort(x, j)) == s && (s.AgentPort? ==> s.id in m.agents)
  {
    RemainsAt(depth, n, x);
    assert forall y :: Survives(n, a, b, y) ==> y in m.agents;
    hide Remains, Wiring, Mirror, Reduced, Pair, End;
    Downwards(depth, n, x, j);
    StepWire(n, a, b, m, AgentPort(x, j));
    PrincipalStays(n, a, b, n.Target(AgentPort(x, j)));
    ChildSurvives(depth, n, a, b, x, j);
  }

  /** A wire through two constructors that comes out at a principal port. */
  lemma CrossedEnd(n: Net, a: AgentId, b: AgentId, t: PortRef, o: AgentId)
    requires Pair(n, a, b) && n.agents[a].Con? && n.agents[b].Con? && t.AgentPort? && 1 <= t.port <= 2
    requires (t.id == a && o == b) || (t.id == b && o == a)
    requires var s := n.Target(AgentPort(o, 3 - t.port)); s.AgentPort? && s.port == 0
    ensures End(n, a, b, t) == n.Target(AgentPort(o, 3 - t.port))
  {}

  /** A node whose parent is annihilated faces its mirror image. */
  lemma OrphanFaces(depth: nat, n: Net, a: AgentId, b: AgentId, x: AgentId, t: PortRef)
    requires Remains(depth, n) && Pair(n, a, b) && Survives(n, a, b, x)
    requires n.Target(AgentPort(x, 0)) == t && t.AgentPort? && t.port != 0 && (t.id == a || t.id == b)
    ensures x < Total(depth) && End(n, a, b, t) == AgentPort(Mirror(depth, x), 0)
  {
    hide Remains, Wiring, Mirror, Clean, Placed, End, Total;
    RemainsClean(depth, n, a, b);
    FacingMirror(depth, n, a, b);
    FacingMirror(depth, n, b, a);
    RemainsAt(depth, n, x);
    UpBack(depth, n, x);
    var o := if t.id == a then b else a;
    Downwards(depth, n, t.id, t.port);
    MirrorChild(depth, t.id, t.port);
    Downwards(depth, n, o, 3 - t.port);
    CrossedEnd(n, a, b, t, o);
  }

  lemma StepUp(depth: nat, n: Net, a: AgentId, b: AgentId, m: Net, x: AgentId)
    requires Remains(depth, n) && Pair(n, a, b) && Reduced(n, a, b, [], m) && Survives(n, a, b, x)
    ensures x < Total(depth)
    ensures var u := Wiring(depth, AgentPort(x, 0));
      m.Target(AgentPort(x, 0)) == if u.AgentPort? && u.port != 0 && u.id in m.agents then u else AgentPort(Mirror(depth, x), 0)
  {
    RemainsAt(depth, n, x);
    assert forall y :: y in m.agents <==> Survives(n, a, b, y);
    StepWire(n, a, b, m, AgentPort(x, 0));
    hide Remains, Wiring, Mirror, Reduced, Pair, End;
    var t := n.Target(AgentPort(x, 0));
    Above(depth, x);
    if t.AgentPort? && t.port != 0 && (t.id == a || t.id == b) {
      OrphanFaces(depth, n, a, b, x, t);
    } else {
      PrincipalStays(n, a, b, t);
    }
  }

  lemma AnniAgents(n: Net, a: AgentId, b: AgentId, F: seq<AgentId>, m: Net)
    requires Pair(n, a, b) && Anni(n, a, b) && Reduced(n, a, b, F, m)
    ensures F == [] && forall x :: x in m.agents <==> Survives(n, a, b, x)
    ensures forall x :: x in m.agents && x in n.agents ==> m.agents[x] == n.agents[x] && x < m.arena
  {}

  lemma StepPlaced(depth: nat, n: Net, a: AgentId, b: AgentId, m: Net, x: AgentId)
    requires Remains(depth, n) && Pair(n, a, b) && Reduced(n, a, b, [], m) && Survives(n, a, b, x)
    ensures x < Total(depth) && n.agents[x].Con? && Survives(n, a, b, Mirror(depth, x)) && Placed(depth, m, x)
  {
    hide Reduced, Remains, Wiring, Mirror, Placed, Total;
    RemainsAt(depth, n, x);
    FacingMirror(depth, n, a, b);
    FacingMirror(depth, n, b, a);
    MirrorTwice(depth, x);
    StepUp(depth, n, a, b, m, x);
    StepDown(depth, n, a, b, m, x, 1);
    StepDown(depth, n, a, b, m, x, 2);
    IsPlaced(depth, m, x);
  }

  /** A step leaves the rest of the two trees. */
  lemma StepRemains(depth: nat, n: Net, a: AgentId, b: AgentId, F: seq<AgentId>, m: Net)
    requires Remains(depth, n) && Pair(n, a, b) && Reduced(n, a, b, F, m)
    ensures Remains(depth, m) && m.agents.Keys == n.agents.Keys - {a, b} && F == []
  {
    hide Reduced, Remains, Wiring, Mirror, Clean, Placed, Anni, Total;
    RemainsClean(depth, n, a, b);
    AnniAgents(n, a, b, F, m);
    forall x | x in m.agents ensures x < Total(depth) && m.agents[x].Con? && Mirror(depth, x) in m.agents && Placed(depth, m, x) {
      StepPlaced(depth, n, a, b, m, x);
    }
    RemainsAt(depth, n, a);
    MakeRemains(depth, m);
  }

  lemma IsPlaced(depth: nat, n: Net, x: AgentId)
    requires x < Total(depth)
    requires forall j :: 1 <= j <= 2 ==>
      var s := Wiring(depth, AgentPort(x, j));
      n.Target(AgentPort(x, j)) == s && (s.AgentPort? ==> s.id in n.agents)
    requires var u := Wiring(depth, AgentPort(x, 0));
      n.Target(AgentPort(x, 0)) == if u.AgentPort? && u.port != 0 && u.id in n.agents then u else AgentPort(Mirror(depth, x), 0)
    ensures Placed(depth, n, x)
  {
    hide Wiring, Mirror;
  }

  lemma MakeRemains(depth: nat, n: Net)
    requires depth >= 1 && forall x :: x in n.agents ==> x < Total(depth) && x < n.arena && n.agents[x].Con?
    requires forall x :: x in n.agents && x < Total(depth) ==> Mirror(depth, x) in n.agents && Placed(depth, n, x)
    ensures Remains(depth, n)
  {}

  /** As long as agents are left, two of them face each other. */
  lemma {:induction false} SomeFace(depth: nat, n: Net, x: AgentId)
    requires Remains(depth, n) && x in n.agents
    ensures !R.IsNormalForm(n)
    decreases if x < Total(depth) then Node(depth, x) else 0
  {
    RemainsAt(depth, n, x);
    hide Remains, Wiring, Mirror, Node, R.IsNormalForm;
    Above(depth, x);
    var u := Wiring(depth, AgentPort(x, 0));
    if u.port != 0 && u.id in n.agents {
      RemainsAt(depth, n, u.id);
      SomeFace(depth, n, u.id);
    } else {
      R.SomePair(n, x, Mirror(depth, x));
    }
  }

  // ----------------------------------------------------------------------- the whole reduction

  lemma TreesRemain(depth: nat)
    requires 1 <= depth <= 30
    ensures Remains(depth, TwoTrees(depth))
  {
    var n := TwoTrees(depth);
    hide Wiring, Mirror, Node, Position, NodeAt, Nodes, TreePorts, Placed;
    assert n.arena == Total(depth);
    forall x | x in n.agents && x < Total(depth) ensures Mirror(depth, x) in n.agents && Placed(depth, n, x) {
      MirrorTwice(depth, x);
      TreesPlaced(depth, x);
    }
  }

  lemma TreesTarget(depth: nat, x: AgentId, j: nat)
    requires depth >= 1 && x < Total(depth) && j <= 2
    ensures TwoTrees(depth).Target(AgentPort(x, j)) == Wiring(depth, AgentPort(x, j))
  {
    hide Wiring, TreePorts, Nodes;
    TreePortsExact(depth, AgentPort(x, j));
  }

  lemma TreesLive(depth: nat, x: AgentId)
    requires depth >= 1
    ensures x in TwoTrees(depth).agents <==> x < Total(depth)
  {
    hide Wiring, TreePorts, Nodes, Total;
  }

  lemma TreesPlaced(depth: nat, x: AgentId)
    requires 1 <= depth <= 30 && x < Total(depth)
    ensures Placed(depth, TwoTrees(depth), x)
  {
    hide Wiring, Mirror, Node, Total, TwoTrees;
    var n := TwoTrees(depth);
    forall j: nat | 1 <= j <= 2
      ensures var s := Wiring(depth, AgentPort(x, j));
        n.Target(AgentPort(x, j)) == s && (s.AgentPort? ==> s.id in n.agents)
    {
      TreesTarget(depth, x, j);
      MirrorChild(depth, x, j);
      if Wiring(depth, AgentPort(x, j)).AgentPort? { TreesLive(depth, Wiring(depth, AgentPort(x, j)).id); }
    }
    TreesTarget(depth, x, 0);
    Above(depth, x);
    TreesLive(depth, Wiring(depth, AgentPort(x, 0)).id);
    IsPlaced(depth, n, x);
  }

  lemma TakeRemains(depth: nat, n: Net, s: U.Move)
    requires Remains(depth, n) && AllocOk(n) && U.Enabled(n, s)
    ensures Remains(depth, U.Take(n, s)) && AllocOk(U.Take(n, s)) && |U.Take(n, s).agents.Keys| == |n.agents.Keys| - 2
  {
    hide Remains, AllocOk, Sound, Clean, Reduced, U.Take, Anni;
    RemainsSound(depth, n);
    RemainsClean(depth, n, s.a, s.b);
    var F := U.TakeIsStep(n, s);
    StepRemains(depth, n, s.a, s.b, F, U.Take(n, s));
  }

  /** Whatever is reduced in whatever order, what is left are the rests of the two trees,
      two agents fewer for each interaction. */
  lemma {:induction false} RunRemains(depth: nat, n: Net, run: seq<U.Move>)
    requires Remains(depth, n) && AllocOk(n) && U.Legal(n, run)
    ensures Remains(depth, U.After(n, run)) && |U.After(n, run).agents.Keys| == |n.agents.Keys| - 2 * |run|
    decreases |run|
  {
    hide Remains, AllocOk, U.Take, U.Enabled;
    if run != [] {
      TakeRemains(depth, n, run[0]);
      RunRemains(depth, U.Take(n, run[0]), run[1..]);
    }
  }

  lemma TreesSize(depth: nat)
    requires 1 <= depth <= 30
    ensures |TwoTrees(depth).agents.Keys| == 2 * (Pow2(depth) - 1) && AllocOk(TwoTrees(depth))
  {
    hide Wiring, TreePorts;
    ConstructorsCount(Total(depth));
  }

  lemma {:induction false} ConstructorsCount(k: nat)
    ensures |Constructors(k).Keys| == k
  {
    if k > 0 {
      ConstructorsCount(k - 1);
      assert Constructors(k).Keys == Constructors(k - 1).Keys + {k - 1};
    }
  }

  lemma EmptyIsNormal(depth: nat, n: Net)
    requires Remains(depth, n)
    ensures R.IsNormalForm(n) <==> |n.agents.Keys| == 0
  {
    if |n.agents.Keys| > 0 {
      var x :| x in n.agents.Keys;
      SomeFace(depth, n, x);
    }
    hide Remains;
  }

  /** In whatever order the dual tree is reduced, it takes 2^depth - 1 interactions to its
      normal form, and that is the empty net. */
  lemma AnyOrder(depth: nat, run: seq<U.Move>)
    requires 1 <= depth <= 30 && U.Legal(TwoTrees(depth), run)
    ensures |run| <= Pow2(depth) - 1
    ensures R.IsNormalForm(U.After(TwoTrees(depth), run)) <==> |run| == Pow2(depth) - 1
    ensures |run| == Pow2(depth) - 1 ==> U.After(TwoTrees(depth), run).agents == map[]
  {
    hide Remains, AllocOk, U.Legal, U.After, R.IsNormalForm, TwoTrees;
    TreesRemain(depth);
    TreesSize(depth);
    RunRemains(depth, TwoTrees(depth), run);
    EmptyIsNormal(depth, U.After(TwoTrees(depth), run));
  }

  /** So the dual tree is one of the nets whose normal form and interaction count do not
      depend on the order. */
  lemma TreesTame(depth: nat)
    requires 1 <= depth <= 30
    ensures Uniqueness.Tame(TwoTrees(depth))
  {
    hide Remains, AllocOk, U.Legal, U.After, TwoTrees, Sound, Uniqueness.Calm, U.AllClean;
    var n := TwoTrees(depth);
    TreesRemain(depth);
    TreesSize(depth);
    RemainsSound(depth, n);
    forall run | U.Legal(n, run) ensures U.AllClean(U.After(n, run)) && Uniqueness.Calm(U.After(n, run)) {
      RunRemains(depth, n, run);
      RemainsCalm(depth, U.After(n, run));
    }
  }

  // ------------------------------------------------------------------- the reduction loop

  /** The roots are queued, and nothing else faces anything. */
  lemma TreesGood(depth: nat)
    requires 1 <= depth <= 30
    ensures Good(TwoTrees(depth))
  {
    hide Remains, AllocOk, Sound, TreePorts, Covered, DeadPrincipals, TwoTrees;
    TreesRemain(depth);
    TreesSize(depth);
    RemainsSound(depth, TwoTrees(depth));
    TreesCovered(depth);
    TreesDead(depth);
  }

  lemma TreesDead(depth: nat)
    requires depth >= 1
    ensures DeadPrincipals(TwoTrees(depth))
  {
    hide Wiring, Nodes, TreePorts;
    forall x | x !in TwoTrees(depth).agents ensures TwoTrees(depth).Target(AgentPort(x, 0)) == DISCONNECTED {
      TreePortsExact(depth, AgentPort(x, 0));
    }
  }

  lemma TreesCovered(depth: nat)
    requires 1 <= depth <= 30
    ensures Covered(TwoTrees(depth))
  {
    hide TwoTrees, Total, Id, Roots, Queued;
    forall x, y | Faces(TwoTrees(depth), x, y) ensures Queued(TwoTrees(depth), x, y) {
      TreesLive(depth, x);
      TreesTarget(depth, x, 0);
      RootsFace(depth, x, y);
    }
  }

  lemma RootsFace(depth: nat, x: AgentId, y: AgentId)
    requires depth >= 1 && x < Total(depth) && Wiring(depth, AgentPort(x, 0)) == AgentPort(y, 0)
    ensures Queued(TwoTrees(depth), x, y)
  {
    hide Position, NodeAt, Node, TreePorts;
    RootLast(depth);
    NodeId(depth, x);
  }

  /** Every step of the loop is an annihilation of two constructors. */
  lemma {:induction false} OnlyAnnihilates(depth: nat, n: Net)
    requires Remains(depth, n) && R.Advance(n).1.Reduced?
    ensures R.Advance(n).1.rule.Annihilate?
    decreases |n.redexes|
  {
    hide Remains, Rules.Apply;
    var ((x, y), m) := (n.redexes[0], n.(redexes := n.redexes[1..]));
    if Faces(m, x, y) {
      RemainsAt(depth, n, x);
      RemainsAt(depth, n, y);
    } else {
      QueueOnly(depth, n, m);
      OnlyAnnihilates(depth, m);
    }
  }

  lemma QueueOnly(depth: nat, n: Net, m: Net)
    requires Remains(depth, n) && m == n.(redexes := m.redexes)
    ensures Remains(depth, m)
  {
    hide Wiring, Mirror;
    assert forall p :: m.Target(p) == n.Target(p);
    forall x | x in m.agents && x < Total(depth) ensures Mirror(depth, x) in m.agents && Placed(depth, m, x) {
      assert Placed(depth, n, x);
    }
  }

  lemma LoopStep(depth: nat, n: Net)
    requires Good(n) && Remains(depth, n) && R.Advance(n).1.Reduced?
    ensures var m := R.Advance(n).0; Good(m) && Remains(depth, m) && |m.agents.Keys| == |n.agents.Keys| - 2
  {
    assert AllocOk(n);
    hide Good, Remains, Rules.Apply, R.Advance, Clean, AllocOk, Anni;
    R.AdvanceGood(n);
    var m := R.Advance(n).0;
    var (a, b) := R.NextPair(n).value;
    RemainsClean(depth, n, a, b);
    var queue :| m == Rules.Apply(n.(redexes := queue), a, b);
    var s := U.Move(a, b, queue);
    assert U.Enabled(n, s) && m == U.Take(n, s);
    TakeRemains(depth, n, s);
  }

  lemma {:induction false} LoopRemains(depth: nat, n: Net, stats: R.Stats, budget: nat)
    requires Good(n) && Remains(depth, n) && stats.total <= budget
    ensures var (m, st) := R.AdvanceN(n, stats, budget);
      && Remains(depth, m) && stats.total <= st.total <= budget
      && |m.agents.Keys| == |n.agents.Keys| - 2 * (st.total - stats.total)
      && st == stats.(total := st.total, annihilations := stats.annihilations + (st.total - stats.total))
      && (st.total < budget ==> |m.agents.Keys| == 0)
    decreases budget - stats.total
  {
    hide Good, Remains, R.Advance, R.IsNormalForm, R.OneStep;
    if stats.total < budget {
      var (m, r) := R.Advance(n);
      R.AdvanceGood(n);
      match r
      case NormalForm =>
        QueueOnly(depth, n, m);
        EmptyIsNormal(depth, m);
      case Reduced(rule) =>
        OnlyAnnihilates(depth, n);
        LoopStep(depth, n);
        LoopRemains(depth, m, stats.Count(rule), budget);
    }
  }

  /** The dual tree streamed in chunks of any size, assembled, and reduced: 2^depth - 1
      interactions, all of them annihilations of two constructors, and nothing is left; with
      a smaller budget, two agents fewer for each interaction. */
  lemma DualTreeReduces(depth: nat, chunk: nat, lifetime: nat, budget: nat)
    requires 1 <= depth <= 30 && chunk >= 1 && Assemble(TreeStream(depth, chunk), lifetime).Assembled?
    ensures var net := Assemble(TreeStream(depth, chunk), lifetime).net;
      var (m, st) := R.AdvanceN(net, R.Stats(0, 0, 0, 0, 0), budget);
      var nodes := Pow2(depth) - 1;
      && st.total == (if nodes <= budget then nodes else budget)
      && st == R.Stats(st.total, st.total, 0, 0, 0)
      && |m.agents| == 2 * (nodes - st.total)
  {
    hide Assemble, TreeStream, TwoTrees, R.AdvanceN, Good, Remains, AllocOk;
    DualTreeAssembled(depth, chunk, lifetime);
    TreesRemain(depth);
    TreesSize(depth);
    TreesGood(depth);
    LoopRemains(depth, TwoTrees(depth), R.Stats(0, 0, 0, 0, 0), budget);
    var m := R.AdvanceN(TwoTrees(depth), R.Stats(0, 0, 0, 0, 0), budget).0;
    assert |m.agents| == |m.agents.Keys|;
  }
}
