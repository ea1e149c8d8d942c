/** Numbering the nodes of a perfect binary tree bottom-up. */
module TreeNumbering {
  import opened Ordering

  function Pow2(k: nat): (p: nat)
    ensures p >= 1
  {
    if k == 0 then 1 else 2 * Pow2(k - 1)
  }

  /** Floor of the binary logarithm. */
  function Log2(x: nat): (l: nat)
    requires x >= 1
    ensures Pow2(l) <= x < 2 * Pow2(l)
  {
    if x == 1 then 0 else 1 + Log2(x / 2)
  }

  lemma {:induction false} Pow2Monotone(j: nat, k: nat)
    requires j <= k
    ensures Pow2(j) <= Pow2(k)
  {
    if j < k { Pow2Monotone(j, k - 1); }
  }

  lemma {:induction false} Pow2Sum(j: nat, k: nat)
    ensures Pow2(j + k) == Pow2(j) * Pow2(k)
  {
    if j > 0 {
      Pow2Sum(j - 1, k);
      assert Pow2(j + k) == 2 * Pow2(j - 1 + k);
    }
  }

  lemma Pow2Values()
    ensures Pow2(10) == 0x400 && Pow2(20) == 0x10_0000 && Pow2(30) == 0x4000_0000
    ensures Pow2(23) == 0x80_0000 && Pow2(24) == 0x100_0000
  {
    assert Pow2(10) == 0x400;
    Pow2Sum(10, 10);
    Pow2Sum(20, 10);
    assert Pow2(3) == 8 && Pow2(4) == 16;
    Pow2Sum(20, 3);
    Pow2Sum(20, 4);
  }

  lemma Log2Unique(x: nat, l: nat)
    requires Pow2(l) <= x < 2 * Pow2(l)
    ensures Log2(x) == l
  {
    var k := Log2(x);
    var j, m := if k < l then k + 1 else l + 1, if k < l then l else k;
    if j <= m { Pow2Monotone(j, m); }
  }

  function Nodes(depth: nat): nat {
    Pow2(depth) - 1
  }

  /** The level of the node with level-order index `i`; the root is at level 0. */
  function Level(i: nat): nat {
    Log2(i + 1)
  }

  lemma LevelBelow(depth: nat, x: nat)
    requires 1 <= x < Pow2(depth)
    ensures Log2(x) < depth && 2 * Pow2(Log2(x)) <= Pow2(depth)
  {
    if Log2(x) >= depth { Pow2Monotone(depth, Log2(x)); }
    Pow2Monotone(Log2(x) + 1, depth);
  }

  /** Closed form of the emission position: deeper levels first, then left to right. */
  function Position(depth: nat, i: nat): (e: nat)
    requires i < Nodes(depth)
    ensures e < Nodes(depth)
  {
    LevelBelow(depth, i + 1);
    Nodes(depth) + 2 + i - 3 * Pow2(Level(i))
  }

  /** The node emitted at position `e`. */
  function NodeAt(depth: nat, e: nat): (i: nat)
    requires e < Nodes(depth)
    ensures i < Nodes(depth)
  {
    var y := Nodes(depth) - e;
    LevelBelow(depth, y);
    e + 3 * Pow2(Log2(y)) - Nodes(depth) - 2
  }

  lemma NodeLevel(depth: nat, e: nat)
    requires e < Nodes(depth)
    ensures Level(NodeAt(depth, e)) == Log2(Nodes(depth) - e)
  {
    Log2Unique(NodeAt(depth, e) + 1, Log2(Nodes(depth) - e));
  }

  /** Position and NodeAt are inverse: the numbering is a bijection. */
  lemma PositionBijective(depth: nat, i: nat)
    requires i < Nodes(depth)
    ensures NodeAt(depth, Position(depth, i)) == i
    ensures Position(depth, NodeAt(depth, i)) == i
  {
    Log2Unique(Nodes(depth) - Position(depth, i), Level(i));
    NodeLevel(depth, i);
  }

  /** The root is emitted last. */
  lemma RootLast(depth: nat)
    requires depth >= 1
    ensures 0 < Nodes(depth) && Position(depth, 0) == Nodes(depth) - 1
  {
    Pow2Monotone(1, depth);
    assert Pow2(0) == 1;
  }

  /** A parent is emitted after its child, at most half a tree later. */
  lemma ParentLater(depth: nat, i: nat)
    requires 0 < i < Nodes(depth)
    ensures var d := Position(depth, (i - 1) / 2) - Position(depth, i);
      1 <= d <= Pow2(Level(i)) && 2 * d <= Nodes(depth) + 1
  {
    var l := Level(i);
    LevelBelow(depth, i + 1);
    assert Pow2(0) == 1;
    assert l > 0;
    assert Pow2(l) == 2 * Pow2(l - 1);
    Log2Unique((i - 1) / 2 + 1, l - 1);
  }

  // ------------------------------------------------------------------ the sort

  function Key(i: nat): int {
    0 - Level(i)
  }

  function Range(n: nat): (s: seq<nat>)
    ensures |s| == n && forall k :: 0 <= k < n ==> s[k] == k
  {
    seq(n, k => k)
  }

  lemma RangeDistinct(n: nat)
    ensures Distinct(Range(n))
  {}

  function Emission(depth: nat): seq<nat> {
    seq(Nodes(depth), e requires 0 <= e < Nodes(depth) => NodeAt(depth, e))
  }

  lemma Log2Monotone(x: nat, y: nat)
    requires 1 <= x <= y
    ensures Log2(x) <= Log2(y)
  {
    if Log2(y) < Log2(x) { Pow2Monotone(Log2(y) + 1, Log2(x)); }
  }

  /** Sorting by descending level, then index, gives the closed form. */
  lemma SortedEmission(depth: nat)
    ensures SortBy(Key, Range(Nodes(depth))) == Emission(depth)
  {
    var n, t := Nodes(depth), Emission(depth);
    hide Position, NodeAt, Nodes, Before;
    forall e, f | 0 <= e < f < n ensures Before(Key, t[e], t[f]) { EmittedBefore(depth, e, f); }
    forall i ensures i in t <==> i in Range(n) {
      if i in Range(n) {
        var k :| 0 <= k < n && Range(n)[k] == i;
        PositionBijective(depth, i);
        assert t[Position(depth, i)] == i;
      }
      if i in t {
        var e :| 0 <= e < n && t[e] == i;
        assert Range(n)[i] == i;
      }
    }
    SortedUnique(Key, SortBy(Key, Range(n)), t);
  }

  lemma EmittedBefore(depth: nat, e: nat, f: nat)
    requires e < f < Nodes(depth)
    ensures Before(Key, NodeAt(depth, e), NodeAt(depth, f))
  {
    NodeLevel(depth, e);
    NodeLevel(depth, f);
    Log2Monotone(Nodes(depth) - f, Nodes(depth) - e);
  }
}
