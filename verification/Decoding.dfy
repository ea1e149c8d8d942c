/** Reading numbers back from nets by walking the chain of applications. */
module Decoding {
  import opened Nets
  import opened Building
  import opened Readback

  // ------------------------------------------------------------------ the chain

  /** Where the walk is after the applications `ids`. */
  function Reached(n: Net, start: PortRef, ids: seq<AgentId>): PortRef {
    if ids == [] then start else n.Target(P(ids[|ids| - 1], 2))
  }

  /** `ids` are applications, entered at port 1 and left at port 2, other than `lamX`. */
  ghost predicate Chain(n: Net, lamX: AgentId, start: PortRef, ids: seq<AgentId>) {
    forall i :: 0 <= i < |ids| ==>
      Reached(n, start, ids[..i]) == P(ids[i], 1) && ids[i] != lamX && Has(n, ids[i], Con)
  }

  /** The walk does not start behind the argument port of an application. */
  ghost predicate Entry(n: Net, lamX: AgentId, start: PortRef) {
    n.IsPort(start) ==> n.Target(start).AgentPort? && (n.Target(start).port == 2 ==> n.Target(start).id == lamX)
  }

  predicate GoesOn(n: Net, lamX: AgentId, p: PortRef) {
    p.AgentPort? && p.port == 1 && p.id != lamX && Has(n, p.id, Con)
  }

  lemma ChainBack(n: Net, lamX: AgentId, start: PortRef, ids: seq<AgentId>, i: nat)
    requires n.WellFormed() && Chain(n, lamX, start, ids) && i < |ids|
    ensures i == 0 ==> n.IsPort(start) && n.Target(P(ids[i], 1)) == n.Target(start)
    ensures i > 0 ==> n.Target(P(ids[i], 1)) == P(ids[i - 1], 2)
  {
    assert Reached(n, start, ids[..i]) == P(ids[i], 1);
    if i > 0 {
      assert Reached(n, start, ids[..i - 1]) == P(ids[i - 1], 1);
      assert ids[..i][|ids[..i]| - 1] == ids[i - 1];
      assert n.IsPort(P(ids[i - 1], 2));
    }
  }

  /** On a symmetric net the walk never meets an application twice. */
  lemma {:induction false} ChainDistinct(n: Net, lamX: AgentId, start: PortRef, ids: seq<AgentId>, i: nat, j: nat)
    requires n.WellFormed() && Chain(n, lamX, start, ids) && Entry(n, lamX, start) && i < j < |ids|
    ensures ids[i] != ids[j]
  {
    ChainBack(n, lamX, start, ids, i);
    ChainBack(n, lamX, start, ids, j);
    if i > 0 {
      ChainDistinct(n, lamX, start, ids, i - 1, j - 1);
    } else {
      assert Reached(n, start, ids[..j - 1]) == P(ids[j - 1], 1) && ids[j - 1] != lamX;
    }
  }

  lemma {:induction false} DistinctFit(ids: seq<AgentId>, all: set<AgentId>)
    requires forall i :: 0 <= i < |ids| ==> ids[i] in all
    requires forall i, j :: 0 <= i < j < |ids| ==> ids[i] != ids[j]
    ensures |ids| <= |all|
  {
    if ids != [] {
      var k := |ids| - 1;
      DistinctFit(ids[..k], all - {ids[k]});
    }
  }

  /** So the walk is no longer than the net. */
  lemma ChainShort(n: Net, lamX: AgentId, start: PortRef, ids: seq<AgentId>)
    requires n.WellFormed() && Chain(n, lamX, start, ids) && Entry(n, lamX, start)
    ensures |ids| <= |n.agents|
  {
    forall i, j | 0 <= i < j < |ids| ensures ids[i] != ids[j] { ChainDistinct(n, lamX, start, ids, i, j); }
    forall i | 0 <= i < |ids| ensures ids[i] in n.agents.Keys {
      assert Reached(n, start, ids[..i]) == P(ids[i], 1);
    }
    DistinctFit(ids, n.agents.Keys);
  }

  lemma ChainMore(n: Net, lamX: AgentId, start: PortRef, ids: seq<AgentId>)
    requires Chain(n, lamX, start, ids) && GoesOn(n, lamX, Reached(n, start, ids))
    ensures Chain(n, lamX, start, ids + [Reached(n, start, ids).id])
  {
    var more := ids + [Reached(n, start, ids).id];
    forall i | 0 <= i < |more|
      ensures Reached(n, start, more[..i]) == P(more[i], 1) && more[i] != lamX && Has(n, more[i], Con)
    {
      assert more[..i] == ids[..i];
      if i == |ids| { assert ids[..i] == ids; }
    }
  }

  /** The full walk is determined: two walks that cannot go on are the same. */
  lemma {:induction false} ChainPrefix(n: Net, lamX: AgentId, start: PortRef, ids: seq<AgentId>, js: seq<AgentId>, i: nat)
    requires Chain(n, lamX, start, ids) && Chain(n, lamX, start, js) && i <= |ids| && i <= |js|
    ensures ids[..i] == js[..i]
  {
    if i > 0 {
      ChainPrefix(n, lamX, start, ids, js, i - 1);
      assert Reached(n, start, ids[..i - 1]) == P(ids[i - 1], 1);
      assert Reached(n, start, js[..i - 1]) == P(js[i - 1], 1);
      assert ids[..i] == ids[..i - 1] + [ids[i - 1]] && js[..i] == js[..i - 1] + [js[i - 1]];
    }
  }

  lemma ChainAt(n: Net, lamX: AgentId, start: PortRef, ids: seq<AgentId>, i: nat)
    requires Chain(n, lamX, start, ids) && i < |ids|
    ensures GoesOn(n, lamX, Reached(n, start, ids[..i])) && Reached(n, start, ids[..i]) == P(ids[i], 1)
  {}

  lemma ChainUnique(n: Net, lamX: AgentId, start: PortRef, ids: seq<AgentId>, js: seq<AgentId>)
    requires Chain(n, lamX, start, ids) && Chain(n, lamX, start, js)
    requires !GoesOn(n, lamX, Reached(n, start, ids)) && !GoesOn(n, lamX, Reached(n, start, js))
    ensures ids == js
  {
    hide Chain;
    var i := if |ids| < |js| then |ids| else |js|;
    ChainPrefix(n, lamX, start, ids, js, i);
    assert ids[..|ids|] == ids && js[..|js|] == js;
    if i < |js| { ChainAt(n, lamX, start, js, i); }
    if i < |ids| { ChainAt(n, lamX, start, ids, i); }
  }

  // ---------------------------------------------------------------- decode_nat

  /** The two lambdas of a numeral are in place. */
  predicate Lambdas(n: Net, f: AgentId, x: AgentId) {
    n.root == Some(P(f, 0)) && Has(n, f, Con) && n.Target(P(f, 2)) == P(x, 0) && Has(n, x, Con)
  }

  /** What decode_nat accepts as the number `k`. */
  ghost predicate DecodesTo(n: Net, k: nat) {
    exists f: AgentId, x: AgentId, ids: seq<AgentId> :: DecodesAs(n, k, f, x, ids)
  }

  ghost predicate DecodesAs(n: Net, k: nat, f: AgentId, x: AgentId, ids: seq<AgentId>) {
    && n.redexes == [] && Lambdas(n, f, x)
    && n.Target(P(f, 1)) != DISCONNECTED && n.Target(P(x, 1)) != DISCONNECTED
    && Chain(n, x, n.Target(P(x, 2)), ids) && |ids| == k
    && Reached(n, n.Target(P(x, 2)), ids) == P(x, 1)
  }

  lemma DecodesOnce(n: Net, j: nat, k: nat)
    requires DecodesTo(n, j) && DecodesTo(n, k)
    ensures j == k
  {
    var f, x, ids :| DecodesAs(n, j, f, x, ids);
    var f', x', js :| DecodesAs(n, k, f', x', js);
    ChainUnique(n, x, n.Target(P(x, 2)), ids, js);
  }

  lemma BodyEntry(n: Net, x: AgentId)
    requires n.WellFormed() && Has(n, x, Con)
    ensures Entry(n, x, n.Target(P(x, 2)))
  {
    assert n.IsPort(P(x, 2));
  }

  method DecodeNat(n: Net) returns (r: Option<nat>)
    requires n.WellFormed()
    ensures forall k: nat :: r == Some(k) <==> DecodesTo(n, k)
  {
    hide Net.WellFormed, DecodesAs, Chain;
    if n.redexes != [] || n.root.None? || !n.root.value.AgentPort? || n.root.value.port != 0 {
      NotDecoded(n);
      return None;
    }
    var f := n.root.value.id;
    if !Has(n, f, Con) { NotDecoded(n); return None; }
    var body := n.Target(P(f, 2));
    if body == DISCONNECTED || body.FreePort? || body.port != 0 || !Has(n, body.id, Con) { NotDecoded(n); return None; }
    var x := body.id;
    var fTarget, xBind, xBody := n.Target(P(f, 1)), n.Target(P(x, 1)), n.Target(P(x, 2));
    if fTarget == DISCONNECTED || xBind == DISCONNECTED || xBody == DISCONNECTED { NotDecoded(n); return None; }
    NoSteps(n, x, xBody);
    if xBind == P(x, 2) && xBody == P(x, 1) {
      Decoded(n, f, x, []);
      return Some(0);
    }
    var count, current := 0, P(x, 2);
    ghost var ids: seq<AgentId> := [];
    BodyEntry(n, x);
    while true
      invariant Chain(n, x, xBody, ids) && count == |ids| <= |n.agents|
      invariant n.Target(current) == Reached(n, xBody, ids)
      decreases |n.agents| - |ids|
    {
      var target := n.Target(current);
      if target == DISCONNECTED || target.FreePort? { Undecoded(n, f, x, ids); return None; }
      if target.id == x && target.port == 1 { break; }
      if target.port != 1 || !Has(n, target.id, Con) { Undecoded(n, f, x, ids); return None; }
      ChainMore(n, x, xBody, ids);
      ids := ids + [target.id];
      ChainShort(n, x, xBody, ids);
      count := count + 1;
      current := P(target.id, 2);
    }
    Decoded(n, f, x, ids);
    r := Some(count);
  }

  lemma NoSteps(n: Net, x: AgentId, start: PortRef)
    ensures Chain(n, x, start, [])
  {}

  lemma StartIsPort(n: Net, x: AgentId, start: PortRef, ids: seq<AgentId>)
    requires Chain(n, x, start, ids) && Reached(n, start, ids) == P(x, 1)
    ensures start.AgentPort?
  {
    if ids != [] { ChainAt(n, x, start, ids, 0); }
  }

  /** Without the two lambdas in place nothing is decoded. */
  lemma NotDecoded(n: Net)
    requires n.redexes != [] || n.root.None? || !n.root.value.AgentPort? || n.root.value.port != 0
          || !Has(n, n.root.value.id, Con)
          || (var body := n.Target(P(n.root.value.id, 2));
              body == DISCONNECTED || body.FreePort? || body.port != 0 || !Has(n, body.id, Con)
              || n.Target(P(n.root.value.id, 1)) == DISCONNECTED || n.Target(P(body.id, 1)) == DISCONNECTED
              || n.Target(P(body.id, 2)) == DISCONNECTED)
    ensures forall k: nat :: !DecodesTo(n, k)
  {
    forall k: nat ensures !DecodesTo(n, k) {
      if f: AgentId, x: AgentId, ids: seq<AgentId> :| DecodesAs(n, k, f, x, ids) {
        StartIsPort(n, x, n.Target(P(x, 2)), ids);
      }
    }
  }

  lemma Decoded(n: Net, f: AgentId, x: AgentId, ids: seq<AgentId>)
    requires DecodesAs(n, |ids|, f, x, ids)
          || (n.redexes == [] && Lambdas(n, f, x) && n.Target(P(f, 1)) != DISCONNECTED && n.Target(P(x, 1)) != DISCONNECTED
              && Chain(n, x, n.Target(P(x, 2)), ids) && Reached(n, n.Target(P(x, 2)), ids) == P(x, 1))
    ensures forall k: nat :: |ids| == k <==> DecodesTo(n, k)
  {
    assert DecodesAs(n, |ids|, f, x, ids);
    forall k: nat | DecodesTo(n, k) ensures k == |ids| { DecodesOnce(n, k, |ids|); }
  }

  /** A walk that gets stuck elsewhere decodes to nothing. */
  lemma Undecoded(n: Net, f: AgentId, x: AgentId, ids: seq<AgentId>)
    requires Lambdas(n, f, x) && Chain(n, x, n.Target(P(x, 2)), ids)
    requires var e := Reached(n, n.Target(P(x, 2)), ids); !GoesOn(n, x, e) && e != P(x, 1)
    ensures forall k: nat :: !DecodesTo(n, k)
  {
    forall k: nat ensures !DecodesTo(n, k) {
      if f': AgentId, x': AgentId, js: seq<AgentId> :| DecodesAs(n, k, f', x', js) {
        ChainUnique(n, x, n.Target(P(x, 2)), ids, js);
      }
    }
  }
}
