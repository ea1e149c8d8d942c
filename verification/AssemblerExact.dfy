/** Exactly which streams the assembler accepts. */
module AssemblerExact {
  import opened Nets
  import opened Assembler

  function Ids(b: Batch): set<AgentId> {
    set i | 0 <= i < |b.agents| :: b.agents[i].0
  }

  /** The agents a stream introduces. */
  function Arrived(stream: seq<Batch>): set<AgentId> {
    if stream == [] then {} else Arrived(stream[..|stream| - 1]) + Ids(stream[|stream| - 1])
  }

  /** The chunk counter saturates. */
  function Tick(k: nat): nat {
    if k <= U32_MAX then k else U32_MAX
  }

  /** A reference recorded at chunk `r` can expire before the counter saturates. */
  predicate Limited(r: nat, lifetime: nat) {
    lifetime != U32_MAX && r + lifetime + 1 <= U32_MAX
  }

  /** The number of chunks by which the target of a reference recorded at `r` must be there. */
  function Due(r: nat, lifetime: nat, n: nat): nat {
    if Limited(r, lifetime) && r + lifetime + 2 <= n then r + lifetime + 2 else n
  }

  predicate Forward(stream: seq<Batch>, r: nat, d: Directive) {
    r < |stream| && d.Pending? && d.target.AgentPort? && d in stream[r].connections
  }

  /** Every forward reference finds its target in time. */
  ghost predicate OnTime(stream: seq<Batch>, lifetime: nat) {
    forall r: nat, d: Directive :: Forward(stream, r, d) ==> d.target.id in Arrived(stream[..Due(r, lifetime, |stream|)])
  }

  /** No forward reference has expired yet. */
  ghost predicate NoneMissed(stream: seq<Batch>, lifetime: nat) {
    forall r: nat, d: Directive :: Forward(stream, r, d) && Limited(r, lifetime) && r + lifetime + 2 <= |stream| ==>
      d.target.id in Arrived(stream[..r + lifetime + 2])
  }

  ghost predicate AllTyped(stream: seq<Batch>) {
    forall b, i :: 0 <= b < |stream| && 0 <= i < |stream[b].connections| ==> Typed(stream[b].connections[i])
  }

  // ---------------------------------------------------------------- one batch

  lemma {:induction false} IntroduceKeys(net: SparseNet, agents: seq<(AgentId, Symbol)>)
    ensures Introduce(net, agents).agents.Keys == net.agents.Keys + set i | 0 <= i < |agents| :: agents[i].0
  {
    if agents != [] {
      var k := |agents| - 1;
      IntroduceKeys(net, agents[..k]);
      var before, now := set i | 0 <= i < k :: agents[..k][i].0, set i | 0 <= i < |agents| :: agents[i].0;
      assert now == before + {agents[k].0} by {
        forall x | x in now ensures x in before + {agents[k].0} {
          var i :| 0 <= i < |agents| && agents[i].0 == x;
          assert i < k ==> agents[..k][i].0 == x;
        }
        forall x | x in before ensures x in now {
          var i :| 0 <= i < k && agents[..k][i].0 == x;
          assert agents[i].0 == x;
        }
      }
    }
  }

  lemma {:induction false} RecordWaiting(s: Assembly, ds: seq<Directive>, e: Entry)
    ensures e in Record(s, ds).waiting <==> e in s.waiting || (Pending(e.source, e.target) in ds && e.recorded == s.chunk)
  {
    if ds != [] {
      var k := |ds| - 1;
      RecordWaiting(s, ds[..k], e);
      assert ds == ds[..k] + [ds[k]];
    }
  }

  lemma {:induction false} RetainKept(net: SparseNet, waiting: seq<Entry>, e: Entry)
    ensures e in Retain(net, waiting).1 <==> e in waiting && !Ready(net, e)
  {
    if waiting != [] {
      var k := |waiting| - 1;
      RetainKept(net, waiting[..k], e);
      assert waiting == waiting[..k] + [waiting[k]];
    }
  }

  lemma AbsorbWaiting(s: Assembly, b: Batch, e: Entry)
    ensures Absorb(s, b).net.agents.Keys == s.net.agents.Keys + Ids(b)
    ensures e in Absorb(s, b).waiting <==>
      && (e in s.waiting || (Pending(e.source, e.target) in b.connections && e.recorded == s.chunk))
      && !(e.target.AgentPort? && e.target.id in s.net.agents.Keys + Ids(b))
  {
    IntroduceKeys(s.net, b.agents);
    var t := s.(net := Introduce(s.net, b.agents));
    RecordWaiting(t, b.connections, e);
    RetainKept(Record(t, b.connections).net, Record(t, b.connections).waiting, e);
  }

  // ------------------------------------------------------------- the whole stream

  /** Recorded somewhere in the stream, and its target has not arrived. */
  ghost predicate Waits(stream: seq<Batch>, e: Entry) {
    exists r: nat :: Forward(stream, r, Pending(e.source, e.target)) && e.recorded == Tick(r)
      && e.target.id !in Arrived(stream)
  }

  ghost predicate Fed(stream: seq<Batch>, s: Assembly) {
    && s.chunk == Tick(|stream|)
    && s.net.agents.Keys == Arrived(stream)
    && forall e :: e in s.waiting <==> Waits(stream, e)
  }

  lemma {:induction false} ArrivedMonotone(stream: seq<Batch>, j: nat, k: nat)
    requires j <= k <= |stream|
    ensures Arrived(stream[..j]) <= Arrived(stream[..k])
  {
    if j < k {
      ArrivedMonotone(stream, j, k - 1);
      assert stream[..k][..k - 1] == stream[..k - 1];
    }
  }

  lemma AbsorbFed(stream: seq<Batch>, b: Batch, s: Assembly)
    requires AllTyped(stream + [b]) && Fed(stream, s)
    ensures var t := Absorb(s, b); Fed(stream + [b], t.(chunk := Succ(t.chunk)))
  {
    var all, t := stream + [b], Absorb(s, b);
    assert all[..|stream|] == stream;
    AbsorbWaiting(s, b, Entry(DISCONNECTED, DISCONNECTED, 0));
    assert t.net.agents.Keys == Arrived(all);
    forall e ensures e in t.waiting <==> Waits(all, e) {
      AbsorbWaiting(s, b, e);
      var d := Pending(e.source, e.target);
      if e in t.waiting {
        if e in s.waiting {
          var r: nat :| Forward(stream, r, d) && e.recorded == Tick(r);
          assert Forward(all, r, d);
        } else {
          var i :| 0 <= i < |b.connections| && b.connections[i] == d;
          assert Typed(all[|stream|].connections[i]);
          assert Forward(all, |stream|, d);
        }
      }
      if Waits(all, e) {
        var r: nat :| Forward(all, r, d) && e.recorded == Tick(r) && e.target.id !in Arrived(all);
        if r < |stream| { assert Forward(stream, r, d); }
      }
    }
  }

  /** An overdue reference has missed its deadline. */
  lemma OverdueMissed(stream: seq<Batch>, t: Assembly, lifetime: nat, e: Entry)
    requires stream != [] && Fed(stream, t.(chunk := Tick(|stream|))) && t.chunk == Tick(|stream| - 1)
    requires e in t.waiting && Overdue(e, t.chunk, lifetime)
    ensures !NoneMissed(stream, lifetime)
  {
    hide Arrived;
    assert Waits(stream, e);
    var r: nat :| Forward(stream, r, Pending(e.source, e.target)) && e.recorded == Tick(r) && e.target.id !in Arrived(stream);
    ArrivedMonotone(stream, r + lifetime + 2, |stream|);
    assert stream[..|stream|] == stream;
  }

  /** A deadline missed before the last chunk was missed without it, too. */
  lemma MissedBefore(stream: seq<Batch>, r: nat, d: Directive, lifetime: nat)
    requires Forward(stream, r, d) && Limited(r, lifetime) && r + lifetime + 2 <= |stream| - 1
    requires d.target.id !in Arrived(stream[..r + lifetime + 2])
    ensures !NoneMissed(stream[..|stream| - 1], lifetime)
  {
    hide Arrived;
    var c := |stream| - 1;
    assert stream[..c][..r + lifetime + 2] == stream[..r + lifetime + 2];
    assert Forward(stream[..c], r, d);
  }

  /** The lifetime check fires in a chunk exactly when a deadline passes with it. */
  lemma OverdueExact(stream: seq<Batch>, t: Assembly, lifetime: nat)
    requires stream != [] && Fed(stream, t.(chunk := Tick(|stream|))) && t.chunk == Tick(|stream| - 1)
    requires NoneMissed(stream[..|stream| - 1], lifetime)
    ensures (exists i :: 0 <= i < |t.waiting| && Overdue(t.waiting[i], t.chunk, lifetime))
       <==> !NoneMissed(stream, lifetime)
  {
    hide Arrived;
    var c := |stream| - 1;
    if i :| 0 <= i < |t.waiting| && Overdue(t.waiting[i], t.chunk, lifetime) {
      OverdueMissed(stream, t, lifetime, t.waiting[i]);
    }
    if !NoneMissed(stream, lifetime) {
      var r: nat, d: Directive :| Forward(stream, r, d) && Limited(r, lifetime) && r + lifetime + 2 <= |stream|
               && d.target.id !in Arrived(stream[..r + lifetime + 2]);
      if r + lifetime + 2 <= c { MissedBefore(stream, r, d, lifetime); }
      assert stream[..|stream|] == stream;
      var e := Entry(d.source, d.target, Tick(r));
      assert Pending(e.source, e.target) == d;
      assert Waits(stream, e);
      assert e in t.waiting;
    }
  }

  lemma {:induction false} FedExact(stream: seq<Batch>, lifetime: nat)
    requires AllTyped(stream)
    ensures FeedAll(stream, lifetime).Some? <==> NoneMissed(stream, lifetime)
    ensures FeedAll(stream, lifetime).Some? ==> Fed(stream, FeedAll(stream, lifetime).value)
  {
    if stream != [] {
      var k := |stream| - 1;
      FedExact(stream[..k], lifetime);
      assert stream == stream[..k] + [stream[k]];
      if FeedAll(stream[..k], lifetime).Some? {
        var s := FeedAll(stream[..k], lifetime).value;
        AbsorbFed(stream[..k], stream[k], s);
        OverdueExact(stream, Absorb(s, stream[k]), lifetime);
      } else {
        MissedStays(stream, lifetime);
      }
    }
  }

  lemma MissedStays(stream: seq<Batch>, lifetime: nat)
    requires stream != [] && !NoneMissed(stream[..|stream| - 1], lifetime)
    ensures !NoneMissed(stream, lifetime)
  {
    var k := |stream| - 1;
    var r: nat, d: Directive :| Forward(stream[..k], r, d) && Limited(r, lifetime) && r + lifetime + 2 <= k
             && d.target.id !in Arrived(stream[..k][..r + lifetime + 2]);
    assert stream[..k][..r + lifetime + 2] == stream[..r + lifetime + 2];
    assert Forward(stream, r, d);
  }

  lemma OnTimeSplits(stream: seq<Batch>, lifetime: nat)
    ensures OnTime(stream, lifetime) <==>
      NoneMissed(stream, lifetime) && forall r: nat, d: Directive :: Forward(stream, r, d) ==> d.target.id in Arrived(stream)
  {
    assert stream[..|stream|] == stream;
    if OnTime(stream, lifetime) {
      forall r: nat, d: Directive | Forward(stream, r, d) ensures d.target.id in Arrived(stream) {
        ArrivedMonotone(stream, Due(r, lifetime, |stream|), |stream|);
      }
    }
  }

  /** The error says what went wrong: a deadline passed, else a target never came, else the
      arena is too large. */
  lemma OutcomeExact(stream: seq<Batch>, lifetime: nat)
    requires AllTyped(stream)
    ensures Assemble(stream, lifetime).Expired? <==> !NoneMissed(stream, lifetime)
    ensures Assemble(stream, lifetime).Unresolved? <==>
      NoneMissed(stream, lifetime) && exists r: nat, d: Directive :: Forward(stream, r, d) && d.target.id !in Arrived(stream)
    ensures Assemble(stream, lifetime).TooLarge? <==>
      OnTime(stream, lifetime) && ArenaOf(Arrived(stream)) > MAX_DENSE_ARENA_SLOTS
  {
    FedExact(stream, lifetime);
    OnTimeSplits(stream, lifetime);
    if FeedAll(stream, lifetime).Some? {
      var s := FeedAll(stream, lifetime).value;
      if s.waiting != [] {
        assert s.waiting[0] in s.waiting;
        assert Waits(stream, s.waiting[0]);
      } else {
        forall r: nat, d: Directive | Forward(stream, r, d) ensures d.target.id in Arrived(stream) {
          var e := Entry(d.source, d.target, Tick(r));
          assert Pending(e.source, e.target) == d && e !in s.waiting;
        }
      }
    }
  }

  /** Assembly succeeds exactly when every forward reference finds its target in time
      and the largest agent id leaves the arena within its cap. */
  lemma AssembleExact(stream: seq<Batch>, lifetime: nat)
    requires AllTyped(stream)
    ensures Assemble(stream, lifetime).Assembled? <==>
      OnTime(stream, lifetime) && ArenaOf(Arrived(stream)) <= MAX_DENSE_ARENA_SLOTS
  {
    OutcomeExact(stream, lifetime);
    OnTimeSplits(stream, lifetime);
    hide Assemble, Forward, Arrived;
  }
}
