/** Incremental assembly of a net from a stream of batches with forward references. */
module Assembler {
  import opened Nets

  // -------------------------------------------------------------- the sparse net

  /** Agents and wires keyed by id; absent entries are disconnected. */
  datatype SparseNet = SparseNet(agents: map<AgentId, Symbol>, ports: map<PortRef, PortRef>,
                                 redexes: seq<(AgentId, AgentId)>, nextId: AgentId)

  const BLANK: SparseNet := SparseNet(map[], map[], [], 0)

  const MAX_DENSE_ARENA_SLOTS: nat := 0x100_0000

  function Succ(n: nat): nat {
    if n >= U32_MAX then U32_MAX else n + 1
  }

  /** create_agent_at: the latest symbol wins. */
  function CreateAt(net: SparseNet, id: AgentId, s: Symbol): SparseNet {
    net.(agents := net.agents[id := s], nextId := if id >= net.nextId then Succ(id) else net.nextId)
  }

  /** write_port: out-of-arity ports and the disconnected sentinel are not stored. */
  function WritePort(net: SparseNet, p: PortRef, q: PortRef): (m: SparseNet)
    ensures m == net.(ports := m.ports)
  {
    if p.FreePort? || (p.id in net.agents && p.port >= TotalPorts(net.agents[p.id])) || q == DISCONNECTED then net
    else net.(ports := net.ports[p := q])
  }

  function Plug(net: SparseNet, p: PortRef, q: PortRef): (m: SparseNet)
    ensures m == net.(ports := m.ports, redexes := m.redexes)
  {
    var both := WritePort(WritePort(net, p, q), q, p);
    if p.AgentPort? && q.AgentPort? && p.port == 0 && q.port == 0 then
      both.(redexes := both.redexes + [(p.id, q.id)])
    else both
  }

  /** One past the largest live id; an empty net still gets one slot. */
  function ArenaOf(ids: set<AgentId>): (k: nat)
    ensures k >= 1 && forall id :: id in ids ==> id < k
    ensures k == 1 || k - 1 in ids
    decreases |ids|
  {
    if ids == {} then 1
    else
      var m := LargestOf(ids);
      m + 1
  }

  function LargestOf(ids: set<AgentId>): (m: AgentId)
    requires ids != {}
    ensures m in ids && IsTop(ids, m)
  {
    assert Maximum(ids) in ids && IsTop(ids, Maximum(ids));
    var m :| m in ids && forall id :: id in ids ==> id <= m;
    m
  }

  ghost predicate IsTop(ids: set<AgentId>, m: AgentId) {
    forall id :: id in ids ==> id <= m
  }

  ghost function Maximum(ids: set<AgentId>): (m: AgentId)
    requires ids != {}
    ensures m in ids && IsTop(ids, m)
  {
    var x :| x in ids;
    var rest := ids - {x};
    if rest == {} then
      assert ids == {x};
      x
    else
      assert ids == rest + {x};
      var m := Maximum(rest);
      if x <= m then m else x
  }

  /** The unused slots of an arena, in ascending order. */
  function Gaps(agents: map<AgentId, Symbol>, upTo: nat): (s: seq<AgentId>)
    ensures forall id: AgentId :: id in s <==> id !in agents && id < upTo
    ensures forall i, j :: 0 <= i < j < |s| ==> s[i] < s[j]
  {
    if upTo == 0 then []
    else if upTo - 1 in agents then Gaps(agents, upTo - 1)
    else
      var s := Gaps(agents, upTo - 1);
      assert forall i :: 0 <= i < |s| ==> s[i] in s;
      s + [upTo - 1]
  }

  /** to_dense on a whole net; port entries past the arena are dropped. */
  function ToDense(net: SparseNet): Option<Net> {
    var arena := ArenaOf(net.agents.Keys);
    if arena > MAX_DENSE_ARENA_SLOTS then None
    else
      Some(Net(net.agents, map p | p in net.ports && p.AgentPort? && p.id < arena :: net.ports[p],
               arena, net.nextId, net.redexes, None, Gaps(net.agents, arena), true))
  }

  // ------------------------------------------------------------------- the stream

  datatype Directive =
    | Resolved(source: PortRef, target: PortRef)
    | FreePortInterface(source: PortRef, name: nat)
    | Pending(source: PortRef, target: PortRef)

  datatype Batch = Batch(agents: seq<(AgentId, Symbol)>, connections: seq<Directive>)

  /** Sources, and targets of agent wires, are agent ports. */
  predicate Typed(d: Directive) {
    d.source.AgentPort? && (d.Resolved? || d.Pending? ==> d.target.AgentPort?)
  }

  // ---------------------------------------------------------------- the assembler

  /** A wire waiting for its target, with the chunk it was recorded at. */
  datatype Entry = Entry(source: PortRef, target: PortRef, recorded: nat)

  datatype Assembly = Assembly(net: SparseNet, waiting: seq<Entry>, chunk: nat)

  datatype Outcome = Assembled(net: Net) | Expired | Unresolved | TooLarge

  function Introduce(net: SparseNet, agents: seq<(AgentId, Symbol)>): SparseNet {
    if agents == [] then net
    else
      var k := |agents| - 1;
      CreateAt(Introduce(net, agents[..k]), agents[k].0, agents[k].1)
  }

  /** Install what can be installed and queue the forward references. */
  function Record(s: Assembly, ds: seq<Directive>): (t: Assembly)
    ensures t.chunk == s.chunk && t.net.agents == s.net.agents && t.net.nextId == s.net.nextId
  {
    if ds == [] then s
    else
      var k := |ds| - 1;
      var t := Record(s, ds[..k]);
      match ds[k]
      case Resolved(p, q) => t.(net := Plug(t.net, p, q))
      case FreePortInterface(p, name) => t.(net := Plug(t.net, p, FreePort(name)))
      case Pending(p, q) => t.(waiting := t.waiting + [Entry(p, q, s.chunk)])
  }

  predicate Ready(net: SparseNet, e: Entry) {
    e.target.AgentPort? && e.target.id in net.agents
  }

  /** Wire every waiting entry whose target has arrived, and keep the others. */
  function Retain(net: SparseNet, waiting: seq<Entry>): (r: (SparseNet, seq<Entry>))
    ensures r.0.agents == net.agents && r.0.nextId == net.nextId
  {
    if waiting == [] then (net, [])
    else
      var k := |waiting| - 1;
      var (n, kept) := Retain(net, waiting[..k]);
      if Ready(n, waiting[k]) then (Plug(n, waiting[k].source, waiting[k].target), kept)
      else (n, kept + [waiting[k]])
  }

  predicate Overdue(e: Entry, chunk: nat, lifetime: nat) {
    lifetime != U32_MAX && chunk >= e.recorded && chunk - e.recorded > lifetime
  }

  /** One batch, before the lifetime check. */
  function Absorb(s: Assembly, b: Batch): (t: Assembly)
    ensures t.chunk == s.chunk
  {
    var t := Record(s.(net := Introduce(s.net, b.agents)), b.connections);
    var (n, kept) := Retain(t.net, t.waiting);
    t.(net := n, waiting := kept)
  }

  function FeedAll(stream: seq<Batch>, lifetime: nat): Option<Assembly> {
    if stream == [] then Some(Assembly(BLANK, [], 0))
    else
      var k := |stream| - 1;
      var s := FeedAll(stream[..k], lifetime);
      if s.None? then None
      else
        var t := Absorb(s.value, stream[k]);
        if exists i :: 0 <= i < |t.waiting| && Overdue(t.waiting[i], t.chunk, lifetime) then None
        else Some(t.(chunk := Succ(t.chunk)))
  }

  function Assemble(stream: seq<Batch>, lifetime: nat): Outcome {
    var s := FeedAll(stream, lifetime);
    if s.None? then Expired
    else if s.value.waiting != [] then Unresolved
    else
      var n := ToDense(s.value.net);
      if n.None? then TooLarge else Assembled(n.value)
  }

  /** The assembler as it runs: three loops per batch and a search for an expired entry. */
  method AssembleStream(stream: seq<Batch>, lifetime: nat) returns (r: Outcome)
    ensures r == Assemble(stream, lifetime)
  {
    hide Introduce, Record, Retain, Overdue, CreateAt, ToDense;
    var net, waiting, chunk := BLANK, [], 0;
    for k := 0 to |stream|
      invariant FeedAll(stream[..k], lifetime) == Some(Assembly(net, waiting, chunk))
    {
      var batch := stream[k];
      assert stream[..k + 1][..k] == stream[..k];
      ghost var s := Assembly(net, waiting, chunk);
      net := IntroduceAll(net, batch.agents);
      net, waiting := RecordAll(net, waiting, chunk, batch.connections);
      net, waiting := RetainAll(net, waiting);
      assert Assembly(net, waiting, chunk) == Absorb(s, batch);
      var expired := AnyOverdue(waiting, chunk, lifetime);
      if expired {
        StaysNone(stream, k + 1, lifetime);
        return Expired;
      }
      chunk := Succ(chunk);
    }
    assert stream[..|stream|] == stream;
    if waiting != [] { return Unresolved; }
    var n := ToDense(net);
    r := if n.None? then TooLarge else Assembled(n.value);
  }

  lemma {:induction false} StaysNone(stream: seq<Batch>, k: nat, lifetime: nat)
    requires k <= |stream| && FeedAll(stream[..k], lifetime).None?
    ensures FeedAll(stream, lifetime).None?
  {
    if k == |stream| {
      assert stream[..k] == stream;
    } else {
      assert stream[..|stream| - 1][..k] == stream[..k];
      StaysNone(stream[..|stream| - 1], k, lifetime);
    }
  }

  method IntroduceAll(net: SparseNet, agents: seq<(AgentId, Symbol)>) returns (n: SparseNet)
    ensures n == Introduce(net, agents)
  {
    n := net;
    for i := 0 to |agents|
      invariant n == Introduce(net, agents[..i])
    {
      n := CreateAt(n, agents[i].0, agents[i].1);
      assert agents[..i + 1][..i] == agents[..i];
    }
    assert agents[..|agents|] == agents;
  }

  method AnyOverdue(waiting: seq<Entry>, chunk: nat, lifetime: nat) returns (r: bool)
    ensures r <==> exists i :: 0 <= i < |waiting| && Overdue(waiting[i], chunk, lifetime)
  {
    r := false;
    for i := 0 to |waiting|
      invariant r <==> exists j :: 0 <= j < i && Overdue(waiting[j], chunk, lifetime)
    {
      if Overdue(waiting[i], chunk, lifetime) { r := true; }
    }
  }

  method RecordAll(net: SparseNet, waiting: seq<Entry>, chunk: nat, ds: seq<Directive>)
    returns (n: SparseNet, w: seq<Entry>)
    ensures Assembly(n, w, chunk) == Record(Assembly(net, waiting, chunk), ds)
  {
    n, w := net, waiting;
    for i := 0 to |ds|
      invariant Assembly(n, w, chunk) == Record(Assembly(net, waiting, chunk), ds[..i])
    {
      assert ds[..i + 1][..i] == ds[..i];
      match ds[i]
      case Resolved(p, q) => n := Plug(n, p, q);
      case FreePortInterface(p, name) => n := Plug(n, p, FreePort(name));
      case Pending(p, q) => w := w + [Entry(p, q, chunk)];
    }
    assert ds[..|ds|] == ds;
  }

  method RetainAll(net: SparseNet, waiting: seq<Entry>) returns (n: SparseNet, kept: seq<Entry>)
    ensures (n, kept) == Retain(net, waiting)
  {
    n, kept := net, [];
    for i := 0 to |waiting|
      invariant (n, kept) == Retain(net, waiting[..i])
    {
      assert waiting[..i + 1][..i] == waiting[..i];
      if Ready(n, waiting[i]) {
        n := Plug(n, waiting[i].source, waiting[i].target);
      } else {
        kept := kept + [waiting[i]];
      }
    }
    assert waiting[..|waiting|] == waiting;
  }
}
