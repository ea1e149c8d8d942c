/** One coordinator and its workers over channels, in every interleaving. */
module Bsp {
  import opened Nets
  import opened Coordinator
  import opened Worker

  datatype Job = Job(round: nat, partition: Partition)

  /** A worker with its two channels. `lost` counts the messages of the current
      round that its state machine, or the coordinator's, ignored or gave up. */
  datatype Node = Node(state: WorkerState, round: nat, inbox: seq<Job>, holding: Option<Partition>,
                       outbox: seq<Job>, lost: nat)

  /** Work the coordinator handed to its runtime. */
  datatype Pending = Nothing | Splitting(net: NetId, workers: nat) | MergingOf(partitions: seq<Partition>)

  /** `cut` remembers the partitions of the latest split. */
  datatype System = System(coord: Context, nodes: seq<Node>, pending: Pending, cut: seq<Partition>)

  type Reduction = (NetId, NetId) -> bool

  function Start(minWorkers: nat, net: Option<NetId>): System {
    System(Initial(minWorkers, net), [], Nothing, [])
  }

  /** What the runtime and the network may do next. */
  datatype Choice =
    | Connect
    | Split(partitions: seq<Partition>)
    | Deliver(i: nat)
    | Reduce(i: nat, body: NetId)
    | Notify(i: nat, event: WorkerEvent)
    | Collect(i: nat)
    | Merge(net: NetId, isNormalForm: bool)
    | Outside(news: Event)

  /** Split cuts one partition per worker, numbered in order. */
  predicate SplitContract(parts: seq<Partition>, workers: nat) {
    |parts| == workers && forall i :: 0 <= i < |parts| ==> parts[i].worker == i
  }

  predicate Enabled(s: System, ch: Choice, reduces: Reduction) {
    match ch
    case Connect => true
    case Split(parts) => s.pending.Splitting? && SplitContract(parts, s.pending.workers)
    case Deliver(i) => i < |s.nodes| && s.nodes[i].inbox != []
    case Reduce(i, body) =>
      i < |s.nodes| && s.nodes[i].holding.Some? && reduces(s.nodes[i].holding.value.body, body)
    case Notify(i, e) => i < |s.nodes| && !e.ReceivePartition? && !e.ReductionComplete?
    case Collect(i) => i < |s.nodes| && s.nodes[i].outbox != []
    case Merge(_, _) => s.pending.MergingOf?
    case Outside(e) => !(e.WorkerConnected? || e.SplitComplete? || e.PartitionReturned? || e.MergeComplete?)
  }

  /** The request an action leaves with the runtime. */
  function Requested(actions: seq<Action>, before: Pending): Pending {
    if actions == [] then before
    else
      match actions[|actions| - 1]
      case InvokeSplit(net, k) => Splitting(net, k)
      case InvokeMerge(parts) => MergingOf(parts)
      case _ => Requested(actions[..|actions| - 1], before)
  }

  /** Feed an event to the coordinator and leave its requests with the runtime. */
  function Tell(s: System, e: Event): System {
    var (c, actions) := Step(s.coord, e);
    s.(coord := c, pending := Requested(actions, s.pending))
  }

  /** Send the assignments; a new round starts with nothing lost. */
  function Dispatch(nodes: seq<Node>, actions: seq<Action>): seq<Node> {
    seq(|nodes|, i requires 0 <= i < |nodes| =>
      var n := nodes[i].(lost := 0);
      if i < |actions| && actions[i].Assign? then
        n.(inbox := n.inbox + [Job(actions[i].round, actions[i].partition)])
      else n)
  }

  /** A worker takes the next message; its runtime echoes the round. */
  function Take(n: Node): Node
    requires n.inbox != []
  {
    var job := n.inbox[0];
    var (state, _) := React(n.state, n.round, ReceivePartition(job.partition));
    var rest := n.(inbox := n.inbox[1..], round := job.round, state := state);
    if n.state.Idle? then rest.(holding := Some(job.partition)) else rest.(lost := n.lost + 1)
  }

  /** A worker ends its reduction and sends what its state machine tells it to. */
  function Return(n: Node, body: NetId): Node
    requires n.holding.Some?
  {
    var p := n.holding.value.(body := body);
    var (state, actions) := React(n.state, n.round, ReductionComplete(p));
    var rest := n.(state := state, holding := None);
    if actions != [] && actions[0].SendResult? then
      rest.(outbox := n.outbox + [Job(actions[0].round, actions[0].partition)])
    else rest.(lost := n.lost + 1)
  }

  /** Any other event at a worker; a failing worker drops what it holds. */
  function Notice(n: Node, e: WorkerEvent): Node {
    var (state, _) := React(n.state, n.round, e);
    if n.holding.Some? && state.Failed? then n.(state := state, holding := None, lost := n.lost + 1)
    else n.(state := state)
  }

  /** The coordinator sees the next result of worker `i`, whatever state it is in. */
  function Receive(s: System, i: nat): System
    requires i < |s.nodes| && s.nodes[i].outbox != []
  {
    var n, job := s.nodes[i], s.nodes[i].outbox[0];
    var kept := s.coord.state.WaitingForResults?;
    var m := n.(outbox := n.outbox[1..], lost := if kept then n.lost else n.lost + 1);
    Tell(s.(nodes := s.nodes[i := m]), PartitionReturned(i, job.partition))
  }

  function Next(s: System, ch: Choice, reduces: Reduction): System
    requires Enabled(s, ch, reduces)
  {
    match ch
    case Connect =>
      var joined := Node(React(Starting, 0, Connected).0, 0, [], None, [], 0);
      Tell(s.(nodes := s.nodes + [joined]), WorkerConnected(|s.nodes|))
    case Split(parts) =>
      var t := Tell(s.(pending := Nothing), SplitComplete(parts));
      if s.coord.state.Partitioning? then
        t.(nodes := Dispatch(s.nodes, Step(s.coord, SplitComplete(parts)).1), cut := parts)
      else t
    case Deliver(i) => s.(nodes := s.nodes[i := Take(s.nodes[i])])
    case Reduce(i, body) => s.(nodes := s.nodes[i := Return(s.nodes[i], body)])
    case Notify(i, e) => s.(nodes := s.nodes[i := Notice(s.nodes[i], e)])
    case Collect(i) => Receive(s, i)
    case Merge(net, nf) => Tell(s.(pending := Nothing), MergeComplete(net, nf))
    case Outside(e) => Tell(s, e)
  }

  /** Every state some run reaches. */
  ghost predicate Reachable(s: System, minWorkers: nat, net: Option<NetId>, reduces: Reduction, choices: seq<Choice>)
    decreases |choices|
  {
    if choices == [] then s == Start(minWorkers, net)
    else
      var k := |choices| - 1;
      exists before: System ::
        && Reachable(before, minWorkers, net, reduces, choices[..k])
        && Enabled(before, choices[k], reduces)
        && s == Next(before, choices[k], reduces)
  }

  // ------------------------------------------------------------------- counting the work

  /** How many of the collected partitions belong to worker `i`. */
  function From(parts: seq<Partition>, i: nat): nat {
    if parts == [] then 0
    else From(parts[..|parts| - 1], i) + (if parts[|parts| - 1].worker == i then 1 else 0)
  }

  /** Where the one partition of worker `i` can be. */
  function Tokens(s: System, i: nat): nat
    requires i < |s.nodes|
  {
    var n := s.nodes[i];
    |n.inbox| + (if n.holding.Some? then 1 else 0) + |n.outbox| + From(s.coord.collected, i) + n.lost
  }

  predicate InRound(c: Context) {
    c.state.Dispatching? || c.state.WaitingForResults?
  }

  /** `p` is the reduced form of what was cut for worker `i`. */
  predicate Answers(p: Partition, i: nat, cut: seq<Partition>, reduces: Reduction) {
    i < |cut| && p.worker == i && reduces(cut[i].body, p.body)
  }

  /** `job` orders worker `i` to reduce the partition cut for it in this round. */
  predicate IsOrder(job: Job, i: nat, round: nat, cut: seq<Partition>) {
    i < |cut| && job == Job(round, cut[i])
  }

  /** `job` is the answer of worker `i` for this round. */
  predicate IsResult(job: Job, i: nat, round: nat, cut: seq<Partition>, reduces: Reduction) {
    job.round == round && Answers(job.partition, i, cut, reduces)
  }

  /** Everything at node `i` belongs to the current round and the current split. */
  predicate Current(n: Node, i: nat, round: nat, cut: seq<Partition>, reduces: Reduction) {
    && (n.holding.Some? <==> n.state.Reducing?)
    && (forall j :: 0 <= j < |n.inbox| ==> IsOrder(n.inbox[j], i, round, cut))
    && (n.holding.Some? ==> i < |cut| && n.holding.value == cut[i] && n.round == round)
    && (forall j :: 0 <= j < |n.outbox| ==> IsResult(n.outbox[j], i, round, cut, reduces))
  }

  /** The partitions handed to merge: one per worker, each the reduction of what was cut for it. */
  ghost predicate Whole(parts: seq<Partition>, cut: seq<Partition>, workers: nat, reduces: Reduction) {
    && |parts| == |cut| == workers
    && (forall j :: 0 <= j < |parts| ==> Answers(parts[j], parts[j].worker, cut, reduces))
    && (forall i :: 0 <= i < workers ==> From(parts, i) == 1)
  }

  ghost predicate Bookkeeping(s: System) {
    var c := s.coord;
    && c.state != CheckTermination
    && (c.state == Init || c.state == WaitingForWorkers ==> c.connected <= |s.nodes| && s.pending == Nothing)
    && (ActiveRound(c.state) ==> 0 < c.total <= |s.nodes|)
    && (s.pending.Splitting? ==> c.state == Partitioning && s.pending.workers == c.total)
    && (c.state == Merging ==> s.pending.MergingOf?)
    && (s.pending.MergingOf? ==> c.state == Merging)
    && (InRound(c) ==> SplitContract(s.cut, c.total))
    && (c.state == WaitingForResults ==> c.received == |c.collected| < c.total)
    && (c.state != WaitingForResults ==> c.collected == [])
  }

  /** The invariant, void once the coordinator has given up. */
  ghost predicate Inv(s: System, reduces: Reduction) {
    s.coord.state != Error ==>
      && Bookkeeping(s)
      && (forall i :: 0 <= i < |s.nodes| ==> Current(s.nodes[i], i, s.coord.round, s.cut, reduces))
      && (forall i :: 0 <= i < |s.nodes| ==> Tokens(s, i) == if InRound(s.coord) && i < s.coord.total then 1 else 0)
      && (forall j :: 0 <= j < |s.coord.collected| ==>
            Answers(s.coord.collected[j], s.coord.collected[j].worker, s.cut, reduces))
      && (s.pending.MergingOf? ==> Whole(s.pending.partitions, s.cut, s.coord.total, reduces))
  }

  // -------------------------------------------------------------- counting lemmas

  lemma {:induction false} FromAbsent(parts: seq<Partition>, i: nat)
    requires From(parts, i) == 0
    ensures forall j :: 0 <= j < |parts| ==> parts[j].worker != i
  {
    if parts != [] { FromAbsent(parts[..|parts| - 1], i); }
  }

  /** Distinct workers out of a set are no more than the set. */
  lemma {:induction false} Pigeonhole(parts: seq<Partition>, ids: set<nat>)
    requires forall j :: 0 <= j < |parts| ==> parts[j].worker in ids && From(parts, parts[j].worker) <= 1
    ensures |parts| <= |ids|
  {
    if parts != [] {
      var k := |parts| - 1;
      var w := parts[k].worker;
      assert From(parts, w) <= 1;
      FromAbsent(parts[..k], w);
      forall j | 0 <= j < k ensures parts[..k][j].worker in ids - {w} && From(parts[..k], parts[..k][j].worker) <= 1 {
        assert parts[j] == parts[..k][j];
        assert From(parts, parts[j].worker) <= 1;
      }
      Pigeonhole(parts[..k], ids - {w});
      assert |ids - {w}| == |ids| - 1;
    }
  }

  lemma {:induction false} FromAll(parts: seq<Partition>, workers: nat)
    requires |parts| == workers
    requires forall j :: 0 <= j < |parts| ==> parts[j].worker < workers
    requires forall i :: 0 <= i < workers ==> From(parts, i) <= 1
    ensures forall i :: 0 <= i < workers ==> From(parts, i) == 1
  {
    forall i | 0 <= i < workers ensures From(parts, i) == 1 {
      if From(parts, i) == 0 {
        FromAbsent(parts, i);
        Pigeonhole(parts, Below(workers) - {i});
        assert false;
      }
    }
  }

  function Below(k: nat): (r: set<nat>)
    ensures forall x :: x in r <==> 0 <= x < k
    ensures |r| == k
  {
    if k == 0 then {} else Below(k - 1) + {k - 1}
  }

  lemma FromAppend(parts: seq<Partition>, p: Partition, i: nat)
    ensures From(parts + [p], i) == From(parts, i) + if p.worker == i then 1 else 0
  {
    assert (parts + [p])[..|parts|] == parts;
  }

  // --------------------------------------------------------- what each choice keeps

  lemma {:induction false} RequestedNone(actions: seq<Action>, before: Pending)
    requires forall j :: 0 <= j < |actions| ==> !actions[j].InvokeSplit? && !actions[j].InvokeMerge?
    ensures Requested(actions, before) == before
  {
    if actions != [] { RequestedNone(actions[..|actions| - 1], before); }
  }

  lemma RequestedMore(actions: seq<Action>, a: Action, before: Pending)
    ensures Requested(actions + [a], before) ==
      match a
      case InvokeSplit(net, k) => Splitting(net, k)
      case InvokeMerge(parts) => MergingOf(parts)
      case _ => Requested(actions, before)
  {
    assert (actions + [a])[..|actions|] == actions;
  }

  /** The coordinator moves on between rounds, or within one, and the nodes stay. */
  lemma CalmInv(s: System, t: System, reduces: Reduction)
    requires s.coord.state != Error && Inv(s, reduces)
    requires t.coord.state != Error ==>
      && Bookkeeping(t) && t.nodes == s.nodes && t.cut == s.cut && t.coord.collected == s.coord.collected
      && InRound(t.coord) == InRound(s.coord)
      && (InRound(s.coord) ==> t.coord.round == s.coord.round && t.coord.total == s.coord.total)
      && (t.pending.MergingOf? ==> t.pending == s.pending && t.coord.total == s.coord.total)
    ensures Inv(t, reduces)
  {
    if t.coord.state != Error {
      forall i | 0 <= i < |t.nodes|
        ensures Tokens(t, i) == Tokens(s, i)
        ensures Current(t.nodes[i], i, t.coord.round, t.cut, reduces)
      {
        assert Current(s.nodes[i], i, s.coord.round, s.cut, reduces);
        assert InRound(s.coord) || Tokens(s, i) == 0;
      }
    }
  }

  /** Events from outside the round leave the work of the round where it is. */
  lemma OutsideInv(s: System, e: Event, reduces: Reduction)
    requires Inv(s, reduces) && Enabled(s, Outside(e), reduces)
    ensures Inv(Tell(s, e), reduces)
  {
    RequestedNone(Step(s.coord, e).1, s.pending);
    if s.coord.state != Error { CalmInv(s, Tell(s, e), reduces); }
  }

  lemma ConnectInv(s: System, reduces: Reduction)
    requires Inv(s, reduces)
    ensures Inv(Next(s, Connect, reduces), reduces)
  {
    var t := Next(s, Connect, reduces);
    var actions := Step(s.coord, WorkerConnected(|s.nodes|)).1;
    var c := s.coord;
    if c.state == WaitingForWorkers && c.net.Some? && c.connected + 1 >= c.minWorkers {
      var ask := InvokeSplit(c.net.value, c.connected + 1);
      assert actions == [] + [ask] + [Move(c, Partitioning)];
      RequestedMore([], ask, s.pending);
      RequestedMore([] + [ask], Move(c, Partitioning), s.pending);
    } else {
      RequestedNone(actions, s.pending);
    }
    if c.state != Error {
      JoinInv(s, reduces);
      CalmInv(Joined(s), t, reduces);
    }
  }

  function Joined(s: System): System {
    s.(nodes := s.nodes + [Node(Idle, 0, [], None, [], 0)])
  }

  lemma JoinInv(s: System, reduces: Reduction)
    requires Inv(s, reduces)
    ensures Inv(Joined(s), reduces)
  {
    var t := Joined(s);
    if s.coord.state != Error {
      forall i | 0 <= i < |t.nodes|
        ensures Tokens(t, i) == if InRound(t.coord) && i < t.coord.total then 1 else 0
        ensures Current(t.nodes[i], i, t.coord.round, t.cut, reduces)
      {
        if i < |s.nodes| {
          assert t.nodes[i] == s.nodes[i] && Tokens(t, i) == Tokens(s, i);
          assert Current(s.nodes[i], i, s.coord.round, s.cut, reduces);
        } else {
          NoStranger(s, |s.nodes|, reduces);
        }
      }
    }
  }

  /** Nothing collected comes from a worker outside the grid. */
  lemma NoStranger(s: System, i: nat, reduces: Reduction)
    requires s.coord.state != Error && Inv(s, reduces) && i >= |s.nodes|
    ensures From(s.coord.collected, i) == 0
  {
    if From(s.coord.collected, i) != 0 {
      var j := FromPresent(s.coord.collected, i);
    }
  }

  lemma {:induction false} FromPresent(parts: seq<Partition>, i: nat) returns (j: nat)
    requires From(parts, i) > 0
    ensures j < |parts| && parts[j].worker == i
  {
    if parts[|parts| - 1].worker == i { j := |parts| - 1; } else { j := FromPresent(parts[..|parts| - 1], i); }
  }

  lemma MergeInv(s: System, net: NetId, nf: bool, reduces: Reduction)
    requires Inv(s, reduces) && s.pending.MergingOf?
    ensures Inv(Next(s, Merge(net, nf), reduces), reduces)
  {
    if s.coord.state != Error {
      var actions := OnMerged(s.coord, net, nf).1;
      if nf {
        RequestedNone(actions, Nothing);
      } else {
        var ask, last := InvokeSplit(net, s.coord.total), LogTransition(CheckTermination, Partitioning);
        assert actions == [Move(s.coord, CheckTermination)] + [ask] + [last];
        RequestedMore([Move(s.coord, CheckTermination)], ask, Nothing);
        RequestedMore([Move(s.coord, CheckTermination)] + [ask], last, Nothing);
      }
      CalmInv(s, Next(s, Merge(net, nf), reduces), reduces);
    } else {
      RequestedNone([], Nothing);
    }
  }

  lemma SplitInv(s: System, parts: seq<Partition>, reduces: Reduction)
    requires Inv(s, reduces) && Enabled(s, Split(parts), reduces)
    ensures Inv(Next(s, Split(parts), reduces), reduces)
  {
    var actions := Step(s.coord, SplitComplete(parts)).1;
    RequestedNone(actions, Nothing);
    if s.coord.state == Partitioning {
      var t := Next(s, Split(parts), reduces);
      forall i | 0 <= i < |t.nodes|
        ensures Current(t.nodes[i], i, t.coord.round, t.cut, reduces)
        ensures Tokens(t, i) == if i < t.coord.total then 1 else 0
      {
        assert Current(s.nodes[i], i, s.coord.round, s.cut, reduces);
        assert Tokens(s, i) == 0;
        assert i < |parts| ==> actions[i] == Assign(i, s.coord.round, parts[i]);
      }
    }
  }

  /** A change inside one node that keeps its tokens. */
  lemma NodeInv(s: System, i: nat, n: Node, reduces: Reduction)
    requires i < |s.nodes| && Inv(s, reduces)
    requires Current(s.nodes[i], i, s.coord.round, s.cut, reduces) ==> Current(n, i, s.coord.round, s.cut, reduces)
    requires Tokens(s.(nodes := s.nodes[i := n]), i) == Tokens(s, i)
    ensures Inv(s.(nodes := s.nodes[i := n]), reduces)
  {
    var t := s.(nodes := s.nodes[i := n]);
    forall j | 0 <= j < |t.nodes| ensures Tokens(t, j) == Tokens(s, j) {}
  }

  lemma DeliverInv(s: System, i: nat, reduces: Reduction)
    requires Inv(s, reduces) && Enabled(s, Deliver(i), reduces)
    ensures Inv(Next(s, Deliver(i), reduces), reduces)
  {
    if s.coord.state != Error {
      assert Current(s.nodes[i], i, s.coord.round, s.cut, reduces);
      assert Tokens(s, i) <= 1;
      assert IsOrder(s.nodes[i].inbox[0], i, s.coord.round, s.cut);
      NodeInv(s, i, Take(s.nodes[i]), reduces);
    }
  }

  lemma ReduceInv(s: System, i: nat, body: NetId, reduces: Reduction)
    requires Inv(s, reduces) && Enabled(s, Reduce(i, body), reduces)
    ensures Inv(Next(s, Reduce(i, body), reduces), reduces)
  {
    if s.coord.state != Error {
      assert Current(s.nodes[i], i, s.coord.round, s.cut, reduces);
      assert Tokens(s, i) <= 1;
      NodeInv(s, i, Return(s.nodes[i], body), reduces);
    }
  }

  lemma NotifyInv(s: System, i: nat, e: WorkerEvent, reduces: Reduction)
    requires Inv(s, reduces) && Enabled(s, Notify(i, e), reduces)
    ensures Inv(Next(s, Notify(i, e), reduces), reduces)
  {
    if s.coord.state != Error {
      assert Current(s.nodes[i], i, s.coord.round, s.cut, reduces);
      NodeInv(s, i, Notice(s.nodes[i], e), reduces);
    }
  }

  /** The system just after the coordinator has stored a result, before it counts. */
  function Stored(s: System, i: nat): System
    requires i < |s.nodes| && s.nodes[i].outbox != []
  {
    var n := s.nodes[i];
    s.(nodes := s.nodes[i := n.(outbox := n.outbox[1..])],
       coord := s.coord.(collected := s.coord.collected + [n.outbox[0].partition]))
  }

  lemma StoredTokens(s: System, i: nat, j: nat, reduces: Reduction)
    requires Inv(s, reduces) && i < |s.nodes| && s.nodes[i].outbox != [] && j < |s.nodes|
    requires s.coord.state == WaitingForResults
    ensures Tokens(Stored(s, i), j) == if j < s.coord.total then 1 else 0
    ensures Current(Stored(s, i).nodes[j], j, s.coord.round, s.cut, reduces)
  {
    assert Current(s.nodes[i], i, s.coord.round, s.cut, reduces);
    assert Current(s.nodes[j], j, s.coord.round, s.cut, reduces);
    assert Tokens(s, j) == if j < s.coord.total then 1 else 0;
    assert IsResult(s.nodes[i].outbox[0], i, s.coord.round, s.cut, reduces);
    FromAppend(s.coord.collected, s.nodes[i].outbox[0].partition, j);
  }

  lemma StoredAnswers(s: System, i: nat, reduces: Reduction)
    requires Inv(s, reduces) && i < |s.nodes| && s.nodes[i].outbox != []
    requires s.coord.state == WaitingForResults
    ensures var got := Stored(s, i).coord.collected;
      forall j :: 0 <= j < |got| ==> Answers(got[j], got[j].worker, s.cut, reduces)
  {
    assert Current(s.nodes[i], i, s.coord.round, s.cut, reduces);
    assert IsResult(s.nodes[i].outbox[0], i, s.coord.round, s.cut, reduces);
  }

  /** The last result of a round makes the merge whole and leaves nothing behind. */
  lemma LastResult(s: System, i: nat, reduces: Reduction)
    requires Inv(s, reduces) && i < |s.nodes| && s.nodes[i].outbox != []
    requires s.coord.state == WaitingForResults && s.coord.received + 1 == s.coord.total
    ensures var got := Stored(s, i).coord.collected;
      && Whole(got, s.cut, s.coord.total, reduces)
      && forall j :: 0 <= j < |s.nodes| ==> Tokens(Stored(s, i), j) == From(got, j)
  {
    var u := Stored(s, i);
    var got := u.coord.collected;
    StoredAnswers(s, i, reduces);
    forall j | 0 <= j < |s.nodes| ensures Tokens(u, j) == (if j < s.coord.total then 1 else 0) && From(got, j) <= 1 {
      StoredTokens(s, i, j, reduces);
    }
    FromAll(got, s.coord.total);
  }

  lemma Shorter(n: Node, i: nat, round: nat, cut: seq<Partition>, reduces: Reduction)
    requires Current(n, i, round, cut, reduces) && n.outbox != []
    ensures Current(n.(outbox := n.outbox[1..], lost := n.lost + 1), i, round, cut, reduces)
  {
    var m := n.(outbox := n.outbox[1..], lost := n.lost + 1);
    forall j | 0 <= j < |m.outbox| ensures IsResult(m.outbox[j], i, round, cut, reduces) {
      assert m.outbox[j] == n.outbox[j + 1];
    }
  }

  lemma CollectInv(s: System, i: nat, reduces: Reduction)
    requires Inv(s, reduces) && Enabled(s, Collect(i), reduces)
    ensures Inv(Next(s, Collect(i), reduces), reduces)
  {
    if s.coord.state == WaitingForResults {
      CollectWaiting(s, i, reduces);
    } else if s.coord.state != Error {
      assert Current(s.nodes[i], i, s.coord.round, s.cut, reduces);
      Shorter(s.nodes[i], i, s.coord.round, s.cut, reduces);
      NodeInv(s, i, s.nodes[i].(outbox := s.nodes[i].outbox[1..], lost := s.nodes[i].lost + 1), reduces);
    }
  }

  lemma CollectWaiting(s: System, i: nat, reduces: Reduction)
    requires Inv(s, reduces) && Enabled(s, Collect(i), reduces) && s.coord.state == WaitingForResults
    ensures Inv(Next(s, Collect(i), reduces), reduces)
  {
    var u, t := Stored(s, i), Next(s, Collect(i), reduces);
    StoredAnswers(s, i, reduces);
    assert t.nodes == u.nodes;
    if s.coord.received + 1 < s.coord.total {
      assert t.coord.collected == u.coord.collected;
      forall j | 0 <= j < |t.nodes|
        ensures Tokens(t, j) == if j < t.coord.total then 1 else 0
        ensures Current(t.nodes[j], j, t.coord.round, t.cut, reduces)
      {
        StoredTokens(s, i, j, reduces);
      }
    } else {
      var ask := InvokeMerge(u.coord.collected);
      assert Step(s.coord, PartitionReturned(i, s.nodes[i].outbox[0].partition)).1
          == [CancelTimer] + [ask] + [Move(s.coord, Merging)];
      RequestedMore([CancelTimer], ask, s.pending);
      RequestedMore([CancelTimer] + [ask], Move(s.coord, Merging), s.pending);
      LastResult(s, i, reduces);
      forall j | 0 <= j < |t.nodes|
        ensures Tokens(t, j) == 0
        ensures Current(t.nodes[j], j, t.coord.round, t.cut, reduces)
      {
        StoredTokens(s, i, j, reduces);
        assert From([], j) == 0;
      }
    }
  }

  lemma NextInv(s: System, ch: Choice, reduces: Reduction)
    requires Inv(s, reduces) && Enabled(s, ch, reduces)
    ensures Inv(Next(s, ch, reduces), reduces)
  {
    hide Inv, Step, Dispatch, Take, Return, Notice, Receive, Requested;
    match ch
    case Connect => ConnectInv(s, reduces);
    case Split(parts) => SplitInv(s, parts, reduces);
    case Deliver(i) => DeliverInv(s, i, reduces);
    case Reduce(i, body) => ReduceInv(s, i, body, reduces);
    case Notify(i, e) => NotifyInv(s, i, e, reduces);
    case Collect(i) => CollectInv(s, i, reduces);
    case Merge(net, nf) => MergeInv(s, net, nf, reduces);
    case Outside(e) => OutsideInv(s, e, reduces);
  }

  lemma {:induction false} ReachableInv(s: System, minWorkers: nat, net: Option<NetId>, reduces: Reduction, choices: seq<Choice>)
    requires Reachable(s, minWorkers, net, reduces, choices)
    ensures Inv(s, reduces)
    decreases |choices|
  {
    hide Next, Enabled;
    if choices != [] {
      var k := |choices| - 1;
      var before :| Reachable(before, minWorkers, net, reduces, choices[..k])
                 && Enabled(before, choices[k], reduces) && s == Next(before, choices[k], reduces);
      ReachableInv(before, minWorkers, net, reduces, choices[..k]);
      NextInv(before, choices[k], reduces);
    }
  }

  // ------------------------------------------------------------------- main theorems

  /** Nothing is travelling, being reduced, or lost anywhere in the grid. */
  predicate Still(s: System) {
    forall i :: 0 <= i < |s.nodes| ==>
      s.nodes[i].inbox == [] && s.nodes[i].holding.None? && s.nodes[i].outbox == [] && s.nodes[i].lost == 0
  }

  /** In every run, the partition of every worker of a round is in exactly one place,
      it is of this round and this split, and outside a round nothing is left over. */
  lemma OnePlaceEach(s: System, minWorkers: nat, net: Option<NetId>, reduces: Reduction, choices: seq<Choice>)
    requires Reachable(s, minWorkers, net, reduces, choices) && s.coord.state != Error
    ensures InRound(s.coord) ==> forall i :: 0 <= i < s.coord.total ==> i < |s.nodes| && Tokens(s, i) == 1
    ensures InRound(s.coord) ==>
      forall i :: 0 <= i < |s.nodes| ==> Current(s.nodes[i], i, s.coord.round, s.cut, reduces)
    ensures !InRound(s.coord) ==> Still(s)
  {
    ReachableInv(s, minWorkers, net, reduces, choices);
    if !InRound(s.coord) {
      forall i | 0 <= i < |s.nodes|
        ensures s.nodes[i].inbox == [] && s.nodes[i].holding.None? && s.nodes[i].outbox == [] && s.nodes[i].lost == 0
      {
        assert Tokens(s, i) == 0;
      }
    }
  }

  /** In every run, what is merged is one partition from each of the K workers, each
      the reduction of the one cut for that worker in this round, and nothing of the
      round is left over, although the coordinator only counts. */
  lemma MergeIsWhole(s: System, minWorkers: nat, net: Option<NetId>, reduces: Reduction, choices: seq<Choice>)
    requires Reachable(s, minWorkers, net, reduces, choices) && s.pending.MergingOf? && s.coord.state != Error
    ensures Whole(s.pending.partitions, s.cut, s.coord.total, reduces)
    ensures Still(s)
  {
    ReachableInv(s, minWorkers, net, reduces, choices);
    OnePlaceEach(s, minWorkers, net, reduces, choices);
  }

  predicate Movable(n: Node) {
    n.inbox != [] || n.state == Reducing || n.outbox != []
  }

  /** While results are awaited and nothing was lost, some worker can still move:
      the coordinator never waits for a result that cannot come. */
  lemma NeverStuck(s: System, minWorkers: nat, net: Option<NetId>, reduces: Reduction, choices: seq<Choice>)
    requires Reachable(s, minWorkers, net, reduces, choices) && s.coord.state == WaitingForResults
    requires forall i :: 0 <= i < |s.nodes| ==> s.nodes[i].lost == 0
    ensures exists i :: 0 <= i < s.coord.total <= |s.nodes| && Movable(s.nodes[i])
  {
    ReachableInv(s, minWorkers, net, reduces, choices);
    var got, k := s.coord.collected, s.coord.total;
    if forall i :: 0 <= i < k ==> From(got, i) > 0 {
      Covering(got, k);
      assert false;
    }
    var i :| 0 <= i < k && From(got, i) == 0;
    assert Tokens(s, i) == 1 && Current(s.nodes[i], i, s.coord.round, s.cut, reduces);
  }

  /** One partition from each of k workers needs k partitions. */
  lemma {:induction false} Covering(parts: seq<Partition>, k: nat)
    requires forall i :: 0 <= i < k ==> From(parts, i) > 0
    ensures |parts| >= k
  {
    Covers(parts, Below(k));
  }

  lemma {:induction false} Covers(parts: seq<Partition>, ids: set<nat>)
    requires forall i :: i in ids ==> From(parts, i) > 0
    ensures |parts| >= |ids|
  {
    if parts != [] {
      var w := parts[|parts| - 1].worker;
      Covers(parts[..|parts| - 1], ids - {w});
      assert ids <= ids - {w} + {w};
      assert |ids| <= |ids - {w}| + 1;
    }
  }
}
