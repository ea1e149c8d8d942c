/** When the coordinator starts and stops, read off the list of events alone. */
module CoordinatorGate {
  import opened Nets
  import opened Coordinator
  import opened CoordinatorRuns

  // ---------------------------------------------------------------------------- the start

  /** The connections that count: those made after the configuration was loaded. */
  function Connections(events: seq<Event>): nat {
    if events == [] then 0
    else
      var k := |events| - 1;
      Connections(events[..k]) + if events[k].WorkerConnected? && ConfigLoaded in events[..k] then 1 else 0
  }

  /** As many as the configuration asks for, but at least one. */
  function Quorum(minWorkers: nat): nat {
    if minWorkers > 1 then minWorkers else 1
  }

  ghost predicate Unworked(log: seq<Action>) {
    forall i :: 0 <= i < |log| ==> !Works(log[i])
  }

  /** As long as too few workers have connected nothing is split, assigned or merged. */
  lemma {:induction false} WaitsForWorkers(minWorkers: nat, net: Option<NetId>, events: seq<Event>)
    requires FatalError !in events && Connections(events) < Quorum(minWorkers)
    ensures var (c, log) := Run(Initial(minWorkers, net), events);
      && c == Initial(minWorkers, net).(state := if ConfigLoaded in events then WaitingForWorkers else Init, connected := Connections(events))
      && Unworked(log) && (BindListener in log <==> ConfigLoaded in events)
  {
    if events != [] {
      var k := |events| - 1;
      assert events == events[..k] + [events[k]];
      WaitsForWorkers(minWorkers, net, events[..k]);
    }
  }

  /** The connection that completes the quorum starts round 0 with all workers connected, and
      asks for the split of the loaded net among them. */
  lemma QuorumStarts(minWorkers: nat, net: Option<NetId>, before: seq<Event>, id: WorkerId)
    requires FatalError !in before && ConfigLoaded in before && Connections(before) + 1 == Quorum(minWorkers)
    ensures var (c, log) := Run(Initial(minWorkers, net), before);
      var (d, more) := Step(c, WorkerConnected(id));
      && Unworked(log)
      && d.state == Partitioning && d.round == 0 && d.total == Quorum(minWorkers) == d.connected && d.net.None?
      && more == (if net.Some? then [InvokeSplit(net.value, Quorum(minWorkers))] else []) + [LogTransition(WaitingForWorkers, Partitioning)]
  {
    WaitsForWorkers(minWorkers, net, before);
  }

  /** Whatever else happens: work is requested only once the quorum has connected. */
  lemma {:induction false} NoEarlyWork(minWorkers: nat, net: Option<NetId>, events: seq<Event>)
    requires !Unworked(Run(Initial(minWorkers, net), events).1)
    ensures ConfigLoaded in events && Connections(events) >= Quorum(minWorkers)
  {
    if Connections(events) < Quorum(minWorkers) { GateHolds(minWorkers, net, events); }
    if ConfigLoaded !in events { NoConnections(events); }
  }

  lemma {:induction false} NoConnections(events: seq<Event>)
    requires ConfigLoaded !in events
    ensures Connections(events) == 0
  {
    if events != [] { NoConnections(events[..|events| - 1]); }
  }

  /** Below the quorum, with fatal errors or not, the coordinator has not started. */
  lemma {:induction false} GateHolds(minWorkers: nat, net: Option<NetId>, events: seq<Event>)
    requires Connections(events) < Quorum(minWorkers)
    ensures var (c, log) := Run(Initial(minWorkers, net), events);
      && Unworked(log) && c.minWorkers == minWorkers
      && (c.state == Error <==> FatalError in events)
      && (c.state == WaitingForWorkers ==> c.connected == Connections(events))
      && (c.state == Init || c.state == WaitingForWorkers || c.state == Error)
      && (c.state == Init ==> c.connected == 0 && Connections(events) == 0 && ConfigLoaded !in events)
      && (c.state == WaitingForWorkers ==> ConfigLoaded in events)
  {
    if events != [] {
      var k := |events| - 1;
      assert events == events[..k] + [events[k]];
      GateHolds(minWorkers, net, events[..k]);
    }
  }

  // ----------------------------------------------------------------------------- the stop

  predicate Over(s: State) {
    s.Done? || s.Error?
  }

  /** A step tells all workers to shut down exactly if it ends the run, or finds it ended and
      hears of a fatal error. */
  lemma StepStops(c: Context, e: Event)
    requires c.state != CheckTermination
    ensures var (d, more) := Step(c, e);
      && (ShutdownAll in more <==> Over(d.state) && (d.state != c.state || e.FatalError?))
      && (Over(c.state) ==> Over(d.state)) && (e.FatalError? ==> d.state == Error) && d.state != CheckTermination
      && (c.state == WaitingForResults && e.PhaseTimeout? ==> d.state == Error)
  {
    var (d, more) := Step(c, e);
    hide OnConnected, OnReturned;
    ConnectedStays(c);
    if e.PartitionReturned? { ReturnedStays(c, e.partition); }
    if e.MergeComplete? && e.isNormalForm { assert more != [] && c.state == Merging ==> more[2] == ShutdownAll; }
    if more != [] && more[|more| - 1] == ShutdownAll { assert ShutdownAll in more; }
  }

  lemma ConnectedStays(c: Context)
    ensures var (d, more) := OnConnected(c); ShutdownAll !in more && (d.state == c.state || d.state == Partitioning)
  {}

  lemma ReturnedStays(c: Context, p: Partition)
    ensures var (d, more) := OnReturned(c, p); ShutdownAll !in more && (d.state == c.state || d.state == Merging)
  {}

  /** Over every run: the workers were told to shut down exactly if the run is over, and it is
      over once a fatal error was heard of. */
  lemma {:induction false} OverIsAnnounced(minWorkers: nat, net: Option<NetId>, events: seq<Event>)
    ensures var (c, log) := Run(Initial(minWorkers, net), events);
      (ShutdownAll in log <==> Over(c.state)) && (FatalError in events ==> Over(c.state)) && c.state != CheckTermination
  {
    hide Step;
    if events != [] {
      var k := |events| - 1;
      OverIsAnnounced(minWorkers, net, events[..k]);
      assert events == events[..k] + [events[k]];
      StepStops(Run(Initial(minWorkers, net), events[..k]).0, events[k]);
    }
  }

  // ---------------------------------------------------------------------- what plays no part

  /** News of workers that join or leave between rounds, and of anything else. */
  predicate News(e: Event) {
    e.WorkerJoined? || e.WorkerLeft? || e.MembershipWindowClosed? || e.OtherEvent?
  }

  function WithoutNews(events: seq<Event>): seq<Event> {
    if events == [] then []
    else
      var k := |events| - 1;
      WithoutNews(events[..k]) + if News(events[k]) then [] else [events[k]]
  }

  function WorkOf(log: seq<Action>): seq<Action> {
    if log == [] then []
    else
      var k := |log| - 1;
      WorkOf(log[..k]) + if Works(log[k]) then [log[k]] else []
  }

  lemma {:induction false} WorkAppend(log: seq<Action>, more: seq<Action>)
    ensures WorkOf(log + more) == WorkOf(log) + WorkOf(more)
  {
    if more == [] {
      assert log + more == log;
    } else {
      assert (log + more)[..|log + more| - 1] == log + more[..|more| - 1];
      WorkAppend(log, more[..|more| - 1]);
    }
  }

  lemma {:induction false} NoWork(log: seq<Action>)
    requires Unworked(log)
    ensures WorkOf(log) == []
  {
    if log != [] { NoWork(log[..|log| - 1]); }
  }

  /** Such news changes neither the context nor the work that is requested. */
  lemma {:induction false} NewsIgnored(c: Context, events: seq<Event>)
    ensures var ((d, log), (e, short)) := (Run(c, events), Run(c, WithoutNews(events)));
      d == e && WorkOf(log) == WorkOf(short)
  {
    hide Step, WorkOf;
    if events != [] {
      var k := |events| - 1;
      NewsIgnored(c, events[..k]);
      var (d, log) := Run(c, events[..k]);
      var (_, more) := Step(d, events[k]);
      WorkAppend(log, more);
      if News(events[k]) {
        NewsStep(d, events[k]);
        NoWork(more);
        assert WithoutNews(events) == WithoutNews(events[..k]);
        assert WorkOf(log) + [] == WorkOf(log);
      } else {
        var rest := WithoutNews(events[..k]);
        assert (rest + [events[k]])[..|rest|] == rest;
        WorkAppend(Run(c, rest).1, more);
      }
    }
  }

  lemma NewsStep(c: Context, e: Event)
    requires News(e)
    ensures Step(c, e).0 == c && Unworked(Step(c, e).1)
    ensures ActiveRound(c.state) && e.WorkerJoined? ==> QueueForNextWindow(e.id) in Step(c, e).1
    ensures ActiveRound(c.state) && e.WorkerLeft? ==> RemoveWorker(e.id) in Step(c, e).1
    ensures LogTransition(c.state, c.state) in Step(c, e).1 <==> ActiveRound(c.state) && (e.WorkerJoined? || e.WorkerLeft? || e.MembershipWindowClosed?)
  {
    var more := Step(c, e).1;
    if ActiveRound(c.state) && (e.WorkerJoined? || e.WorkerLeft? || e.MembershipWindowClosed?) {
      assert more[0] in more && more[|more| - 1] in more;
    }
  }

  /** Whatever came before: a merge that reports a normal form is written out and ends the run,
      one that does not is split again among as many workers, for the next round. */
  lemma MergeDecides(minWorkers: nat, net: Option<NetId>, events: seq<Event>, merged: NetId, nf: bool)
    requires Run(Initial(minWorkers, net), events).0.state == Merging
    ensures var (c, log) := Run(Initial(minWorkers, net), events);
      var (d, more) := Step(c, MergeComplete(merged, nf));
      && WorkOf(more) == [if nf then WriteOutput(merged) else InvokeSplit(merged, c.total)]
      && d.state == (if nf then Done else Partitioning) && d.total == c.total
      && Count(log + more, EntersPartitioning) == d.round + 1 && d.round == if nf then c.round else c.round + 1
  {
    hide Count, Step;
    RunInv(minWorkers, net, events + [MergeComplete(merged, nf)]);
    assert (events + [MergeComplete(merged, nf)])[..|events|] == events;
    RunInv(minWorkers, net, events);
    MergeStep(Run(Initial(minWorkers, net), events).0, merged, nf);
  }

  lemma MergeStep(c: Context, merged: NetId, nf: bool)
    requires c.state == Merging
    ensures var (d, more) := Step(c, MergeComplete(merged, nf));
      && WorkOf(more) == [if nf then WriteOutput(merged) else InvokeSplit(merged, c.total)]
      && d.state == (if nf then Done else Partitioning) && d.total == c.total && d.round == if nf then c.round else c.round + 1
  {
    var more := Step(c, MergeComplete(merged, nf)).1;
    assert more[..1] == [more[0]] && more[..2] == [more[0], more[1]] && more[..3] == [more[0], more[1], more[2]];
    assert WorkOf(more[..1]) == [] && more[..2][..1] == more[..1] && more[..3][..2] == more[..2];
    assert WorkOf(more[..2]) == [more[1]] && WorkOf(more[..3]) == [more[1]];
    if nf { assert more[..4] == more && more[..4][..3] == more[..3]; } else { assert more[..3] == more; }
  }

  /** Each split is of the loaded net, or of the net of a merge that was no normal form. */
  lemma {:induction false} SplitsMerged(minWorkers: nat, net: Option<NetId>, events: seq<Event>, cut: NetId, k: nat)
    requires InvokeSplit(cut, k) in Run(Initial(minWorkers, net), events).1
    ensures net == Some(cut) || MergeComplete(cut, false) in events
  {
    var last := |events| - 1;
    var (c, log) := Run(Initial(minWorkers, net), events[..last]);
    NetUnchanged(minWorkers, net, events[..last]);
    if InvokeSplit(cut, k) in log { SplitsMerged(minWorkers, net, events[..last], cut, k); }
  }

  lemma {:induction false} NetUnchanged(minWorkers: nat, net: Option<NetId>, events: seq<Event>)
    ensures var c := Run(Initial(minWorkers, net), events).0; c.net == net || c.net.None?
  {
    if events != [] { NetUnchanged(minWorkers, net, events[..|events| - 1]); }
  }
}
