/** What holds over every sequence of events fed to the coordinator. */
module CoordinatorRuns {
  import opened Nets
  import opened Coordinator

  /** The context and the whole action log after a sequence of events. */
  function Run(c: Context, events: seq<Event>): (Context, seq<Action>) {
    if events == [] then (c, [])
    else
      var (d, log) := Run(c, events[..|events| - 1]);
      var (e, more) := Step(d, events[|events| - 1]);
      (e, log + more)
  }

  // --------------------------------------------------------------------- reading the log

  /** The state the logged transitions lead to, if they form an unbroken path. */
  function LogPath(log: seq<Action>, start: State): Option<State> {
    if log == [] then Some(start)
    else
      var s := LogPath(log[..|log| - 1], start);
      match log[|log| - 1]
      case LogTransition(f, t) => if s == Some(f) then Some(t) else None
      case _ => s
  }

  /** Whether the collect timer is running. */
  predicate Armed(log: seq<Action>, before: bool) {
    if log == [] then before
    else
      match log[|log| - 1]
      case StartTimer => true
      case CancelTimer => false
      case _ => Armed(log[..|log| - 1], before)
  }

  predicate Splits(a: Action) { a.InvokeSplit? }
  predicate Outputs(a: Action) { a.WriteOutput? }
  predicate EntersPartitioning(a: Action) { a.LogTransition? && a.after.Partitioning? && !a.before.Partitioning? }
  predicate Works(a: Action) { a.InvokeSplit? || a.InvokeMerge? || a.Assign? || a.WriteOutput? }

  function Count(log: seq<Action>, p: Action -> bool): nat {
    if log == [] then 0 else Count(log[..|log| - 1], p) + (if p(log[|log| - 1]) then 1 else 0)
  }

  // --------------------------------------------------------------- composing log segments

  lemma {:induction false} LogPathAppend(log: seq<Action>, more: seq<Action>, start: State)
    requires LogPath(log, start).Some?
    ensures LogPath(log + more, start) == LogPath(more, LogPath(log, start).value)
  {
    if more == [] {
      assert log + more == log;
    } else {
      assert (log + more)[..|log + more| - 1] == log + more[..|more| - 1];
      LogPathAppend(log, more[..|more| - 1], start);
    }
  }

  lemma {:induction false} ArmedAppend(log: seq<Action>, more: seq<Action>, before: bool)
    ensures Armed(log + more, before) == Armed(more, Armed(log, before))
  {
    if more == [] {
      assert log + more == log;
    } else {
      assert (log + more)[..|log + more| - 1] == log + more[..|more| - 1];
      ArmedAppend(log, more[..|more| - 1], before);
    }
  }

  lemma {:induction false} CountAppend(log: seq<Action>, more: seq<Action>, p: Action -> bool)
    ensures Count(log + more, p) == Count(log, p) + Count(more, p)
  {
    if more == [] {
      assert log + more == log;
    } else {
      assert (log + more)[..|log + more| - 1] == log + more[..|more| - 1];
      CountAppend(log, more[..|more| - 1], p);
    }
  }

  // ----------------------------------------------------------------------- the invariant

  ghost predicate Inv(c: Context, log: seq<Action>, loaded: bool) {
    var rounds := Count(log, EntersPartitioning);
    && LogPath(log, Init) == Some(c.state)
    && (c.state != Error ==> (Armed(log, false) <==> c.state == WaitingForResults))
    && (c.state == WaitingForResults ==> c.received == |c.collected| < c.total)
    && (forall i :: 0 <= i < |log| && log[i].InvokeMerge? ==> |log[i].partitions| == c.total)
    && (c.state == Init || c.state == WaitingForWorkers ==>
          rounds == 0 && c.net.Some? == loaded && (forall i :: 0 <= i < |log| ==> !Works(log[i])))
    && (ActiveRound(c.state) || c.state == Done ==> rounds > 0)
    && (ActiveRound(c.state) ==> c.total > 0)
    && (rounds > 0 ==> rounds == c.round + 1)
    && (rounds == 0 ==> c.round == 0)
    && Count(log, Splits) == (if rounds > 0 && !loaded then rounds - 1 else rounds)
    && Count(log, Outputs) <= 1
    && (Count(log, Outputs) == 1 ==> c.state == Done || c.state == Error)
    && (c.state == Done ==> Count(log, Outputs) == 1)
    && c.state != CheckTermination
  }

  /** What a segment of the log amounts to, starting in state `s`. */
  datatype Effect = Effect(path: Option<State>, armed: bool, splits: nat, outputs: nat, entries: nat)

  function EffectOf(log: seq<Action>, s: State, b: bool): Effect {
    Effect(LogPath(log, s), Armed(log, b), Count(log, Splits), Count(log, Outputs), Count(log, EntersPartitioning))
  }

  function One(a: Action, e: Effect): Effect {
    Effect(match a
           case LogTransition(f, t) => (if e.path == Some(f) then Some(t) else None)
           case _ => e.path,
           match a case StartTimer => true case CancelTimer => false case _ => e.armed,
           e.splits + (if Splits(a) then 1 else 0), e.outputs + (if Outputs(a) then 1 else 0),
           e.entries + (if EntersPartitioning(a) then 1 else 0))
  }

  lemma EffectMore(log: seq<Action>, a: Action, s: State, b: bool)
    ensures EffectOf(log + [a], s, b) == One(a, EffectOf(log, s, b))
  {
    assert (log + [a])[..|log|] == log;
  }

  lemma EffectNothing(s: State, b: bool)
    ensures EffectOf([], s, b) == Effect(Some(s), b, 0, 0, 0)
  {}

  /** Appending a segment to a log whose path is unbroken. */
  lemma EffectAppend(log: seq<Action>, more: seq<Action>)
    requires LogPath(log, Init).Some?
    ensures var e, f := EffectOf(log, Init, false), EffectOf(more, LogPath(log, Init).value, Armed(log, false));
      EffectOf(log + more, Init, false)
        == Effect(f.path, f.armed, e.splits + f.splits, e.outputs + f.outputs, e.entries + f.entries)
  {
    LogPathAppend(log, more, Init);
    ArmedAppend(log, more, false);
    CountAppend(log, more, Splits);
    CountAppend(log, more, Outputs);
    CountAppend(log, more, EntersPartitioning);
  }

  lemma Effect1(a: Action, s: State, b: bool)
    ensures EffectOf([a], s, b) == One(a, Effect(Some(s), b, 0, 0, 0))
  {
    assert [] + [a] == [a];
    EffectMore([], a, s, b);
  }

  lemma Effect2(x: Action, y: Action, s: State, b: bool)
    ensures EffectOf([x, y], s, b) == One(y, One(x, Effect(Some(s), b, 0, 0, 0)))
  {
    hide One, EffectOf;
    Effect1(x, s, b);
    assert [x] + [y] == [x, y];
    EffectMore([x], y, s, b);
  }

  lemma Effect3(x: Action, y: Action, z: Action, s: State, b: bool)
    ensures EffectOf([x, y, z], s, b) == One(z, One(y, One(x, Effect(Some(s), b, 0, 0, 0))))
  {
    hide One, EffectOf;
    Effect2(x, y, s, b);
    assert [x, y] + [z] == [x, y, z];
    EffectMore([x, y], z, s, b);
  }

  lemma Effect4(x: Action, y: Action, z: Action, w: Action, s: State, b: bool)
    ensures EffectOf([x, y, z, w], s, b) == One(w, One(z, One(y, One(x, Effect(Some(s), b, 0, 0, 0)))))
  {
    hide One, EffectOf;
    Effect3(x, y, z, s, b);
    assert [x, y, z] + [w] == [x, y, z, w];
    EffectMore([x, y, z], w, s, b);
  }

  lemma {:induction false} EffectAssignments(parts: seq<Partition>, round: nat, s: State, b: bool)
    ensures EffectOf(Assignments(parts, round), s, b) == Effect(Some(s), b, 0, 0, 0)
  {
    if parts == [] {
      assert Assignments(parts, round) == [];
    } else {
      var k := |parts| - 1;
      EffectAssignments(parts[..k], round, s, b);
      assert Assignments(parts, round) == Assignments(parts[..k], round) + [Assign(k, round, parts[k])];
      EffectMore(Assignments(parts[..k], round), Assign(k, round, parts[k]), s, b);
    }
  }

  /** What each kind of step adds. */
  ghost predicate StepEffect(c: Context, d: Context, more: seq<Action>, b: bool) {
    var f := EffectOf(more, c.state, b);
    && f.path == Some(d.state)
    && f.armed == (if d.state == WaitingForResults && c.state != WaitingForResults then true
                   else if d.state == Merging && c.state != Merging then false else b)
    && f.entries == (if d.state == Partitioning && c.state != Partitioning then 1 else 0)
    && f.outputs == (if d.state == Done && c.state != Done then 1 else 0)
    && f.splits == (if f.entries == 1 && (c.state == Merging || c.net.Some?) then 1 else 0)
  }

  lemma SplitEffect(c: Context, parts: seq<Partition>, b: bool)
    requires c.state == Partitioning
    ensures var (d, more) := Step(c, SplitComplete(parts)); StepEffect(c, d, more, b)
  {
    hide EffectOf, Assignments;
    EffectAssignments(parts, c.round, c.state, b);
    EffectMore(Assignments(parts, c.round), Move(c, Dispatching), c.state, b);
  }

  lemma ConnectedEffect(c: Context, b: bool)
    requires c.state == WaitingForWorkers
    ensures var (d, more) := OnConnected(c); StepEffect(c, d, more, b)
  {
    hide EffectOf;
    var (d, more) := OnConnected(c);
    if |more| == 2 {
      assert more == [more[0], more[1]];
      Effect2(more[0], more[1], c.state, b);
    } else {
      assert more == [more[0]];
      Effect1(more[0], c.state, b);
    }
  }

  lemma ReturnedEffect(c: Context, p: Partition, b: bool)
    requires c.state == WaitingForResults
    ensures var (d, more) := OnReturned(c, p); StepEffect(c, d, more, b)
  {
    hide EffectOf;
    EffectNothing(c.state, b);
    Effect3(CancelTimer, InvokeMerge(c.collected + [p]), Move(c, Merging), c.state, b);
  }

  lemma MergedEffect(c: Context, net: NetId, nf: bool, b: bool)
    requires c.state == Merging
    ensures var (d, more) := OnMerged(c, net, nf); StepEffect(c, d, more, b)
  {
    hide EffectOf;
    if nf {
      Effect4(Move(c, CheckTermination), WriteOutput(net), ShutdownAll, LogTransition(CheckTermination, Done), c.state, b);
    } else {
      Effect3(Move(c, CheckTermination), InvokeSplit(net, c.total), LogTransition(CheckTermination, Partitioning), c.state, b);
    }
  }

  /** A segment that moves the coordinator from one state to another, or logs only. */
  lemma LoggedEffect(c: Context, e: Event, b: bool)
    requires c.state != CheckTermination
    requires e.WorkerJoined? || e.WorkerLeft? || e.MembershipWindowClosed? || e.FatalError?
    ensures var (d, more) := Step(c, e); StepEffect(c, d, more, b)
  {
    hide EffectOf;
    EffectNothing(c.state, b);
    match e
    case FatalError => Effect2(Move(c, Error), ShutdownAll, c.state, b);
    case WorkerJoined(id) => Effect3(QueueForNextWindow(id), LogJoin(id), Move(c, c.state), c.state, b);
    case WorkerLeft(id, k) => Effect3(RemoveWorker(id), LogDeparture(id, k), Move(c, c.state), c.state, b);
    case MembershipWindowClosed => Effect1(Move(c, c.state), c.state, b);
    case _ =>
  }

  lemma StepEffects(c: Context, e: Event, b: bool)
    requires c.state != CheckTermination
    ensures var (d, more) := Step(c, e); StepEffect(c, d, more, b)
  {
    hide EffectOf, OnConnected, OnReturned, OnMerged, Assignments;
    EffectNothing(c.state, b);
    match (c.state, e)
    case (Init, ConfigLoaded) => Effect2(BindListener, Move(c, WaitingForWorkers), c.state, b);
    case (WaitingForWorkers, WorkerConnected(_)) => ConnectedEffect(c, b);
    case (Partitioning, SplitComplete(parts)) => SplitEffect(c, parts, b);
    case (Dispatching, AllDispatched) => Effect2(StartTimer, Move(c, WaitingForResults), c.state, b);
    case (WaitingForResults, PartitionReturned(_, p)) => ReturnedEffect(c, p, b);
    case (WaitingForResults, PhaseTimeout(_)) => Effect2(Move(c, Error), ShutdownAll, c.state, b);
    case (Merging, MergeComplete(net, nf)) => MergedEffect(c, net, nf, b);
    case (_, FatalError) => LoggedEffect(c, e, b);
    case (_, WorkerJoined(_)) => LoggedEffect(c, e, b);
    case (_, WorkerLeft(_, _)) => LoggedEffect(c, e, b);
    case (_, MembershipWindowClosed) => LoggedEffect(c, e, b);
    case (_, _) =>
  }

  lemma StepInv(c: Context, log: seq<Action>, loaded: bool, e: Event)
    requires Inv(c, log, loaded)
    ensures Inv(Step(c, e).0, log + Step(c, e).1, loaded)
  {
    hide LogPath, Armed, Count;
    var (d, more) := Step(c, e);
    StepEffects(c, e, Armed(log, false));
    EffectAppend(log, more);
    MergesWhole(c, log, loaded, e);
    forall i | 0 <= i < |log + more| && (d.state == Init || d.state == WaitingForWorkers) ensures !Works((log + more)[i]) {
      assert i < |log| ==> (log + more)[i] == log[i];
    }
  }

  /** Every merge request carries one partition per worker. */
  lemma MergesWhole(c: Context, log: seq<Action>, loaded: bool, e: Event)
    requires Inv(c, log, loaded)
    ensures var (d, more) := Step(c, e);
      forall i :: 0 <= i < |log + more| && (log + more)[i].InvokeMerge? ==> |(log + more)[i].partitions| == d.total
  {
    var (d, more) := Step(c, e);
    hide LogPath, Armed, Count;
    forall i | 0 <= i < |log + more| && (log + more)[i].InvokeMerge? ensures |(log + more)[i].partitions| == d.total {
      if i < |log| {
        assert (log + more)[i] == log[i];
        assert Works(log[i]);
      } else {
        assert (log + more)[i] == more[i - |log|];
      }
    }
  }

  /** The invariant holds after every sequence of events. */
  lemma {:induction false} RunInv(minWorkers: nat, net: Option<NetId>, events: seq<Event>)
    ensures var (c, log) := Run(Initial(minWorkers, net), events); Inv(c, log, net.Some?)
  {
    if events != [] {
      var (c, log) := Run(Initial(minWorkers, net), events[..|events| - 1]);
      RunInv(minWorkers, net, events[..|events| - 1]);
      StepInv(c, log, net.Some?, events[|events| - 1]);
    }
  }

  /** After Done or Error the coordinator requests no more work. */
  lemma StepQuiet(c: Context, e: Event)
    requires c.state == Done || c.state == Error
    ensures var (d, more) := Step(c, e);
      (d.state == Done || d.state == Error) && forall i :: 0 <= i < |more| ==> !Works(more[i])
  {}

  lemma {:induction false} RunQuiet(c: Context, events: seq<Event>)
    requires c.state == Done || c.state == Error
    ensures var (d, more) := Run(c, events);
      (d.state == Done || d.state == Error) && forall i :: 0 <= i < |more| ==> !Works(more[i])
  {
    if events != [] {
      RunQuiet(c, events[..|events| - 1]);
      StepQuiet(Run(c, events[..|events| - 1]).0, events[|events| - 1]);
    }
  }

  /** Over every run: the log is an unbroken path, the collect timer runs exactly
      while results are awaited, every merge gets one partition per worker, one
      split is requested per round, and output is written at most once. */
  lemma CoordinatorRun(minWorkers: nat, net: Option<NetId>, events: seq<Event>)
    ensures var (c, log) := Run(Initial(minWorkers, net), events);
      && LogPath(log, Init) == Some(c.state)
      && (c.state != Error ==> (Armed(log, false) <==> c.state == WaitingForResults))
      && (c.state == WaitingForResults ==> c.received == |c.collected|)
      && (forall i :: 0 <= i < |log| && log[i].InvokeMerge? ==> |log[i].partitions| == c.total)
      && (net.Some? ==> Count(log, Splits) == Count(log, EntersPartitioning))
      && (Count(log, EntersPartitioning) > 0 ==> Count(log, EntersPartitioning) == c.round + 1)
      && Count(log, Outputs) <= 1
  {
    RunInv(minWorkers, net, events);
  }

  /** Once output has been written, no split, dispatch, merge or output follows. */
  lemma NothingAfterOutput(minWorkers: nat, net: Option<NetId>, before: seq<Event>, after: seq<Event>)
    requires Count(Run(Initial(minWorkers, net), before).1, Outputs) > 0
    ensures var more := Run(Run(Initial(minWorkers, net), before).0, after).1;
      forall i :: 0 <= i < |more| ==> !Works(more[i])
  {
    RunInv(minWorkers, net, before);
    RunQuiet(Run(Initial(minWorkers, net), before).0, after);
  }

  /** Output is written only when a merge reports a normal form, and it is that merge's net. */
  lemma {:induction false} OutputIsNormalForm(c: Context, events: seq<Event>, net: NetId)
    requires WriteOutput(net) in Run(c, events).1
    ensures exists i :: 0 <= i < |events| && events[i] == MergeComplete(net, true)
                        && Run(c, events[..i]).0.state == Merging
  {
    var k := |events| - 1;
    var (d, log) := Run(c, events[..k]);
    if WriteOutput(net) in log {
      OutputIsNormalForm(c, events[..k], net);
      var i :| 0 <= i < k && events[..k][i] == MergeComplete(net, true) && Run(c, events[..k][..i]).0.state == Merging;
      assert events[..k][..i] == events[..i];
    } else {
      assert events[k] == MergeComplete(net, true);
    }
  }
}
