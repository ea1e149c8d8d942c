/** The worker's state and what it sent, read off the events it was given. */
module WorkerRuns {
  import opened Coordinator
  import opened Worker

  /** The state after a sequence of events, and the actions, from the start. */
  function Lived(round: nat, events: seq<WorkerEvent>): (WorkerState, seq<WorkerAction>) {
    if events == [] then (Starting, [])
    else
      var k := |events| - 1;
      var (s, log) := Lived(round, events[..k]);
      var (t, more) := React(s, round, events[k]);
      (t, log + more)
  }

  /** An event that a worker with this history was waiting for. */
  predicate Due(history: seq<WorkerEvent>, e: WorkerEvent) {
    if e.ConnectionLost? then true
    else if history == [] then e.Connected?
    else
      match history[|history| - 1]
      case Connected => e.ReceivePartition? || e.Shutdown?
      case SendComplete => e.ReceivePartition? || e.Shutdown?
      case ReceivePartition(_) => e.ReductionComplete? || e.ReductionError?
      case ReductionComplete(_) => e.SendComplete?
      case Shutdown => false
      case ReductionError => false
      case ConnectionLost => false
  }

  /** The events that counted: each was due when it came, the others were ignored. */
  function History(events: seq<WorkerEvent>): seq<WorkerEvent> {
    if events == [] then []
    else
      var k := |events| - 1;
      var h := History(events[..k]);
      if Due(h, events[k]) then h + [events[k]] else h
  }

  /** The state of a worker that has this history. */
  function StateOf(history: seq<WorkerEvent>): WorkerState {
    if history == [] then Starting
    else
      match history[|history| - 1]
      case Connected => Idle
      case SendComplete => Idle
      case ReceivePartition(_) => Reducing
      case ReductionComplete(_) => Returning
      case Shutdown => Finished
      case ReductionError => Failed
      case ConnectionLost => Failed
  }

  /** What it did, apart from its log of moves. */
  function Deeds(log: seq<WorkerAction>): seq<WorkerAction> {
    if log == [] then []
    else
      var k := |log| - 1;
      Deeds(log[..k]) + if !log[k].LogMove? then [log[k]] else []
  }

  /** What an event asks for when it is due: a result for a completed reduction, an error for a
      failed one, and the end of the connection or of the worker itself. */
  function Reply(round: nat, e: WorkerEvent): seq<WorkerAction> {
    match e
    case ReductionComplete(p) => [SendResult(round, p)]
    case ReductionError => [SendError(round)]
    case Shutdown => [CloseConnection]
    case ConnectionLost => [ShutdownSelf]
    case _ => []
  }

  function Owed(round: nat, history: seq<WorkerEvent>): seq<WorkerAction> {
    if history == [] then []
    else
      var k := |history| - 1;
      Owed(round, history[..k]) + Reply(round, history[k])
  }

  lemma DeedsMore(log: seq<WorkerAction>, more: seq<WorkerAction>)
    requires |more| <= 2
    ensures Deeds(log + more) == Deeds(log)
      + (if |more| > 0 && !more[0].LogMove? then [more[0]] else [])
      + (if |more| > 1 && !more[1].LogMove? then [more[1]] else [])
  {
    if more == [] {
      assert log + more == log;
    } else {
      var one := log + more[..1];
      assert one[..|log|] == log && (log + more)[..|log| + |more| - 1] == log + more[..|more| - 1];
      assert Deeds(one) == Deeds(log) + if !more[0].LogMove? then [more[0]] else [];
      if |more| == 1 { assert log + more == one; }
    }
  }

  /** After any list of events the state is that of the history, and what was done is what
      the history owes. */
  lemma {:induction false} StateExactly(round: nat, events: seq<WorkerEvent>)
    ensures var (s, log) := Lived(round, events);
      s == StateOf(History(events)) && Deeds(log) == Owed(round, History(events))
  {
    if events != [] {
      hide Deeds, Owed, History, Due, React, Lived, StateOf, Reply;
      var k := |events| - 1;
      StateExactly(round, events[..k]);
      var (s, log) := Lived(round, events[..k]);
      var h := History(events[..k]);
      LastLived(round, events);
      LastHistory(events);
      StepOf(round, h, events[k], s);
      DeedsMore(log, React(s, round, events[k]).1);
      OwedMore(round, h, events[k]);
    } else {
      hide React, Due, Reply;
    }
  }

  lemma LastLived(round: nat, events: seq<WorkerEvent>)
    requires events != []
    ensures var (s, log) := Lived(round, events[..|events| - 1]);
      var (t, more) := React(s, round, events[|events| - 1]);
      Lived(round, events) == (t, log + more)
  {
    hide React;
  }

  lemma LastHistory(events: seq<WorkerEvent>)
    requires events != []
    ensures var h, e := History(events[..|events| - 1]), events[|events| - 1];
      History(events) == if Due(h, e) then h + [e] else h
  {
    hide Due;
  }

  lemma OwedMore(round: nat, h: seq<WorkerEvent>, e: WorkerEvent)
    ensures Owed(round, h + [e]) == Owed(round, h) + Reply(round, e)
  {
    assert (h + [e])[..|h|] == h;
  }

  lemma StepOf(round: nat, h: seq<WorkerEvent>, e: WorkerEvent, s: WorkerState)
    requires s == StateOf(h)
    ensures var (t, more) := React(s, round, e);
      && |more| <= 2 && t == StateOf(if Due(h, e) then h + [e] else h)
      && (if |more| > 0 && !more[0].LogMove? then [more[0]] else [])
         + (if |more| > 1 && !more[1].LogMove? then [more[1]] else [])
         == if Due(h, e) then Reply(round, e) else []
  {}

  /** Once the connection is lost the worker has failed for good. */
  lemma {:induction false} LostIsFinal(round: nat, events: seq<WorkerEvent>)
    requires ConnectionLost in events
    ensures Lived(round, events).0 == Failed
  {
    var k := |events| - 1;
    assert events == events[..k] + [events[k]];
    if ConnectionLost in events[..k] { LostIsFinal(round, events[..k]); }
  }

  /** Partition after partition, reduced and sent back. */
  function Served(jobs: seq<(Partition, Partition)>): seq<WorkerEvent> {
    if jobs == [] then [Connected]
    else
      var k := |jobs| - 1;
      Served(jobs[..k]) + [ReceivePartition(jobs[k].0), ReductionComplete(jobs[k].1), SendComplete]
  }

  lemma {:induction false} ServedHistory(jobs: seq<(Partition, Partition)>)
    ensures var h := History(Served(jobs)); h == Served(jobs) && StateOf(h) == Idle
  {
    if jobs != [] {
      var k := |jobs| - 1;
      var past, p, q := Served(jobs[..k]), ReceivePartition(jobs[k].0), ReductionComplete(jobs[k].1);
      ServedHistory(jobs[..k]);
      var all := Served(jobs);
      assert all[..|past|] == past && all[..|past| + 1] == past + [p] && all[..|past| + 2] == past + [p, q] && all == all[..|past| + 3];
      assert (past + [p])[..|past|] == past && (past + [p, q])[..|past| + 1] == past + [p];
      IdleLast(past);
      assert History(past + [p]) == past + [p];
      assert History(past + [p, q]) == past + [p, q];
    }
  }

  lemma IdleLast(h: seq<WorkerEvent>)
    requires StateOf(h) == Idle
    ensures h != [] && (h[|h| - 1].Connected? || h[|h| - 1].SendComplete?)
  {}

  /** A worker serves any number of rounds, sends each result once, and is ready for more. */
  lemma ServesRounds(round: nat, jobs: seq<(Partition, Partition)>)
    ensures var (s, log) := Lived(round, Served(jobs)); s == Idle && Deeds(log) == seq(|jobs|, i requires 0 <= i < |jobs| => SendResult(round, jobs[i].1))
  {
    StateExactly(round, Served(jobs));
    ServedHistory(jobs);
    OwedServed(round, jobs);
    hide Lived, Deeds, History, Served;
  }

  lemma {:induction false} OwedServed(round: nat, jobs: seq<(Partition, Partition)>)
    ensures Owed(round, Served(jobs)) == seq(|jobs|, i requires 0 <= i < |jobs| => SendResult(round, jobs[i].1))
  {
    if jobs == [] {
      assert Owed(round, [Connected]) == [] by { assert [Connected][..0] == []; }
    } else {
      var k := |jobs| - 1;
      OwedServed(round, jobs[..k]);
      var past, p, q := Served(jobs[..k]), ReceivePartition(jobs[k].0), ReductionComplete(jobs[k].1);
      OwedMore(round, past, p);
      OwedMore(round, past + [p], q);
      OwedMore(round, past + [p] + [q], SendComplete);
      assert past + [p] + [q] + [SendComplete] == Served(jobs);
    }
  }
}
