/** Pull dispatch: workers ask for chunks until the stream is exhausted. */
module Pull {
  datatype PullState =
    | DispatchingFirst | AwaitingResults | GeneratingNext | SendingNoMoreWork | AwaitingFinalResults | MergingResults

  datatype PullEvent =
    | FirstChunkDispatched
    | RequestWorkReceived(worker: nat)
    | PartitionResultReceived(worker: nat)
    | ChunkAllocatedAndDispatched
    | AllWorkersAckedNoMoreWork
    | AllFinalResultsReceived

  datatype Verdict = Accepted | UnexpectedEvent | WorkerIdMismatch

  datatype Context = Context(state: PullState, workers: nat, exhausted: bool, pending: seq<nat>, merged: bool, consumed: nat)

  function Initial(workers: nat): Context {
    Context(DispatchingFirst, workers, false, [], false, 0)
  }

  /** One event; a rejected one changes nothing. */
  function Step(c: Context, e: PullEvent): (Context, Verdict) {
    match (c.state, e)
    case (DispatchingFirst, FirstChunkDispatched) => (c.(state := AwaitingResults), Accepted)
    case (AwaitingResults, PartitionResultReceived(w)) => (c.(pending := c.pending + [w]), Accepted)
    case (AwaitingResults, RequestWorkReceived(_)) =>
      (c.(state := if c.exhausted then SendingNoMoreWork else GeneratingNext), Accepted)
    case (GeneratingNext, ChunkAllocatedAndDispatched) => (c.(state := AwaitingResults), Accepted)
    case (SendingNoMoreWork, AllWorkersAckedNoMoreWork) => (c.(state := AwaitingFinalResults), Accepted)
    case (AwaitingFinalResults, AllFinalResultsReceived) =>
      (c.(state := MergingResults, merged := true, consumed := |c.pending|), Accepted)
    case (_, _) => (c, UnexpectedEvent)
  }

  class CoordinatorPullContext {
    var state: PullState
    const workers: nat
    var exhausted: bool
    var pending: seq<nat>
    var merged: bool
    var consumed: nat

    constructor (workers: nat)
      ensures View() == Initial(workers)
    {
      this.workers := workers;
      state, exhausted, pending, merged, consumed := DispatchingFirst, false, [], false, 0;
    }

    function View(): Context
      reads this
    {
      Context(state, workers, exhausted, pending, merged, consumed)
    }

    method TryTransition(e: PullEvent) returns (v: Verdict)
      modifies this
      ensures (View(), v) == Step(old(View()), e)
    {
      var next;
      match (state, e) {
        case (DispatchingFirst, FirstChunkDispatched) => next := AwaitingResults;
        case (AwaitingResults, PartitionResultReceived(w)) =>
          pending := pending + [w];
          next := AwaitingResults;
        case (AwaitingResults, RequestWorkReceived(_)) =>
          if !exhausted { next := GeneratingNext; } else { next := SendingNoMoreWork; }
        case (GeneratingNext, ChunkAllocatedAndDispatched) => next := AwaitingResults;
        case (SendingNoMoreWork, AllWorkersAckedNoMoreWork) => next := AwaitingFinalResults;
        case (AwaitingFinalResults, AllFinalResultsReceived) =>
          merged := true;
          consumed := |pending|;
          next := MergingResults;
        case (_, _) => return UnexpectedEvent;
      }
      state := next;
      v := Accepted;
    }

    /** A request counts only on the connection of the worker it names. */
    method TryTransitionRequestWork(body: nat, connection: nat) returns (v: Verdict)
      modifies this
      ensures body != connection ==> v == WorkerIdMismatch && View() == old(View())
      ensures body == connection ==> (View(), v) == Step(old(View()), RequestWorkReceived(body))
    {
      if body != connection { return WorkerIdMismatch; }
      v := TryTransition(RequestWorkReceived(body));
    }
  }

  // --------------------------------------------------------------------------- runs

  /** What can happen: an event, a request with the identity of its connection, or the
      stream running dry. */
  datatype Input = Deliver(event: PullEvent) | Request(body: nat, connection: nat) | Exhaust

  function Feed(c: Context, i: Input): (Context, Verdict) {
    match i
    case Deliver(e) => Step(c, e)
    case Request(b, conn) => if b != conn then (c, WorkerIdMismatch) else Step(c, RequestWorkReceived(b))
    case Exhaust => (c.(exhausted := true), Accepted)
  }

  /** An accepted input and the states around it. */
  datatype Entry = Entry(input: Input, before: PullState, after: PullState)

  function Run(c: Context, inputs: seq<Input>): (Context, seq<Entry>) {
    if inputs == [] then (c, [])
    else
      var (d, log) := Run(c, inputs[..|inputs| - 1]);
      var i := inputs[|inputs| - 1];
      var (e, v) := Feed(d, i);
      (e, if v.Accepted? && !i.Exhaust? then log + [Entry(i, d.state, e.state)] else log)
  }

  function EventOf(i: Input): PullEvent {
    match i
    case Deliver(e) => e
    case Request(b, _) => RequestWorkReceived(b)
    case Exhaust => FirstChunkDispatched
  }

  predicate Dispatches(x: Entry) { EventOf(x.input).FirstChunkDispatched? || EventOf(x.input).ChunkAllocatedAndDispatched? }
  predicate Serves(x: Entry) { EventOf(x.input).RequestWorkReceived? && x.after.GeneratingNext? }
  predicate Merges(x: Entry) { x.after.MergingResults? }
  predicate Buffers(x: Entry) { EventOf(x.input).PartitionResultReceived? }

  function Count(log: seq<Entry>, p: Entry -> bool): nat {
    if log == [] then 0 else Count(log[..|log| - 1], p) + if p(log[|log| - 1]) then 1 else 0
  }

  /** The workers whose results were accepted, in order. */
  function Buffered(log: seq<Entry>): seq<nat> {
    if log == [] then []
    else
      var x := log[|log| - 1];
      Buffered(log[..|log| - 1]) + if EventOf(x.input).PartitionResultReceived? then [EventOf(x.input).worker] else []
  }

  lemma CountMore(log: seq<Entry>, x: Entry, p: Entry -> bool)
    ensures Count(log + [x], p) == Count(log, p) + if p(x) then 1 else 0
  {
    assert (log + [x])[..|log|] == log;
  }

  lemma BufferedMore(log: seq<Entry>, x: Entry)
    ensures Buffered(log + [x]) ==
      Buffered(log) + if EventOf(x.input).PartitionResultReceived? then [EventOf(x.input).worker] else []
  {
    assert (log + [x])[..|log|] == log;
  }

  ghost predicate Inv(c: Context, log: seq<Entry>) {
    && Count(log, Dispatches) + (if c.state.GeneratingNext? then 1 else 0)
       == Count(log, Serves) + (if c.state.DispatchingFirst? then 0 else 1)
    && Count(log, Merges) == (if c.state.MergingResults? then 1 else 0)
    && c.pending == Buffered(log)
    && c.merged == c.state.MergingResults?
    && c.consumed == (if c.state.MergingResults? then |c.pending| else 0)
  }

  lemma StepInv(c: Context, log: seq<Entry>, e: PullEvent, i: Input)
    requires Inv(c, log) && !i.Exhaust? && EventOf(i) == e
    ensures var (d, v) := Step(c, e); Inv(d, if v.Accepted? then log + [Entry(i, c.state, d.state)] else log)
  {
    var (d, v) := Step(c, e);
    var x := Entry(i, c.state, d.state);
    CountMore(log, x, Dispatches);
    CountMore(log, x, Serves);
    CountMore(log, x, Merges);
    BufferedMore(log, x);
    hide Count, Buffered;
  }

  lemma {:induction false} RunInv(workers: nat, inputs: seq<Input>)
    ensures var (c, log) := Run(Initial(workers), inputs); Inv(c, log)
  {
    hide Inv, Step;
    if inputs == [] {
      EmptyInv(workers);
    } else {
      var k := |inputs| - 1;
      RunInv(workers, inputs[..k]);
      var (c, log) := Run(Initial(workers), inputs[..k]);
      match inputs[k]
      case Deliver(e) => StepInv(c, log, e, inputs[k]);
      case Request(b, conn) => StepInv(c, log, RequestWorkReceived(b), inputs[k]);
      case Exhaust => ExhaustInv(c, log);
    }
  }

  lemma EmptyInv(workers: nat)
    ensures Inv(Initial(workers), [])
  {}

  lemma ExhaustInv(c: Context, log: seq<Entry>)
    requires Inv(c, log)
    ensures Inv(c.(exhausted := true), log)
  {}

  /** In every run: the chunks sent out are the first one and one per request served,
      but for one still being generated; merging happens at most once, and consumes
      exactly the results that were accepted. */
  lemma PullRun(workers: nat, inputs: seq<Input>)
    ensures var (c, log) := Run(Initial(workers), inputs);
      && (!c.state.DispatchingFirst? ==>
            Count(log, Dispatches) == 1 + Count(log, Serves) - if c.state.GeneratingNext? then 1 else 0)
      && (c.state.DispatchingFirst? ==> Count(log, Dispatches) == 0)
      && Count(log, Merges) <= 1
      && (c.merged ==> c.consumed == |Buffered(log)|)
      && c.pending == Buffered(log)
  {
    RunInv(workers, inputs);
  }

  /** The inputs of a run that are accepted, in order. */
  function AcceptedOnly(c: Context, inputs: seq<Input>): seq<Input> {
    if inputs == [] then []
    else
      var k := |inputs| - 1;
      var rest := AcceptedOnly(c, inputs[..k]);
      if Feed(Run(c, inputs[..k]).0, inputs[k]).1.Accepted? then rest + [inputs[k]] else rest
  }

  /** Rejected inputs might as well not have come: the run without them ends in the same
      context with the same log. */
  lemma {:induction false} RejectedIgnored(c: Context, inputs: seq<Input>)
    ensures Run(c, AcceptedOnly(c, inputs)) == Run(c, inputs)
  {
    if inputs != [] {
      var k := |inputs| - 1;
      RejectedIgnored(c, inputs[..k]);
      var rest := AcceptedOnly(c, inputs[..k]);
      assert (rest + [inputs[k]])[..|rest|] == rest;
    }
  }

  predicate Winding(s: PullState) {
    s.SendingNoMoreWork? || s.AwaitingFinalResults? || s.MergingResults?
  }

  /** Once the coordinator says there is no more work it neither sends nor buffers
      anything: results that arrive later are rejected. */
  lemma {:induction false} NothingAfterNoMoreWork(c: Context, inputs: seq<Input>)
    requires Winding(c.state)
    ensures var (d, log) := Run(c, inputs);
      Winding(d.state) && d.pending == c.pending && forall i :: 0 <= i < |log| ==> !Dispatches(log[i]) && !Buffers(log[i])
  {
    if inputs != [] {
      var k := |inputs| - 1;
      NothingAfterNoMoreWork(c, inputs[..k]);
      WindingStep(Run(c, inputs[..k]).0, inputs[k]);
    }
  }

  lemma WindingStep(c: Context, i: Input)
    requires Winding(c.state)
    ensures var (d, v) := Feed(c, i);
      && Winding(d.state) && d.pending == c.pending
      && (v.Accepted? && !i.Exhaust? ==>
            !EventOf(i).FirstChunkDispatched? && !EventOf(i).ChunkAllocatedAndDispatched? && !EventOf(i).PartitionResultReceived?)
  {}

  // ------------------------------------------------- the answers, from the inputs alone

  /** A request for work that is not refused for its identity. */
  predicate Asks(i: Input) {
    (i.Deliver? && i.event.RequestWorkReceived?) || (i.Request? && i.body == i.connection)
  }

  function StateAfter(workers: nat, inputs: seq<Input>): PullState {
    Run(Initial(workers), inputs).0.state
  }

  /** The input at `j` is a request for work, made while the coordinator awaits them. */
  predicate RequestAt(workers: nat, inputs: seq<Input>, j: nat) {
    j < |inputs| && Asks(inputs[j]) && StateAfter(workers, inputs[..j]).AwaitingResults?
  }

  /** The coordinator knows that the stream is dry exactly if it was told. */
  lemma {:induction false} ExhaustedExactly(workers: nat, inputs: seq<Input>)
    ensures Run(Initial(workers), inputs).0.exhausted <==> Exhaust in inputs
  {
    if inputs != [] {
      var k := |inputs| - 1;
      ExhaustedExactly(workers, inputs[..k]);
      assert inputs == inputs[..k] + [inputs[k]];
    }
  }

  lemma RunMore(workers: nat, inputs: seq<Input>, j: nat)
    requires j < |inputs|
    ensures Run(Initial(workers), inputs[..j + 1]).0 == Feed(Run(Initial(workers), inputs[..j]).0, inputs[j]).0
  {
    assert inputs[..j + 1][..j] == inputs[..j];
  }

  /** A request made before the stream is dry is served; one made after it is told that there
      is no more work. */
  lemma RequestAnswered(workers: nat, inputs: seq<Input>, j: nat)
    requires RequestAt(workers, inputs, j)
    ensures StateAfter(workers, inputs[..j + 1]) == if Exhaust in inputs[..j] then SendingNoMoreWork else GeneratingNext
  {
    RunMore(workers, inputs, j);
    ExhaustedExactly(workers, inputs[..j]);
    hide Run;
  }

  /** The winding phase begins at the input `j`. */
  predicate WindsAt(workers: nat, inputs: seq<Input>, j: nat) {
    RequestAt(workers, inputs, j) && Exhaust in inputs[..j]
  }

  /** The coordinator is winding up exactly if a request came after the stream was dry. */
  lemma {:induction false} WindingExactly(workers: nat, inputs: seq<Input>)
    ensures Winding(StateAfter(workers, inputs)) <==> exists j: nat :: WindsAt(workers, inputs, j)
  {
    if inputs != [] {
      var k := |inputs| - 1;
      var before := inputs[..k];
      WindingExactly(workers, before);
      RunMore(workers, inputs, k);
      assert inputs[..k + 1] == inputs;
      ExhaustedExactly(workers, before);
      hide Run;
      assert forall j: nat :: j < k ==> inputs[..k][..j] == inputs[..j];
      assert forall j: nat :: j < k ==> (WindsAt(workers, inputs, j) <==> WindsAt(workers, before, j));
      if Winding(StateAfter(workers, before)) {
        var j: nat :| WindsAt(workers, before, j);
        assert WindsAt(workers, inputs, j);
      }
      if Winding(StateAfter(workers, inputs)) && !Winding(StateAfter(workers, before)) {
        assert WindsAt(workers, inputs, k);
      }
    }
  }

  /** And from the first such request on: before it the coordinator was not winding up. */
  lemma WindingStarts(workers: nat, inputs: seq<Input>, j: nat)
    requires WindsAt(workers, inputs, j) && forall i: nat :: i < j ==> !WindsAt(workers, inputs, i)
    ensures forall l: nat :: l <= |inputs| ==> (Winding(StateAfter(workers, inputs[..l])) <==> l > j)
  {
    forall l: nat | l <= |inputs| ensures Winding(StateAfter(workers, inputs[..l])) <==> l > j {
      WindingExactly(workers, inputs[..l]);
      assert forall i: nat :: i < l ==> inputs[..l][..i] == inputs[..i];
      hide StateAfter;
      if l > j { assert WindsAt(workers, inputs[..l], j); }
      if i: nat :| WindsAt(workers, inputs[..l], i) { assert WindsAt(workers, inputs, i); }
    }
  }

  /** While a chunk is being generated, the request it answers is the latest one, and it came
      before the stream was dry. */
  lemma {:induction false} ChunkIsAsked(workers: nat, inputs: seq<Input>) returns (j: nat)
    requires StateAfter(workers, inputs).GeneratingNext?
    ensures RequestAt(workers, inputs, j) && Exhaust !in inputs[..j]
    ensures forall l: nat :: j < l <= |inputs| ==> StateAfter(workers, inputs[..l]).GeneratingNext?
  {
    var k := |inputs| - 1;
    RunMore(workers, inputs, k);
    assert inputs[..k + 1] == inputs;
    ExhaustedExactly(workers, inputs[..k]);
    assert forall l: nat :: l <= k ==> inputs[..k][..l] == inputs[..l];
    if StateAfter(workers, inputs[..k]).GeneratingNext? {
      j := ChunkIsAsked(workers, inputs[..k]);
      assert forall l: nat :: j < l <= k ==> inputs[..l] == inputs[..k][..l];
    } else {
      j := k;
    }
  }

  /** So no chunk is sent out for a request that came after the stream was dry. */
  lemma ChunkBeforeDry(workers: nat, inputs: seq<Input>, i: nat) returns (j: nat)
    requires i < |inputs| && inputs[i] == Deliver(ChunkAllocatedAndDispatched)
    requires Feed(Run(Initial(workers), inputs[..i]).0, inputs[i]).1.Accepted?
    ensures j < i && RequestAt(workers, inputs, j) && Exhaust !in inputs[..j]
    ensures forall l: nat :: j < l <= i ==> StateAfter(workers, inputs[..l]).GeneratingNext?
  {
    j := ChunkIsAsked(workers, inputs[..i]);
    assert inputs[..i][..j] == inputs[..j];
    assert forall l: nat :: l <= i ==> inputs[..i][..l] == inputs[..l];
  }

  /** Nothing happens before the first chunk is out. */
  lemma {:induction false} FirstChunkOpens(workers: nat, inputs: seq<Input>)
    ensures StateAfter(workers, inputs).DispatchingFirst? <==> Deliver(FirstChunkDispatched) !in inputs
  {
    if inputs != [] {
      var k := |inputs| - 1;
      FirstChunkOpens(workers, inputs[..k]);
      RunMore(workers, inputs, k);
      assert inputs[..k + 1] == inputs && inputs == inputs[..k] + [inputs[k]];
    }
  }

  /** The workers whose results arrived while results were awaited, in order. */
  function Arrived(workers: nat, inputs: seq<Input>): seq<nat> {
    if inputs == [] then []
    else
      var k := |inputs| - 1;
      var i := inputs[k];
      Arrived(workers, inputs[..k])
        + if i.Deliver? && i.event.PartitionResultReceived? && StateAfter(workers, inputs[..k]).AwaitingResults? then [i.event.worker] else []
  }

  lemma FeedPending(c: Context, i: Input)
    ensures Feed(c, i).0.pending ==
      c.pending + if i.Deliver? && i.event.PartitionResultReceived? && c.state.AwaitingResults? then [i.event.worker] else []
  {}

  lemma {:induction false} PendingArrived(workers: nat, inputs: seq<Input>)
    ensures Run(Initial(workers), inputs).0.pending == Arrived(workers, inputs)
  {
    if inputs != [] {
      hide Feed, Run;
      var k := |inputs| - 1;
      PendingArrived(workers, inputs[..k]);
      RunMore(workers, inputs, k);
      assert inputs[..k + 1] == inputs;
      FeedPending(Run(Initial(workers), inputs[..k]).0, inputs[k]);
    } else {
      assert Arrived(workers, inputs) == [];
    }
  }

  /** Exactly those are buffered, and merged in the end. */
  lemma ResultsBuffered(workers: nat, inputs: seq<Input>)
    ensures var c := Run(Initial(workers), inputs).0;
      c.pending == Arrived(workers, inputs) && (c.merged ==> c.consumed == |Arrived(workers, inputs)|)
  {
    hide Run, Arrived, Count, Buffered;
    PendingArrived(workers, inputs);
    RunInv(workers, inputs);
  }

  /** A chunk that is sent out makes the coordinator await results again. */
  lemma ChunkReturns(workers: nat, inputs: seq<Input>)
    requires StateAfter(workers, inputs).GeneratingNext?
    ensures StateAfter(workers, inputs + [Deliver(ChunkAllocatedAndDispatched)]).AwaitingResults?
  {
    assert (inputs + [Deliver(ChunkAllocatedAndDispatched)])[..|inputs|] == inputs;
  }

  /** The final results were all received at `j`, after all workers had acknowledged at `i`. */
  predicate Acknowledged(inputs: seq<Input>, i: nat, j: nat) {
    i < j < |inputs| && inputs[i] == Deliver(AllWorkersAckedNoMoreWork) && inputs[j] == Deliver(AllFinalResultsReceived)
  }

  /** The stages of winding up, from what is delivered after it begins. */
  lemma {:induction false} WindingStages(c: Context, inputs: seq<Input>)
    requires c.state.SendingNoMoreWork?
    ensures var s := Run(c, inputs).0.state;
      && (s.SendingNoMoreWork? <==> Deliver(AllWorkersAckedNoMoreWork) !in inputs)
      && (s.MergingResults? <==> exists i: nat, j: nat :: Acknowledged(inputs, i, j)) && Winding(s)
  {
    if inputs != [] {
      var k := |inputs| - 1;
      var before := inputs[..k];
      WindingStages(c, before);
      assert inputs == before + [inputs[k]];
      forall i: nat, j: nat | j < k ensures Acknowledged(inputs, i, j) <==> Acknowledged(before, i, j) {}
      if i: nat, j: nat :| Acknowledged(before, i, j) { assert Acknowledged(inputs, i, j); }
      if inputs[k] == Deliver(AllFinalResultsReceived) && Deliver(AllWorkersAckedNoMoreWork) in before {
        var i: nat :| i < k && before[i] == Deliver(AllWorkersAckedNoMoreWork);
        assert Acknowledged(inputs, i, k);
      }
    }
  }

  // ------------------------------------------------------------------------- the worker

  datatype WorkerPullState = AwaitingChunkAfterResult | FinalReduction

  datatype WorkerPullEvent =
    | ChunkReductionComplete(worker: nat)
    | AssignPartitionReceived(worker: nat)
    | NoMoreWorkReceived
    | FinalReductionComplete
    | UnexpectedAssignPartition

  /** The two flags of the worker's net that gate the reuse of ids. */
  datatype Flags = Flags(streaming: bool, deltaRound: bool)

  datatype WorkerView = WorkerView(state: WorkerPullState, streaming: bool, requests: nat, finals: nat)

  function WorkerStep(w: WorkerView, e: WorkerPullEvent): (WorkerView, bool) {
    match (w.state, e)
    case (AwaitingChunkAfterResult, AssignPartitionReceived(_)) => (w.(streaming := true), true)
    case (AwaitingChunkAfterResult, NoMoreWorkReceived) => (w.(state := FinalReduction), true)
    case (AwaitingChunkAfterResult, ChunkReductionComplete(_)) => (w.(requests := w.requests + 1), true)
    case (FinalReduction, FinalReductionComplete) => (w.(finals := w.finals + 1, streaming := false), true)
    case (_, _) => (w, false)
  }

  class WorkerPullContext {
    var state: WorkerPullState
    const worker: nat
    var streaming: bool
    var requests: nat
    var finals: nat

    constructor (worker: nat)
      ensures View() == WorkerView(AwaitingChunkAfterResult, false, 0, 0)
    {
      this.worker := worker;
      state, streaming, requests, finals := AwaitingChunkAfterResult, false, 0, 0;
    }

    function View(): WorkerView
      reads this
    {
      WorkerView(state, streaming, requests, finals)
    }

    method TryTransition(e: WorkerPullEvent) returns (ok: bool)
      modifies this
      ensures (View(), ok) == WorkerStep(old(View()), e)
    {
      match (state, e) {
        case (AwaitingChunkAfterResult, AssignPartitionReceived(_)) => streaming := true;
        case (AwaitingChunkAfterResult, NoMoreWorkReceived) => state := FinalReduction;
        case (AwaitingChunkAfterResult, ChunkReductionComplete(_)) => requests := requests + 1;
        case (FinalReduction, FinalReductionComplete) =>
          finals := finals + 1;
          streaming := false;
        case (_, _) => return false;
      }
      ok := true;
    }

    /** The net's streaming flag follows the worker's, and its delta flag is left alone. */
    method TryTransitionWithNet(e: WorkerPullEvent, net: Flags) returns (ok: bool, after: Flags)
      modifies this
      ensures (View(), ok) == WorkerStep(old(View()), e)
      ensures after.deltaRound == net.deltaRound
      ensures net.streaming == old(streaming) ==> after.streaming == streaming
      ensures after == Mirrored(net, old(streaming), streaming)
    {
      var was := streaming;
      after := net;
      ok := TryTransition(e);
      if !ok { return; }
      if !was && streaming { after := net.(streaming := true); }
      if was && !streaming { after := net.(streaming := false); }
    }
  }

  /** Only an edge of the worker's flag moves the net's. */
  function Mirrored(net: Flags, was: bool, streaming: bool): Flags {
    if was != streaming then net.(streaming := streaming) else net
  }

  function WorkerRun(w: WorkerView, net: Flags, events: seq<WorkerPullEvent>): (WorkerView, Flags) {
    if events == [] then (w, net)
    else
      var (v, f) := WorkerRun(w, net, events[..|events| - 1]);
      var (u, _) := WorkerStep(v, events[|events| - 1]);
      (u, Mirrored(f, v.streaming, u.streaming))
  }

  /** Over every run the two streaming flags agree and the delta flag never moves. */
  lemma {:induction false} FlagsAgree(w: WorkerView, net: Flags, events: seq<WorkerPullEvent>)
    requires net.streaming == w.streaming
    ensures var (v, f) := WorkerRun(w, net, events); f.streaming == v.streaming && f.deltaRound == net.deltaRound
  {
    if events != [] { FlagsAgree(w, net, events[..|events| - 1]); }
  }

  const JOINED: WorkerView := WorkerView(AwaitingChunkAfterResult, false, 0, 0)

  /** The event at `i` completes the final reduction after the worker was told to stop. */
  predicate LateAt(events: seq<WorkerPullEvent>, i: nat) {
    i < |events| && events[i].FinalReductionComplete? && NoMoreWorkReceived in events[..i]
  }

  ghost function Late(events: seq<WorkerPullEvent>): set<nat> {
    set i | 0 <= i < |events| && LateAt(events, i)
  }

  lemma LateMore(events: seq<WorkerPullEvent>, e: WorkerPullEvent)
    ensures |Late(events + [e])| ==
      |Late(events)| + if e.FinalReductionComplete? && NoMoreWorkReceived in events then 1 else 0
  {
    var more, k := events + [e], |events|;
    assert more[..k] == events;
    forall i | 0 <= i < k ensures LateAt(more, i) <==> LateAt(events, i) { assert more[..i] == events[..i]; }
    assert Late(more) == Late(events) + if LateAt(more, k) then {k} else {};
  }

  /** Over every run of a worker, the final results it counts are exactly the completions
      delivered after it was told that there is no more work: the state machine stays in its
      last state and accepts each of them. */
  lemma {:induction false} FinalsCounted(net: Flags, events: seq<WorkerPullEvent>)
    ensures var v := WorkerRun(JOINED, net, events).0;
      (v.state.FinalReduction? <==> NoMoreWorkReceived in events) && v.finals == |Late(events)|
  {
    if events == [] {
      assert Late(events) == {};
    } else {
      var k := |events| - 1;
      FinalsCounted(net, events[..k]);
      assert events == events[..k] + [events[k]];
      LateMore(events[..k], events[k]);
    }
  }

  /** So there is at most one final result exactly if at most one such completion comes. */
  lemma AtMostOneFinal(net: Flags, events: seq<WorkerPullEvent>)
    ensures WorkerRun(JOINED, net, events).0.finals <= 1 <==>
      forall i: nat, j: nat :: LateAt(events, i) && LateAt(events, j) ==> i == j
  {
    hide WorkerRun;
    FinalsCounted(net, events);
    var late := Late(events);
    if forall i: nat, j: nat :: LateAt(events, i) && LateAt(events, j) ==> i == j {
      if i: nat :| LateAt(events, i) {
        assert late == {i};
      } else {
        assert late == {};
      }
    }
    if i: nat, j: nat :| LateAt(events, i) && LateAt(events, j) && i != j {
      assert {i, j} <= late;
      SubsetSize({i, j}, late);
    }
  }

  lemma {:induction false} SubsetSize(s: set<nat>, t: set<nat>)
    requires s <= t
    ensures |s| <= |t|
  {
    if s != {} {
      var x :| x in s;
      SubsetSize(s - {x}, t - {x});
    }
  }

  /** The event at `i` completes a chunk before the worker was told to stop. */
  predicate EarlyAt(events: seq<WorkerPullEvent>, i: nat) {
    i < |events| && events[i].ChunkReductionComplete? && NoMoreWorkReceived !in events[..i]
  }

  ghost function Early(events: seq<WorkerPullEvent>): set<nat> {
    set i | 0 <= i < |events| && EarlyAt(events, i)
  }

  lemma EarlyMore(events: seq<WorkerPullEvent>, e: WorkerPullEvent)
    ensures |Early(events + [e])| ==
      |Early(events)| + if e.ChunkReductionComplete? && NoMoreWorkReceived !in events then 1 else 0
  {
    var more, k := events + [e], |events|;
    assert more[..k] == events;
    forall i | 0 <= i < k ensures EarlyAt(more, i) <==> EarlyAt(events, i) { assert more[..i] == events[..i]; }
    assert Early(more) == Early(events) + if EarlyAt(more, k) then {k} else {};
  }

  /** Over every run the requests sent are the chunks completed before the worker was told
      that there is no more work. */
  lemma {:induction false} RequestsCounted(net: Flags, events: seq<WorkerPullEvent>)
    ensures WorkerRun(JOINED, net, events).0.requests == |Early(events)|
  {
    FinalsCounted(net, events);
    if events == [] {
      assert Early(events) == {};
    } else {
      var k := |events| - 1;
      RequestsCounted(net, events[..k]);
      FinalsCounted(net, events[..k]);
      assert events == events[..k] + [events[k]];
      EarlyMore(events[..k], events[k]);
    }
  }

  /** The event at `i` assigns a chunk before the worker was told to stop. */
  predicate AssignedAt(events: seq<WorkerPullEvent>, i: nat) {
    i < |events| && events[i].AssignPartitionReceived? && NoMoreWorkReceived !in events[..i]
  }

  /** Over every run the worker streams from its first assignment to its first final result. */
  lemma {:induction false} StreamingExactly(net: Flags, events: seq<WorkerPullEvent>)
    ensures WorkerRun(JOINED, net, events).0.streaming <==>
      (exists i: nat :: AssignedAt(events, i)) && (forall i: nat :: !LateAt(events, i))
  {
    FinalsCounted(net, events);
    if events != [] {
      var k := |events| - 1;
      StreamingExactly(net, events[..k]);
      FinalsCounted(net, events[..k]);
      assert events == events[..k] + [events[k]];
      forall i: nat | i < k
        ensures AssignedAt(events, i) <==> AssignedAt(events[..k], i)
        ensures LateAt(events, i) <==> LateAt(events[..k], i)
      {
        assert events[..k][..i] == events[..i];
      }
      if i: nat :| AssignedAt(events[..k], i) { assert AssignedAt(events, i); }
      if i: nat :| LateAt(events[..k], i) { assert LateAt(events, i); }
      assert AssignedAt(events, k) <==> events[k].AssignPartitionReceived? && NoMoreWorkReceived !in events[..k];
      assert LateAt(events, k) <==> events[k].FinalReductionComplete? && NoMoreWorkReceived in events[..k];
      assert NoMoreWorkReceived !in events[..k] ==> forall i: nat :: i < k ==> !LateAt(events, i) by { NotLate(events, k); }
    }
  }

  lemma NotLate(events: seq<WorkerPullEvent>, k: nat)
    requires k <= |events|
    ensures NoMoreWorkReceived !in events[..k] ==> forall i: nat :: i < k ==> !LateAt(events, i)
  {
    forall i: nat | i < k && NoMoreWorkReceived !in events[..k] ensures !LateAt(events, i) {
      assert events[..i] <= events[..k];
    }
  }

  /** An instance: two completions after the stop count as two final results. */
  lemma FinalResultRepeats(net: Flags)
    ensures WorkerRun(JOINED, net, [NoMoreWorkReceived, FinalReductionComplete, FinalReductionComplete]).0.finals > 1
  {
    hide WorkerRun;
    var events := [NoMoreWorkReceived, FinalReductionComplete, FinalReductionComplete];
    assert events[..1][0] == NoMoreWorkReceived && events[..2][0] == NoMoreWorkReceived;
    assert LateAt(events, 1) && LateAt(events, 2);
    AtMostOneFinal(net, events);
  }
}
