/** The coordinator state machine. Nets and partition bodies are opaque here. */
module Coordinator {
  import opened Nets

  type NetId = nat
  type WorkerId = nat

  /** A piece of the net, tagged with the worker it was cut for. */
  datatype Partition = Partition(worker: WorkerId, body: NetId)

  datatype State =
    | Init | WaitingForWorkers | Partitioning | Dispatching | WaitingForResults
    | Merging | CheckTermination | Done | Error

  datatype LeaveKind = AfterResult | Urgent

  datatype Event =
    | ConfigLoaded
    | WorkerConnected(id: WorkerId)
    | SplitComplete(partitions: seq<Partition>)
    | AllDispatched
    | PartitionReturned(from: WorkerId, partition: Partition)
    | PhaseTimeout(id: WorkerId)
    | MergeComplete(net: NetId, isNormalForm: bool)
    | FatalError
    | WorkerJoined(id: WorkerId)
    | WorkerLeft(id: WorkerId, kind: LeaveKind)
    | MembershipWindowClosed
    | OtherEvent

  datatype Action =
    | BindListener
    | Assign(to: WorkerId, round: nat, partition: Partition)
    | InvokeSplit(net: NetId, workers: nat)
    | InvokeMerge(partitions: seq<Partition>)
    | StartTimer | CancelTimer
    | LogTransition(before: State, after: State)
    | WriteOutput(net: NetId)
    | ShutdownAll
    | QueueForNextWindow(id: WorkerId) | LogJoin(id: WorkerId)
    | RemoveWorker(id: WorkerId) | LogDeparture(id: WorkerId, kind: LeaveKind)

  /** The mutable fields of the coordinator, as a value. */
  datatype Context = Context(state: State, minWorkers: nat, connected: nat, received: nat, total: nat,
                             collected: seq<Partition>, round: nat, net: Option<NetId>)

  function Initial(minWorkers: nat, net: Option<NetId>): Context {
    Context(Init, minWorkers, 0, 0, minWorkers, [], 0, net)
  }

  predicate ActiveRound(s: State) {
    s.Partitioning? || s.Dispatching? || s.WaitingForResults? || s.Merging?
  }

  function Assignments(parts: seq<Partition>, round: nat): seq<Action> {
    seq(|parts|, i requires 0 <= i < |parts| => Assign(i, round, parts[i]))
  }

  function Move(c: Context, s: State): Action {
    LogTransition(c.state, s)
  }

  function OnConnected(c: Context): (Context, seq<Action>) {
    var d := c.(connected := c.connected + 1);
    if d.connected < d.minWorkers then (d, [Move(c, c.state)])
    else
      var e := d.(total := d.connected, state := Partitioning, net := None);
      (e, (if c.net.Some? then [InvokeSplit(c.net.value, e.total)] else []) + [Move(c, Partitioning)])
  }

  function OnReturned(c: Context, p: Partition): (Context, seq<Action>) {
    var d := c.(received := c.received + 1, collected := c.collected + [p]);
    if d.received < d.total then (d, [])
    else (d.(state := Merging, collected := []), [CancelTimer, InvokeMerge(d.collected), Move(c, Merging)])
  }

  function OnMerged(c: Context, net: NetId, isNormalForm: bool): (Context, seq<Action>) {
    if isNormalForm then
      (c.(state := Done),
       [Move(c, CheckTermination), WriteOutput(net), ShutdownAll, LogTransition(CheckTermination, Done)])
    else
      (c.(state := Partitioning, round := c.round + 1),
       [Move(c, CheckTermination), InvokeSplit(net, c.total), LogTransition(CheckTermination, Partitioning)])
  }

  /** What one event does: the new context and the actions for the runtime. */
  function Step(c: Context, e: Event): (Context, seq<Action>) {
    match (c.state, e)
    case (Init, ConfigLoaded) => (c.(state := WaitingForWorkers), [BindListener, Move(c, WaitingForWorkers)])
    case (WaitingForWorkers, WorkerConnected(_)) => OnConnected(c)
    case (Partitioning, SplitComplete(parts)) =>
      (c.(state := Dispatching), Assignments(parts, c.round) + [Move(c, Dispatching)])
    case (Dispatching, AllDispatched) =>
      (c.(state := WaitingForResults, received := 0, collected := []), [StartTimer, Move(c, WaitingForResults)])
    case (WaitingForResults, PartitionReturned(_, p)) => OnReturned(c, p)
    case (WaitingForResults, PhaseTimeout(_)) => (c.(state := Error), [Move(c, Error), ShutdownAll])
    case (Merging, MergeComplete(net, nf)) => OnMerged(c, net, nf)
    case (_, FatalError) => (c.(state := Error), [Move(c, Error), ShutdownAll])
    case (_, WorkerJoined(id)) =>
      if ActiveRound(c.state) then (c, [QueueForNextWindow(id), LogJoin(id), Move(c, c.state)]) else (c, [])
    case (_, WorkerLeft(id, k)) =>
      if ActiveRound(c.state) then (c, [RemoveWorker(id), LogDeparture(id, k), Move(c, c.state)]) else (c, [])
    case (_, MembershipWindowClosed) =>
      if ActiveRound(c.state) then (c, [Move(c, c.state)]) else (c, [])
    case (_, _) => (c, [])
  }

  /** The coordinator object, updated in place. */
  class CoordinatorContext {
    var state: State
    const minWorkers: nat
    var connected: nat
    var received: nat
    var total: nat
    var collected: seq<Partition>
    var round: nat
    var net: Option<NetId>

    constructor (minWorkers: nat, net: Option<NetId>)
      ensures View() == Initial(minWorkers, net)
    {
      this.minWorkers := minWorkers;
      state, connected, received, total, collected, round := Init, 0, 0, minWorkers, [], 0;
      this.net := net;
    }

    function View(): Context
      reads this
    {
      Context(state, minWorkers, connected, received, total, collected, round, net)
    }

    method Transition(e: Event) returns (actions: seq<Action>)
      modifies this
      ensures View() == Step(old(View()), e).0
      ensures actions == Step(old(View()), e).1
    {
      actions := [];
      var before := state;
      match (state, e) {
        case (Init, ConfigLoaded) =>
          state := WaitingForWorkers;
          actions := [BindListener, LogTransition(before, state)];
        case (WaitingForWorkers, WorkerConnected(_)) =>
          connected := connected + 1;
          if connected >= minWorkers {
            total := connected;
            state := Partitioning;
            if net.Some? { actions := [InvokeSplit(net.value, total)]; }
            net := None;
            actions := actions + [LogTransition(before, state)];
          } else {
            actions := [LogTransition(before, before)];
          }
        case (Partitioning, SplitComplete(parts)) =>
          state := Dispatching;
          for i := 0 to |parts|
            invariant actions == Assignments(parts[..i], round)
          {
            actions := actions + [Assign(i, round, parts[i])];
            assert parts[..i + 1][..i] == parts[..i];
          }
          assert parts[..|parts|] == parts;
          actions := actions + [LogTransition(before, state)];
        case (Dispatching, AllDispatched) =>
          state := WaitingForResults;
          received, collected := 0, [];
          actions := [StartTimer, LogTransition(before, state)];
        case (WaitingForResults, PartitionReturned(_, p)) =>
          received := received + 1;
          collected := collected + [p];
          if received >= total {
            state := Merging;
            actions := [CancelTimer, InvokeMerge(collected), LogTransition(before, state)];
            collected := [];
          }
        case (WaitingForResults, PhaseTimeout(_)) =>
          state := Error;
          actions := [LogTransition(before, state), ShutdownAll];
        case (Merging, MergeComplete(merged, isNormalForm)) =>
          state := CheckTermination;
          actions := [LogTransition(before, state)];
          if isNormalForm {
            state := Done;
            actions := actions + [WriteOutput(merged), ShutdownAll, LogTransition(CheckTermination, state)];
          } else {
            round := round + 1;
            state := Partitioning;
            actions := actions + [InvokeSplit(merged, total), LogTransition(CheckTermination, state)];
          }
        case (_, FatalError) =>
          state := Error;
          actions := [LogTransition(before, state), ShutdownAll];
        case (_, WorkerJoined(id)) =>
          if ActiveRound(state) { actions := [QueueForNextWindow(id), LogJoin(id), LogTransition(before, before)]; }
        case (_, WorkerLeft(id, k)) =>
          if ActiveRound(state) { actions := [RemoveWorker(id), LogDeparture(id, k), LogTransition(before, before)]; }
        case (_, MembershipWindowClosed) =>
          if ActiveRound(state) { actions := [LogTransition(before, before)]; }
        case (_, _) =>
      }
    }
  }
}
