/** The worker state machine of the full-partition protocol. */
module Worker {
  import opened Coordinator

  datatype WorkerState = Starting | Idle | Reducing | Returning | Failed | Finished | DeltaIdle | DeltaActive

  datatype WorkerEvent =
    | Connected
    | ReceivePartition(partition: Partition)
    | ReductionComplete(partition: Partition)
    | SendComplete
    | Shutdown
    | ReductionError
    | ConnectionLost

  datatype WorkerAction =
    | SendResult(round: nat, partition: Partition)
    | SendError(round: nat)
    | CloseConnection
    | ShutdownSelf
    | LogMove(before: WorkerState, after: WorkerState)

  /** The state after an event, and the actions for the runtime. */
  function React(s: WorkerState, round: nat, e: WorkerEvent): (WorkerState, seq<WorkerAction>) {
    match (s, e)
    case (Starting, Connected) => (Idle, [LogMove(s, Idle)])
    case (Idle, ReceivePartition(_)) => (Reducing, [LogMove(s, Reducing)])
    case (Reducing, ReductionComplete(p)) => (Returning, [SendResult(round, p), LogMove(s, Returning)])
    case (Returning, SendComplete) => (Idle, [LogMove(s, Idle)])
    case (Idle, Shutdown) => (Finished, [CloseConnection, LogMove(s, Finished)])
    case (Reducing, ReductionError) => (Failed, [SendError(round), LogMove(s, Failed)])
    case (_, ConnectionLost) => (Failed, [LogMove(s, Failed), ShutdownSelf])
    case (_, _) => (s, [])
  }

  /** The worker object, updated in place. */
  class WorkerContext {
    var state: WorkerState
    var round: nat

    constructor ()
      ensures state == Starting && round == 0
    {
      state, round := Starting, 0;
    }

    method Transition(e: WorkerEvent) returns (actions: seq<WorkerAction>)
      modifies this`state
      ensures state == React(old(state), round, e).0
      ensures actions == React(old(state), round, e).1
    {
      actions := [];
      var before := state;
      match (state, e) {
        case (Starting, Connected) =>
          state := Idle;
          actions := actions + [LogMove(before, state)];
        case (Idle, ReceivePartition(_)) =>
          state := Reducing;
          actions := actions + [LogMove(before, state)];
        case (Reducing, ReductionComplete(p)) =>
          state := Returning;
          actions := actions + [SendResult(round, p)];
          actions := actions + [LogMove(before, state)];
        case (Returning, SendComplete) =>
          state := Idle;
          actions := actions + [LogMove(before, state)];
        case (Idle, Shutdown) =>
          state := Finished;
          actions := actions + [CloseConnection];
          actions := actions + [LogMove(before, state)];
        case (Reducing, ReductionError) =>
          state := Failed;
          actions := actions + [SendError(round)];
          actions := actions + [LogMove(before, state)];
        case (_, ConnectionLost) =>
          state := Failed;
          actions := actions + [LogMove(before, state)];
          actions := actions + [ShutdownSelf];
        case (_, _) =>
      }
    }
  }
}
