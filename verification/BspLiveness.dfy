/** Nothing is lost in a grid whose runtimes keep the protocol, and every round can be
    completed. */
module BspLiveness {
  import opened Nets
  import opened Coordinator
  import opened Worker
  import opened Bsp

  // --------------------------------------------------- what the runtimes have to do, by choices

  /** Node `i` has returned a result and was not told yet that it is sent. */
  predicate Owes(choices: seq<Choice>, i: nat) {
    if choices == [] then false
    else
      var k := |choices| - 1;
      match choices[k]
      case Reduce(j, _) => j == i || Owes(choices[..k], i)
      case Notify(j, e) => !(j == i && e.SendComplete?) && Owes(choices[..k], i)
      case _ => Owes(choices[..k], i)
  }

  /** A split was made and its dispatch is not complete yet. */
  predicate Sending(choices: seq<Choice>) {
    if choices == [] then false
    else
      var k := |choices| - 1;
      match choices[k]
      case Split(_) => true
      case Outside(e) => !e.AllDispatched? && Sending(choices[..k])
      case _ => Sending(choices[..k])
  }

  /** Nodes hear only that their results are sent, and they do between a result and their next
      partition; results are collected once the dispatch is complete. */
  predicate Prompt(choices: seq<Choice>) {
    if choices == [] then true
    else
      var k := |choices| - 1;
      && Prompt(choices[..k])
      && match choices[k]
         case Notify(_, e) => e.SendComplete?
         case Deliver(i) => !Owes(choices[..k], i)
         case Collect(_) => !Sending(choices[..k])
         case _ => true
  }

  // -------------------------------------------------------------------------- nothing is lost

  predicate Working(n: Node) {
    n.state.Idle? || n.state.Reducing? || n.state.Returning?
  }

  /** In a prompt run nothing was lost, and what the runtimes still owe shows in the states. */
  ghost predicate Kept(s: System, choices: seq<Choice>) {
    s.coord.state != Error ==>
      && (forall i :: 0 <= i < |s.nodes| ==> KeptAt(s.nodes[i], i, choices))
      && (forall i: nat :: i >= |s.nodes| ==> !Owes(choices, i))
      && (s.coord.state.Dispatching? ==> Sending(choices)) && (s.coord.state.WaitingForResults? ==> !Sending(choices))
  }

  ghost predicate KeptAt(n: Node, i: nat, choices: seq<Choice>) {
    n.lost == 0 && Working(n) && (n.state.Returning? <==> Owes(choices, i))
  }

  /** The coordinator's part of a choice. */
  lemma CoordMoves(s: System, ch: Choice, reduces: Reduction)
    requires Inv(s, reduces) && Enabled(s, ch, reduces) && s.coord.state != Error
    ensures var t := Next(s, ch, reduces);
      && (ch.Split? ==> t.coord.state == State.Dispatching)
      && (ch.Outside? && ch.news.AllDispatched? ==> t.coord.state != State.Dispatching)
      && (ch.Outside? && !ch.news.AllDispatched? ==> t.coord.state == s.coord.state || (t.coord.state != State.Dispatching && t.coord.state != WaitingForResults))
      && (!ch.Split? && !ch.Outside? ==>
            t.coord.state == s.coord.state || (t.coord.state != State.Dispatching && t.coord.state != WaitingForResults))
  {}

  lemma SendingMore(choices: seq<Choice>, ch: Choice)
    ensures Sending(choices + [ch]) ==
      if ch.Split? then true else if ch.Outside? && ch.news.AllDispatched? then false else Sending(choices)
  {
    assert (choices + [ch])[..|choices|] == choices;
  }

  lemma OwesMore(choices: seq<Choice>, ch: Choice, i: nat)
    ensures Owes(choices + [ch], i) ==
      if ch.Reduce? && ch.i == i then true
      else if ch.Notify? && ch.i == i && ch.event.SendComplete? then false else Owes(choices, i)
  {
    assert (choices + [ch])[..|choices|] == choices;
  }

  lemma PromptMore(choices: seq<Choice>, ch: Choice)
    ensures Prompt(choices + [ch]) <==>
      Prompt(choices) && (ch.Notify? ==> ch.event.SendComplete?) && (ch.Deliver? ==> !Owes(choices, ch.i)) && (ch.Collect? ==> !Sending(choices))
  {
    assert (choices + [ch])[..|choices|] == choices;
  }

  /** The nodes' part. */
  lemma NodesKept(s: System, ch: Choice, reduces: Reduction, choices: seq<Choice>, i: nat)
    requires Inv(s, reduces) && Kept(s, choices) && Enabled(s, ch, reduces) && s.coord.state != Error && Prompt(choices + [ch])
    requires i < |Next(s, ch, reduces).nodes|
    ensures KeptAt(Next(s, ch, reduces).nodes[i], i, choices + [ch])
  {
    OwesMore(choices, ch, i);
    PromptMore(choices, ch);
    hide Owes, Prompt, Sending, Inv;
    if i < |s.nodes| {
      NodeFacts(s, reduces, i);
      assert KeptAt(s.nodes[i], i, choices);
    }
  }

  /** What the invariant says of one node. */
  lemma NodeFacts(s: System, reduces: Reduction, i: nat)
    requires Inv(s, reduces) && s.coord.state != Error && i < |s.nodes|
    ensures var n := s.nodes[i];
      && (n.holding.Some? <==> n.state.Reducing?) && |n.inbox| + (if n.holding.Some? then 1 else 0) + |n.outbox| <= 1
      && (n.outbox != [] ==> s.coord.state.Dispatching? || s.coord.state.WaitingForResults?)
  {
    assert Current(s.nodes[i], i, s.coord.round, s.cut, reduces);
    assert Tokens(s, i) <= 1;
    assert !InRound(s.coord) ==> Tokens(s, i) == 0;
  }

  lemma NextKept(s: System, ch: Choice, reduces: Reduction, choices: seq<Choice>)
    requires Inv(s, reduces) && Kept(s, choices) && Enabled(s, ch, reduces) && Prompt(choices + [ch])
    ensures Kept(Next(s, ch, reduces), choices + [ch])
  {
    var t := Next(s, ch, reduces);
    if s.coord.state != Error {
      CoordMoves(s, ch, reduces);
      SendingMore(choices, ch);
      hide Next, Inv, Owes, Prompt, Sending, KeptAt, Enabled;
      forall i | 0 <= i < |t.nodes| ensures KeptAt(t.nodes[i], i, choices + [ch]) { NodesKept(s, ch, reduces, choices, i); }
      forall i: nat | i >= |t.nodes| ensures !Owes(choices + [ch], i) {
        OwesMore(choices, ch, i);
        NodesStay(s, ch, reduces);
      }
    } else {
      ErrorStays(s, ch, reduces);
    }
  }

  lemma NodesStay(s: System, ch: Choice, reduces: Reduction)
    requires Enabled(s, ch, reduces)
    ensures |Next(s, ch, reduces).nodes| >= |s.nodes| && (ch.Reduce? ==> ch.i < |s.nodes|)
  {}

  lemma ErrorStays(s: System, ch: Choice, reduces: Reduction)
    requires Enabled(s, ch, reduces) && s.coord.state == Error
    ensures Next(s, ch, reduces).coord.state == Error
  {}

  lemma {:induction false} PromptKeeps(s: System, minWorkers: nat, net: Option<NetId>, reduces: Reduction, choices: seq<Choice>)
    requires Reachable(s, minWorkers, net, reduces, choices) && Prompt(choices)
    ensures Kept(s, choices)
    decreases |choices|
  {
    hide Next, Enabled, Inv;
    if choices != [] {
      var k := |choices| - 1;
      var before :| Reachable(before, minWorkers, net, reduces, choices[..k])
                 && Enabled(before, choices[k], reduces) && s == Next(before, choices[k], reduces);
      assert choices == choices[..k] + [choices[k]];
      PromptMore(choices[..k], choices[k]);
      PromptKeeps(before, minWorkers, net, reduces, choices[..k]);
      ReachableInv(before, minWorkers, net, reduces, choices[..k]);
      NextKept(before, choices[k], reduces, choices[..k]);
    }
  }

  /** In every prompt run that has not failed, nothing was lost, in any round. */
  lemma NothingLost(s: System, minWorkers: nat, net: Option<NetId>, reduces: Reduction, choices: seq<Choice>)
    requires Reachable(s, minWorkers, net, reduces, choices) && Prompt(choices) && s.coord.state != Error
    ensures forall i :: 0 <= i < |s.nodes| ==> s.nodes[i].lost == 0
  {
    PromptKeeps(s, minWorkers, net, reduces, choices);
  }

  /** What loses a message of node `i`: delivery while it is not idle, collection while no
      results are awaited, or failure during a reduction. */
  predicate Mishap(s: System, ch: Choice, i: nat)
    requires i < |s.nodes|
  {
    || (ch == Deliver(i) && !s.nodes[i].state.Idle?)
    || (ch.Collect? && ch.i == i && !s.coord.state.WaitingForResults?)
    || (ch.Notify? && ch.i == i && s.nodes[i].state.Reducing? && (ch.event.ReductionError? || ch.event.ConnectionLost?))
  }

  /** Nothing else ever loses one. */
  lemma LossExactly(s: System, ch: Choice, reduces: Reduction, i: nat)
    requires Inv(s, reduces) && Enabled(s, ch, reduces) && s.coord.state != Error && i < |s.nodes|
    ensures var t := Next(s, ch, reduces); i < |t.nodes| && (t.nodes[i].lost > s.nodes[i].lost <==> Mishap(s, ch, i))
  {
    NodeFacts(s, reduces, i);
    hide Inv;
  }

  // ---------------------------------------------------------------- every round can be completed

  function Effort(n: Node): nat {
    5 * |n.inbox| + (if n.holding.Some? then 3 else 0) + |n.outbox| + if n.state.Returning? then 1 else 0
  }

  function Efforts(nodes: seq<Node>): nat {
    if nodes == [] then 0 else Efforts(nodes[..|nodes| - 1]) + Effort(nodes[|nodes| - 1])
  }

  lemma {:induction false} EffortsUpdate(nodes: seq<Node>, i: nat, n: Node)
    requires i < |nodes|
    ensures Efforts(nodes[i := n]) + Effort(nodes[i]) == Efforts(nodes) + Effort(n)
  {
    var k := |nodes| - 1;
    hide Effort;
    if i < k {
      EffortsUpdate(nodes[..k], i, n);
      assert nodes[i := n][..k] == nodes[..k][i := n];
    } else {
      assert nodes[i := n][..k] == nodes[..k];
    }
  }

  ghost predicate Reducible(reduces: Reduction, x: NetId) {
    exists y: NetId :: reduces(x, y)
  }

  /** Every partition has some reduct. */
  ghost predicate Total(reduces: Reduction) {
    forall x: NetId :: Reducible(reduces, x)
  }

  /** A choice that a prompt run may take, with less left to do in the round. */
  ghost predicate Advances(s: System, reduces: Reduction, choices: seq<Choice>, ch: Choice) {
    && Enabled(s, ch, reduces) && Prompt(choices + [ch])
    && var t := Next(s, ch, reduces);
       (t.coord.state == WaitingForResults || t.coord.state == Merging) && Efforts(t.nodes) < Efforts(s.nodes)
  }

  ghost predicate Awaiting(s: System, reduces: Reduction, choices: seq<Choice>) {
    Inv(s, reduces) && Kept(s, choices) && s.coord.state == WaitingForResults && Prompt(choices)
  }

  lemma AwaitingAt(s: System, reduces: Reduction, choices: seq<Choice>, i: nat)
    requires Awaiting(s, reduces, choices) && i < |s.nodes|
    ensures KeptAt(s.nodes[i], i, choices) && !Sending(choices) && s.coord.state == WaitingForResults && Prompt(choices)
    ensures (s.nodes[i].holding.Some? <==> s.nodes[i].state.Reducing?)
  {
    NodeFacts(s, reduces, i);
    hide Inv;
  }

  lemma CollectMove(s: System, reduces: Reduction, choices: seq<Choice>, i: nat)
    requires Awaiting(s, reduces, choices) && i < |s.nodes| && s.nodes[i].outbox != []
    ensures Advances(s, reduces, choices, Collect(i))
  {
    AwaitingAt(s, reduces, choices, i);
    PromptMore(choices, Collect(i));
    var n := s.nodes[i];
    EffortsUpdate(s.nodes, i, n.(outbox := n.outbox[1..]));
    hide Awaiting, Prompt, Sending, Owes, Efforts;
  }

  lemma ReduceMove(s: System, reduces: Reduction, choices: seq<Choice>, i: nat) returns (ch: Choice)
    requires Awaiting(s, reduces, choices) && i < |s.nodes| && s.nodes[i].holding.Some? && Total(reduces)
    ensures Advances(s, reduces, choices, ch)
  {
    AwaitingAt(s, reduces, choices, i);
    var n := s.nodes[i];
    assert Reducible(reduces, n.holding.value.body);
    var body :| reduces(n.holding.value.body, body);
    ch := Reduce(i, body);
    PromptMore(choices, ch);
    EffortsUpdate(s.nodes, i, Return(n, body));
    hide Awaiting, Prompt, Sending, Owes, Efforts;
  }

  lemma SentMove(s: System, reduces: Reduction, choices: seq<Choice>, i: nat)
    requires Awaiting(s, reduces, choices) && i < |s.nodes| && s.nodes[i].state.Returning?
    ensures Advances(s, reduces, choices, Notify(i, SendComplete))
  {
    AwaitingAt(s, reduces, choices, i);
    PromptMore(choices, Notify(i, SendComplete));
    EffortsUpdate(s.nodes, i, Notice(s.nodes[i], SendComplete));
    hide Awaiting, Prompt, Sending, Owes, Efforts;
  }

  lemma DeliverMove(s: System, reduces: Reduction, choices: seq<Choice>, i: nat)
    requires Awaiting(s, reduces, choices) && i < |s.nodes| && s.nodes[i].inbox != [] && s.nodes[i].state.Idle?
    ensures Advances(s, reduces, choices, Deliver(i))
  {
    AwaitingAt(s, reduces, choices, i);
    PromptMore(choices, Deliver(i));
    EffortsUpdate(s.nodes, i, Take(s.nodes[i]));
    hide Awaiting, Prompt, Sending, Owes, Efforts;
  }

  /** The next thing to do at a node that can move. */
  lemma NodeMove(s: System, reduces: Reduction, choices: seq<Choice>, i: nat) returns (ch: Choice)
    requires Awaiting(s, reduces, choices) && Total(reduces) && i < |s.nodes| && Movable(s.nodes[i])
    ensures Advances(s, reduces, choices, ch)
  {
    AwaitingAt(s, reduces, choices, i);
    hide Awaiting, Prompt, Sending, Owes, Advances, Total;
    if s.nodes[i].outbox != [] {
      CollectMove(s, reduces, choices, i);
      ch := Collect(i);
    } else if s.nodes[i].holding.Some? {
      ch := ReduceMove(s, reduces, choices, i);
    } else if s.nodes[i].state.Returning? {
      SentMove(s, reduces, choices, i);
      ch := Notify(i, SendComplete);
    } else {
      DeliverMove(s, reduces, choices, i);
      ch := Deliver(i);
    }
  }

  lemma ReachMore(s: System, minWorkers: nat, net: Option<NetId>, reduces: Reduction, choices: seq<Choice>, ch: Choice)
    requires Reachable(s, minWorkers, net, reduces, choices) && Enabled(s, ch, reduces)
    ensures Reachable(Next(s, ch, reduces), minWorkers, net, reduces, choices + [ch])
  {
    assert (choices + [ch])[..|choices|] == choices;
    hide Next, Enabled;
  }

  /** Every round can be completed: from every state of a prompt run in which results are
      awaited, some prompt continuation has all of them collected and asks for the merge. */
  lemma {:induction false} RoundCompletes(s: System, minWorkers: nat, net: Option<NetId>, reduces: Reduction, choices: seq<Choice>)
    returns (more: seq<Choice>, t: System)
    requires Reachable(s, minWorkers, net, reduces, choices) && Prompt(choices) && s.coord.state == WaitingForResults
    requires Total(reduces)
    ensures Reachable(t, minWorkers, net, reduces, choices + more) && Prompt(choices + more) && t.coord.state == Merging
    decreases Efforts(s.nodes)
  {
    hide Reachable, Inv, Kept, Prompt, Total, Next, Enabled;
    ReachableInv(s, minWorkers, net, reduces, choices);
    PromptKeeps(s, minWorkers, net, reduces, choices);
    NothingLost(s, minWorkers, net, reduces, choices);
    NeverStuck(s, minWorkers, net, reduces, choices);
    var i: nat :| i < s.coord.total <= |s.nodes| && Movable(s.nodes[i]);
    var ch := NodeMove(s, reduces, choices, i);
    ReachMore(s, minWorkers, net, reduces, choices, ch);
    var u := Next(s, ch, reduces);
    if u.coord.state == Merging {
      more, t := [ch], u;
    } else {
      var rest;
      rest, t := RoundCompletes(u, minWorkers, net, reduces, choices + [ch]);
      more := [ch] + rest;
      assert choices + more == choices + [ch] + rest;
    }
  }
}
