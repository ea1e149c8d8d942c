/** Church numerals as nets. */
module Church {
  import opened Nets
  import opened NetOps
  import opened Building

  const MAX_CHURCH: nat := 1_000_000

  // The outer lambda is agent b, the inner one b + 1; then an eraser for zero, or the
  // k applications followed by the k - 1 duplicators.

  function AppId(b: AgentId, i: nat): AgentId {
    b + 2 + i
  }

  function DupId(b: AgentId, k: nat, i: nat): AgentId {
    b + 2 + k + i
  }

  function Many(s: Symbol, k: nat): (r: seq<Symbol>)
    ensures |r| == k && forall i :: 0 <= i < k ==> r[i] == s
  {
    if k == 0 then [] else Many(s, k - 1) + [s]
  }

  function ChurchSize(k: nat): nat {
    if k == 0 then 3 else 2 * k + 1
  }

  function ChurchSyms(k: nat): (r: seq<Symbol>)
    ensures |r| == ChurchSize(k)
  {
    [Con, Con] + if k == 0 then [Era] else Many(Con, k) + Many(Dup, k - 1)
  }

  /** The duplicators hand out the function, one application each, the last one two. */
  function DupJoints(b: AgentId, k: nat, i: nat): seq<Joint>
    requires k >= 2 && i < k
  {
    if i == 0 then []
    else
      DupJoints(b, k, i - 1)
        + [(P(DupId(b, k, i - 1), 1), P(AppId(b, i - 1), 0))]
        + [if i < k - 1 then (P(DupId(b, k, i - 1), 2), P(DupId(b, k, i), 0))
           else (P(DupId(b, k, i - 1), 2), P(AppId(b, k - 1), 0))]
  }

  /** Results feed arguments, from the innermost application outwards. */
  function AppJoints(b: AgentId, k: nat, i: nat): seq<Joint>
    requires 1 <= i <= k
    decreases k - i
  {
    if i == k then [] else AppJoints(b, k, i + 1) + [(P(AppId(b, i), 1), P(AppId(b, i - 1), 2))]
  }

  function BodyJoints(b: AgentId, k: nat): seq<Joint> {
    if k == 0 then [(P(b, 1), P(b + 2, 0)), (P(b + 1, 1), P(b + 1, 2))]
    else if k == 1 then [(P(b, 1), P(b + 2, 0)), (P(b + 1, 1), P(b + 2, 2)), (P(b + 1, 2), P(b + 2, 1))]
    else
      [(P(b, 1), P(DupId(b, k, 0), 0))] + DupJoints(b, k, k - 1) + [(P(b + 1, 1), P(AppId(b, k - 1), 2))]
        + AppJoints(b, k, 1) + [(P(AppId(b, 0), 1), P(b + 1, 2))]
  }

  function ChurchJoints(b: AgentId, k: nat): seq<Joint> {
    [(P(b, 2), P(b + 1, 0))] + BodyJoints(b, k)
  }

  /** The numeral `k` on top of a net; its outer lambda is the first new agent. */
  function Encode(n: Net, k: nat): Net {
    Build(n, ChurchSyms(k), ChurchJoints(n.nextId, k))
  }

  // -------------------------------------------------------------------- the wiring

  function FunctionEnd(b: AgentId, k: nat, i: nat): PortRef
    requires i < k
  {
    if k == 1 then P(b, 1) else if i < k - 1 then P(DupId(b, k, i), 1) else P(DupId(b, k, k - 2), 2)
  }

  function LambdaEnd(b: AgentId, k: nat, id: AgentId, port: nat): PortRef {
    if id == b then
      (if port == 1 then (if k <= 1 then P(b + 2, 0) else P(DupId(b, k, 0), 0))
       else if port == 2 then P(b + 1, 0) else DISCONNECTED)
    else if port == 0 then P(b, 2)
    else if port == 1 then (if k == 0 then P(b + 1, 2) else P(AppId(b, k - 1), 2))
    else (if k == 0 then P(b + 1, 1) else P(AppId(b, 0), 1))
  }

  function AppEnd(b: AgentId, k: nat, i: nat, port: nat): PortRef
    requires i < k
  {
    if port == 0 then FunctionEnd(b, k, i)
    else if port == 1 then (if i == 0 then P(b + 1, 2) else P(AppId(b, i - 1), 2))
    else (if i == k - 1 then P(b + 1, 1) else P(AppId(b, i + 1), 1))
  }

  function DupEnd(b: AgentId, k: nat, i: nat, port: nat): PortRef
    requires k >= 2 && i < k - 1
  {
    if port == 0 then (if i == 0 then P(b, 1) else P(DupId(b, k, i - 1), 2))
    else if port == 1 then P(AppId(b, i), 0)
    else (if i < k - 2 then P(DupId(b, k, i + 1), 0) else P(AppId(b, k - 1), 0))
  }

  /** What each port of the numeral is joined to. */
  function Wiring(b: AgentId, k: nat, q: PortRef): PortRef {
    if q.FreePort? || q.id < b || q.id >= b + ChurchSize(k) || q.port > 2 then DISCONNECTED
    else if q.id <= b + 1 then LambdaEnd(b, k, q.id, q.port)
    else if k == 0 then (if q.port == 0 then P(b, 1) else DISCONNECTED)
    else if q.id < b + 2 + k then AppEnd(b, k, q.id - b - 2, q.port)
    else DupEnd(b, k, q.id - b - 2 - k, q.port)
  }

  /** A joint of the numeral: both ends are ports of it and agree with the wiring. */
  predicate Fit(b: AgentId, k: nat, w: Joint) {
    && w.0.AgentPort? && w.1.AgentPort?
    && b <= w.0.id < b + ChurchSize(k) && b <= w.1.id < b + ChurchSize(k)
    && w.0 != P(b, 0) && w.1 != P(b, 0) && w.0.port <= 2 && w.1.port <= 2
    && Wiring(b, k, w.0) == w.1 && Wiring(b, k, w.1) == w.0
    && !Principals(w.0, w.1)
  }

  ghost predicate AllFit(b: AgentId, k: nat, ws: seq<Joint>) {
    forall w :: w in ws ==> Fit(b, k, w)
  }

  lemma {:induction false} DupJointsFit(b: AgentId, k: nat, i: nat)
    requires k >= 2 && i < k
    ensures AllFit(b, k, DupJoints(b, k, i))
  {
    if i > 0 { DupJointsFit(b, k, i - 1); }
  }

  lemma {:induction false} AppJointsFit(b: AgentId, k: nat, i: nat)
    requires 1 <= i <= k
    ensures AllFit(b, k, AppJoints(b, k, i))
    decreases k - i
  {
    if i < k { AppJointsFit(b, k, i + 1); }
  }

  lemma JointsFit(b: AgentId, k: nat)
    ensures AllFit(b, k, ChurchJoints(b, k))
  {
    if k >= 2 {
      DupJointsFit(b, k, k - 1);
      AppJointsFit(b, k, 1);
      EndsFit(b, k);
      hide Fit, DupJoints, AppJoints;
    } else {
      SmallFit(b, k);
    }
  }

  lemma EndsFit(b: AgentId, k: nat)
    requires k >= 2
    ensures Fit(b, k, (P(b, 1), P(DupId(b, k, 0), 0))) && Fit(b, k, (P(b + 1, 1), P(AppId(b, k - 1), 2)))
    ensures Fit(b, k, (P(AppId(b, 0), 1), P(b + 1, 2))) && Fit(b, k, (P(b, 2), P(b + 1, 0)))
  {}

  lemma SmallFit(b: AgentId, k: nat)
    requires k <= 1
    ensures AllFit(b, k, ChurchJoints(b, k))
  {
    assert Fit(b, k, (P(b, 2), P(b + 1, 0)));
  }

  // ------------------------------------------------------- every port is on a joint

  ghost predicate OnJoint(ws: seq<Joint>, p: PortRef, q: PortRef) {
    (p, q) in ws || (q, p) in ws
  }

  lemma {:induction false} DupJointsHave(b: AgentId, k: nat, i: nat, j: nat)
    requires k >= 2 && j < i < k
    ensures (P(DupId(b, k, j), 1), P(AppId(b, j), 0)) in DupJoints(b, k, i)
    ensures (P(DupId(b, k, j), 2), DupEnd(b, k, j, 2)) in DupJoints(b, k, i)
  {
    var ws := DupJoints(b, k, i);
    if j < i - 1 {
      DupJointsHave(b, k, i - 1, j);
    } else {
      assert ws[|ws| - 2] == (P(DupId(b, k, j), 1), P(AppId(b, j), 0));
      assert ws[|ws| - 1] == (P(DupId(b, k, j), 2), DupEnd(b, k, j, 2));
    }
  }

  lemma {:induction false} AppJointsHave(b: AgentId, k: nat, i: nat, j: nat)
    requires 1 <= i <= j < k
    ensures (P(AppId(b, j), 1), P(AppId(b, j - 1), 2)) in AppJoints(b, k, i)
    decreases k - i
  {
    if i < j { AppJointsHave(b, k, i + 1, j); }
  }

  lemma BodyParts(b: AgentId, k: nat)
    requires k >= 2
    ensures var ws := ChurchJoints(b, k);
      && (P(b, 1), P(DupId(b, k, 0), 0)) in ws && (P(b + 1, 1), P(AppId(b, k - 1), 2)) in ws
      && (P(AppId(b, 0), 1), P(b + 1, 2)) in ws
      && (forall w :: w in DupJoints(b, k, k - 1) ==> w in ws)
      && (forall w :: w in AppJoints(b, k, 1) ==> w in ws)
  {
    var body := BodyJoints(b, k);
    assert (P(b, 1), P(DupId(b, k, 0), 0)) in body;
    assert (P(b + 1, 1), P(AppId(b, k - 1), 2)) in body;
    assert (P(AppId(b, 0), 1), P(b + 1, 2)) in body;
    assert forall w :: w in body ==> w in ChurchJoints(b, k);
  }

  lemma LambdaJoined(b: AgentId, k: nat, q: PortRef)
    requires q.AgentPort? && b <= q.id <= b + 1 && q.port <= 2 && q != P(b, 0)
    ensures OnJoint(ChurchJoints(b, k), q, Wiring(b, k, q))
  {
    var ws := ChurchJoints(b, k);
    assert ws[0] == (P(b, 2), P(b + 1, 0));
    if k >= 2 {
      BodyParts(b, k);
    } else {
      assert ws[1] == BodyJoints(b, k)[0] && ws[2] == BodyJoints(b, k)[1];
      if k == 1 { assert ws[3] == BodyJoints(b, k)[2]; }
    }
  }

  lemma SingleJoined(b: AgentId, port: nat)
    requires port <= 2
    ensures OnJoint(ChurchJoints(b, 1), P(AppId(b, 0), port), AppEnd(b, 1, 0, port))
  {
    var ws := ChurchJoints(b, 1);
    assert ws[1] == BodyJoints(b, 1)[0] && ws[2] == BodyJoints(b, 1)[1] && ws[3] == BodyJoints(b, 1)[2];
  }

  lemma AppJoined(b: AgentId, k: nat, i: nat, port: nat)
    requires i < k && port <= 2
    ensures OnJoint(ChurchJoints(b, k), P(AppId(b, i), port), AppEnd(b, k, i, port))
  {
    hide ChurchJoints, DupJoints, AppJoints;
    if k == 1 {
      SingleJoined(b, port);
    } else {
      BodyParts(b, k);
      if port == 0 {
        DupJointsHave(b, k, k - 1, if i < k - 1 then i else k - 2);
      } else if port == 1 {
        if i > 0 { AppJointsHave(b, k, 1, i); }
      } else {
        if i < k - 1 { AppJointsHave(b, k, 1, i + 1); }
      }
    }
  }

  lemma DupJoined(b: AgentId, k: nat, i: nat, port: nat)
    requires k >= 2 && i < k - 1 && port <= 2
    ensures OnJoint(ChurchJoints(b, k), P(DupId(b, k, i), port), DupEnd(b, k, i, port))
  {
    hide ChurchJoints, DupJoints, AppJoints;
    BodyParts(b, k);
    DupJointsHave(b, k, k - 1, if port == 0 && i > 0 then i - 1 else i);
  }

  predicate NewPort(b: AgentId, k: nat, q: PortRef) {
    && q.AgentPort? && b <= q.id < b + ChurchSize(k)
    && (if k == 0 && q.id == b + 2 then q.port == 0 else q.port <= 2)
  }

  /** Every port of the numeral but its principal one is on a joint. */
  lemma PortJoined(b: AgentId, k: nat, q: PortRef)
    requires NewPort(b, k, q) && q != P(b, 0)
    ensures OnJoint(ChurchJoints(b, k), q, Wiring(b, k, q))
  {
    hide ChurchJoints;
    if q.id <= b + 1 {
      LambdaJoined(b, k, q);
    } else if k == 0 {
      EraserJoined(b);
    } else if q.id < b + 2 + k {
      AppJoined(b, k, q.id - b - 2, q.port);
    } else {
      DupJoined(b, k, q.id - b - 2 - k, q.port);
    }
  }

  lemma EraserJoined(b: AgentId)
    ensures OnJoint(ChurchJoints(b, 0), P(b + 2, 0), P(b, 1))
  {
    assert ChurchJoints(b, 0)[1] == (P(b, 1), P(b + 2, 0));
  }

  // --------------------------------------------------------------- the encoded net

  lemma ChurchAgrees(c: Net, b: AgentId, k: nat)
    requires b + ChurchSize(k) <= c.arena
    ensures Agrees(c, ChurchJoints(b, k), q => Wiring(b, k, q))
  {
    hide ChurchJoints, Wiring;
    JointsFit(b, k);
  }

  lemma ChurchEnd(b: AgentId, k: nat, p: PortRef)
    requires p.AgentPort?
    ensures IsEnd(ChurchJoints(b, k), p) ==> NewRange(b, k, p) && p != P(b, 0)
    ensures NewPort(b, k, p) && p != P(b, 0) ==> IsEnd(ChurchJoints(b, k), p)
  {
    hide ChurchJoints, Wiring;
    JointsFit(b, k);
    if NewPort(b, k, p) && p != P(b, 0) { PortJoined(b, k, p); }
  }

  predicate NewRange(b: AgentId, k: nat, p: PortRef) {
    p.AgentPort? && b <= p.id < b + ChurchSize(k)
  }

  lemma EncodeBase(n: Net, k: nat)
    requires Growing(n)
    ensures var b, c := n.nextId, CreateAll(n, ChurchSyms(k));
      && Agrees(c, ChurchJoints(b, k), q => Wiring(b, k, q))
      && c == n.(agents := c.agents, arena := c.arena, nextId := c.nextId)
      && Added(n, c, ChurchSyms(k)) && Growing(c)
  {
    hide Growing, Added, Agrees, ChurchJoints;
    CreateAllAdds(n, ChurchSyms(k));
    ChurchAgrees(CreateAll(n, ChurchSyms(k)), n.nextId, k);
  }

  /** Each port of the numeral is wired as drawn; every other port is as before. */
  lemma EncodeTarget(n: Net, k: nat, p: PortRef)
    requires Growing(n) && p.AgentPort?
    ensures Encode(n, k).Target(p) ==
      if NewPort(n.nextId, k, p) then Wiring(n.nextId, k, p) else n.Target(p)
  {
    hide Growing, Added, Agrees, ChurchJoints, Wiring, CreateAll, ConnectAll, IsEnd, ChurchSyms;
    var b, c := n.nextId, CreateAll(n, ChurchSyms(k));
    EncodeBase(n, k);
    ConnectAllTarget(c, ChurchJoints(b, k), q => Wiring(b, k, q), p);
    ChurchEnd(b, k, p);
    if p == P(b, 0) {
      RootOpen(b, k);
      FreshIsOpen(n, p);
    }
    if NewRange(b, k, p) && !NewPort(b, k, p) { OddPort(n, k, p); }
  }

  lemma RootOpen(b: AgentId, k: nat)
    ensures Wiring(b, k, P(b, 0)) == DISCONNECTED
  {}

  /** A port out of arity is on no joint. */
  lemma OddPort(n: Net, k: nat, p: PortRef)
    requires Growing(n) && NewRange(n.nextId, k, p) && !NewPort(n.nextId, k, p)
    ensures !IsEnd(ChurchJoints(n.nextId, k), p)
  {
    hide ChurchJoints;
    JointsFit(n.nextId, k);
    var ws := ChurchJoints(n.nextId, k);
    if IsEnd(ws, p) {
      var w :| w in ws && (p == w.0 || p == w.1);
      assert Fit(n.nextId, k, w);
      if k == 0 { ZeroFit(n.nextId, w); }
    }
  }

  lemma ZeroFit(b: AgentId, w: Joint)
    requires Fit(b, 0, w)
    ensures NewPort(b, 0, w.0) && NewPort(b, 0, w.1)
  {}

  lemma {:induction false} NoActivePairs(b: AgentId, k: nat, ws: seq<Joint>)
    requires AllFit(b, k, ws)
    ensures ActivePairs(ws) == []
  {
    if ws != [] {
      assert ws[|ws| - 1] in ws;
      NoActivePairs(b, k, ws[..|ws| - 1]);
    }
  }

  /** Encoding adds agents and no redex. */
  lemma EncodeFrame(n: Net, k: nat)
    requires Growing(n)
    ensures var r := Encode(n, k);
      && Added(n, r, ChurchSyms(k)) && Growing(r)
      && r == n.(agents := r.agents, ports := r.ports, arena := r.arena, nextId := r.nextId)
  {
    hide Growing, Added, Agrees, ChurchJoints, CreateAll, ChurchSyms;
    var b, c := n.nextId, CreateAll(n, ChurchSyms(k));
    EncodeBase(n, k);
    JointsFit(b, k);
    NoActivePairs(b, k, ChurchJoints(b, k));
    ConnectAllRedexes(c, ChurchJoints(b, k));
    ConnectAllGrowing(c, ChurchJoints(b, k));
    AddedFrame(n, c, Encode(n, k), ChurchSyms(k));
  }
}
