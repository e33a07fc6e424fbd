/** What a move of one transaction leaves alone. */
module AtFrame {
  import opened Tlm
  import opened AtSystem
  import opened AtInvariant

  function LiveReq(s: System, t: nat): Option<Trans> {
    if t in s.ic.reqSlot && t !in s.ic.endReq then Some(s.ic.reqSlot[t]) else None
  }

  function LiveRsp(s: System, i: nat): Option<Trans> {
    if i in s.ic.rspSlot && i !in s.ic.endRsp then Some(s.ic.rspSlot[i]) else None
  }

  function Responder(s: System, t: nat): Option<Trans> {
    if t in s.responder then Some(s.responder[t]) else None
  }

  predicate SameTrans(s: System, s': System, y: Trans) {
    Tok(s', y) == Tok(s, y) && Refs(s', y) == Refs(s, y) && RouteOf(s', y) == RouteOf(s, y)
    && (y in s.ic.ext ==> y in s'.ic.ext)
  }

  predicate SameReqSide(s: System, s': System, u: nat) {
    && (u in s'.ic.reqSlot <==> u in s.ic.reqSlot)
    && (u in s'.ic.endReq <==> u in s.ic.endReq)
    && LiveReq(s', u) == LiveReq(s, u)
    && Queue(s'.ic.reqQueue, u) == Queue(s.ic.reqQueue, u)
  }

  predicate SameRspSide(s: System, s': System, j: nat) {
    && (j in s'.ic.rspSlot <==> j in s.ic.rspSlot)
    && (j in s'.ic.endRsp <==> j in s.ic.endRsp)
    && LiveRsp(s', j) == LiveRsp(s, j)
    && Queue(s'.ic.rspQueue, j) == Queue(s.ic.rspQueue, j)
  }

  predicate SameTarget(s: System, s': System, u: nat) {
    Targ(s', u) == Targ(s, u) && Responder(s', u) == Responder(s, u)
  }

  // An option that may hold a transaction other than x still holds it
  predicate Kept(o: Option<Trans>, o': Option<Trans>, x: Trans) {
    o == o' || o == None || o == Some(x)
  }

  ghost predicate QueueKept(q: seq<Queued>, q': seq<Queued>, x: Trans) {
    forall y :: y != x && InQueue(q, y) ==> InQueue(q', y)
  }

  // x belongs to target t and initiator i, as far as it belongs to any
  predicate Mine(s: System, x: Trans, t: nat, i: nat) {
    && (StageOf(s, x) !in {Free, Held} ==> Tok(s, x).target == t)
    && (StageOf(s, x) != Free ==> Tok(s, x).init == i)
  }

  // Going from s to s' concerns x, its target t and its initiator i only
  ghost predicate Local(s: System, s': System, x: Trans, t: nat, i: nat) {
    && s'.now == s.now && s'.minLatency == s.minLatency
    && s'.inits.Keys == s.inits.Keys && s'.targets.Keys == s.targets.Keys
    && Targ(s', t).kind == Targ(s, t).kind && Init(s', i).kind == Init(s, i).kind
    && Mine(s, x, t, i) && Mine(s', x, t, i)
    && (forall y :: y != x ==> SameTrans(s, s', y))
    && (forall u :: u != t ==> SameReqSide(s, s', u) && SameTarget(s, s', u))
    && (forall j :: j != i ==> SameRspSide(s, s', j) && Init(s', j) == Init(s, j))
    && Kept(Init(s, i).held, Init(s', i).held, x)
    && Kept(LiveReq(s, t), LiveReq(s', t), x)
    && Kept(LiveRsp(s, i), LiveRsp(s', i), x)
    && Kept(Targ(s, t).endReqPending, Targ(s', t).endReqPending, x)
    && Kept(Targ(s, t).nextRsp, Targ(s', t).nextRsp, x)
    && Kept(Responder(s, t), Responder(s', t), x)
    && QueueKept(Queue(s.ic.reqQueue, t), Queue(s'.ic.reqQueue, t), x)
    && QueueKept(Queue(s.ic.rspQueue, i), Queue(s'.ic.rspQueue, i), x)
  }

  lemma PushKept(q: seq<Queued>, e: Queued, x: Trans)
    ensures QueueKept(q, q + [e], x)
  {
    forall y | InQueue(q, y) ensures InQueue(q + [e], y) {
      var k :| 0 <= k < |q| && q[k].trans == y;
      assert (q + [e])[k].trans == y;
    }
  }

  lemma PopKept(q: seq<Queued>, x: Trans)
    requires |q| > 0 && q[0].trans == x
    ensures QueueKept(q, q[1..], x)
  {
    forall y | y != x && InQueue(q, y) ensures InQueue(q[1..], y) {
      var k :| 0 <= k < |q| && q[k].trans == y;
      assert q[1..][k - 1].trans == y;
    }
  }

  lemma LocalTrans(s: System, s1: System, s2: System, x: Trans, t: nat, i: nat)
    requires Local(s, s1, x, t, i) && Local(s1, s2, x, t, i)
    ensures Local(s, s2, x, t, i)
  {
    forall y | y != x ensures SameTrans(s, s2, y) { assert SameTrans(s, s1, y) && SameTrans(s1, s2, y); }
    forall u | u != t ensures SameReqSide(s, s2, u) && SameTarget(s, s2, u) {
      assert SameReqSide(s, s1, u) && SameReqSide(s1, s2, u);
      assert SameTarget(s, s1, u) && SameTarget(s1, s2, u);
    }
    forall j | j != i ensures SameRspSide(s, s2, j) && Init(s2, j) == Init(s, j) {
      assert SameRspSide(s, s1, j) && SameRspSide(s1, s2, j);
    }
  }

  // ---------- Updates that are local ----------

  // A change of what is known of x and of nothing else
  lemma OwnLocal(s: System, s': System, x: Trans, t: nat, i: nat)
    requires Mine(s, x, t, i) && Mine(s', x, t, i) && s'.now == s.now && s'.minLatency == s.minLatency
    requires s'.inits == s.inits && s'.targets == s.targets && s'.ic == s.ic && s'.responder == s.responder
    requires forall y :: y != x ==> Tok(s', y) == Tok(s, y) && Refs(s', y) == Refs(s, y)
    ensures Local(s, s', x, t, i)
  {
  }

  lemma MoveLocal(s: System, t: nat, i: nat, x: Trans, stage: Stage)
    requires Tok(s, x) == Token(StageOf(s, x), i, t)
    ensures Local(s, Move(s, x, stage), x, t, i)
  {
    hide Local;
    OwnLocal(s, Move(s, x, stage), x, t, i);
  }

  lemma AcquireLocal(s: System, t: nat, i: nat, x: Trans)
    requires Mine(s, x, t, i)
    ensures Local(s, Acquire(s, x), x, t, i)
  {
    hide Local;
    OwnLocal(s, Acquire(s, x), x, t, i);
  }

  lemma ReleaseLocal(s: System, t: nat, i: nat, x: Trans)
    requires Mine(s, x, t, i)
    ensures Local(s, Release(s, x), x, t, i)
  {
    hide Local;
    OwnLocal(s, Release(s, x), x, t, i);
  }

  lemma ShowLocal(s: System, t: nat, i: nat, x: Trans, hop: Hop, signal: Signal, delay: nat)
    requires Mine(s, x, t, i)
    ensures Local(s, Show(s, hop, x, signal, delay), x, t, i)
  {
    hide Local;
    OwnLocal(s, Show(s, hop, x, signal, delay), x, t, i);
  }

  lemma CheckLocal(s: System, t: nat, i: nat, x: Trans, ok: bool)
    requires Mine(s, x, t, i)
    ensures Local(s, Check(s, ok), x, t, i)
  {
    hide Local;
    OwnLocal(s, Check(s, ok), x, t, i);
  }

  lemma ReadyLocal(s: System, t: nat, i: nat, x: Trans)
    requires Mine(s, x, t, i)
    ensures Local(s, Ready(s, i, x), x, t, i)
  {
    hide Local;
    OwnLocal(s, Ready(s, i, x), x, t, i);
  }

  // A change of what the interconnect holds of x and of the slots of t and i
  lemma IcLocal(s: System, s': System, x: Trans, t: nat, i: nat)
    requires Mine(s, x, t, i) && Mine(s', x, t, i) && s'.now == s.now && s'.minLatency == s.minLatency
    requires s'.inits == s.inits && s'.targets == s.targets && s'.responder == s.responder
    requires forall y :: y != x ==> SameTrans(s, s', y)
    requires forall u :: u != t ==> SameReqSide(s, s', u)
    requires forall j :: j != i ==> SameRspSide(s, s', j)
    requires Kept(LiveReq(s, t), LiveReq(s', t), x) && Kept(LiveRsp(s, i), LiveRsp(s', i), x)
    requires QueueKept(Queue(s.ic.reqQueue, t), Queue(s'.ic.reqQueue, t), x)
    requires QueueKept(Queue(s.ic.rspQueue, i), Queue(s'.ic.rspQueue, i), x)
    ensures Local(s, s', x, t, i)
  {
    hide SameTrans, SameReqSide, SameRspSide, QueueKept;
  }

  lemma NotifyReqLocal(s: System, t: nat, i: nat, x: Trans)
    requires Mine(s, x, t, i) && Kept(LiveReq(s, t), None, x)
    ensures Local(s, NotifyEndReq(s, t), x, t, i)
  {
    hide Local;
    IcLocal(s, NotifyEndReq(s, t), x, t, i);
  }

  lemma NotifyRspLocal(s: System, t: nat, i: nat, x: Trans)
    requires Mine(s, x, t, i) && Kept(LiveRsp(s, i), None, x)
    ensures Local(s, NotifyEndRsp(s, i), x, t, i)
  {
    hide Local;
    IcLocal(s, NotifyEndRsp(s, i), x, t, i);
  }

  lemma PutTargLocal(s: System, t: nat, i: nat, x: Trans, g: Target)
    requires t in s.targets && Mine(s, x, t, i) && g.kind == Targ(s, t).kind
    requires Kept(Targ(s, t).endReqPending, g.endReqPending, x) && Kept(Targ(s, t).nextRsp, g.nextRsp, x)
    ensures Local(s, PutTarg(s, t, g), x, t, i)
  {
  }

  lemma PutInitLocal(s: System, t: nat, i: nat, x: Trans, n: Initiator)
    requires i in s.inits && Mine(s, x, t, i) && n.kind == Init(s, i).kind
    requires Kept(Init(s, i).held, n.held, x)
    ensures Local(s, PutInit(s, i, n), x, t, i)
  {
  }

  lemma RespondLocal(s: System, t: nat, i: nat, x: Trans)
    requires Mine(s, x, t, i) && Kept(Responder(s, t), Some(x), x)
    ensures Local(s, Own(s, t, x), x, t, i)
  {
  }

  lemma DisownLocal(s: System, t: nat, i: nat, x: Trans)
    requires Mine(s, x, t, i) && Kept(Responder(s, t), None, x)
    ensures Local(s, Disown(s, t), x, t, i)
  {
  }

  // ---------- Facts that a local change keeps ----------

  lemma KindsStay(s: System, s': System, x: Trans, t: nat, i: nat, u: nat)
    requires Local(s, s', x, t, i)
    ensures Targ(s', u).kind == Targ(s, u).kind
  {
    if u != t { assert SameTarget(s, s', u); }
  }

  // What another transaction is known by
  lemma OtherTrans(s: System, s': System, x: Trans, t: nat, i: nat, y: Trans)
    requires Local(s, s', x, t, i) && y != x
    ensures Tok(s', y) == Tok(s, y) && Spare(s', y) == Spare(s, y) && KindOf(s', y) == KindOf(s, y)
    ensures Open(s', y) == Open(s, y) && Responding(s', y) == Responding(s, y)
    ensures s'.inits.Keys == s.inits.Keys && (Routed(s, y) ==> Routed(s', y))
  {
    assert SameTrans(s, s', y);
    KindsStay(s, s', x, t, i, Tok(s, y).target);
  }

  // What others hold of it
  lemma OtherHolders(s: System, s': System, x: Trans, t: nat, i: nat, y: Trans, u: nat, j: nat)
    requires Local(s, s', x, t, i) && y != x
    ensures Init(s, j).held == Some(y) ==> Init(s', j).held == Some(y)
    ensures LiveReq(s, u) == Some(y) ==> LiveReq(s', u) == Some(y)
    ensures LiveRsp(s, j) == Some(y) ==> LiveRsp(s', j) == Some(y)
    ensures Responder(s, u) == Some(y) ==> Responder(s', u) == Some(y)
    ensures Targ(s, u).endReqPending == Some(y) ==> Targ(s', u).endReqPending == Some(y)
    ensures Targ(s, u).nextRsp == Some(y) ==> Targ(s', u).nextRsp == Some(y)
  {
    if u != t { assert SameReqSide(s, s', u) && SameTarget(s, s', u); }
    if j != i { assert SameRspSide(s, s', j) && Init(s', j) == Init(s, j); }
  }

  lemma OthersStay(s: System, s': System, x: Trans, t: nat, i: nat, y: Trans)
    requires Local(s, s', x, t, i) && y != x && TransOk(s, y)
    ensures TransOk(s', y)
  {
    hide Local, Open, Responding, Spare, Routed, InQueue;
    OtherTrans(s, s', x, t, i, y);
    OtherHolders(s, s', x, t, i, y, Tok(s, y).target, Tok(s, y).init);
    QueuesStay(s, s', x, t, i, y);
  }

  lemma QueuesStay(s: System, s': System, x: Trans, t: nat, i: nat, y: Trans)
    requires Local(s, s', x, t, i) && y != x
    ensures forall u :: InQueue(Queue(s.ic.reqQueue, u), y) ==> InQueue(Queue(s'.ic.reqQueue, u), y)
    ensures forall j :: InQueue(Queue(s.ic.rspQueue, j), y) ==> InQueue(Queue(s'.ic.rspQueue, j), y)
  {
    forall u | InQueue(Queue(s.ic.reqQueue, u), y) ensures InQueue(Queue(s'.ic.reqQueue, u), y) {
      if u != t { assert SameReqSide(s, s', u); }
    }
    forall j | InQueue(Queue(s.ic.rspQueue, j), y) ensures InQueue(Queue(s'.ic.rspQueue, j), y) {
      if j != i { assert SameRspSide(s, s', j); }
    }
  }

  // x counts for target-side socket u as it did before
  predicate SameForReq(s: System, s': System, x: Trans, u: nat) {
    && (Open(s, x) && Tok(s, x).target == u ==> Open(s', x) && Tok(s', x).target == u)
    && (At(s, u, x, ReqQueued) ==> At(s', u, x, ReqQueued))
  }

  lemma ReqSideStays(s: System, s': System, x: Trans, t: nat, i: nat, u: nat)
    requires Local(s, s', x, t, i) && ReqSideOk(s, u)
    requires SameReqSide(s, s', u) && SameForReq(s, s', x, u)
    ensures ReqSideOk(s', u)
  {
    var q := Queue(s.ic.reqQueue, u);
    if LiveReq(s, u).Some? {
      assert s.ic.reqSlot[u] != x ==> SameTrans(s, s', s.ic.reqSlot[u]);
      KindsStay(s, s', x, t, i, u);
    }
    forall k | 0 <= k < |q| ensures At(s', u, q[k].trans, ReqQueued) {
      assert At(s, u, q[k].trans, ReqQueued);
      assert q[k].trans != x ==> SameTrans(s, s', q[k].trans);
    }
  }

  predicate SameForRsp(s: System, s': System, x: Trans, j: nat) {
    && (FromInit(s, j, x, RspSent) ==> FromInit(s', j, x, RspSent))
    && (FromInit(s, j, x, RspQueued) ==> FromInit(s', j, x, RspQueued))
  }

  lemma RspSideStays(s: System, s': System, x: Trans, t: nat, i: nat, j: nat)
    requires Local(s, s', x, t, i) && RspSideOk(s, j)
    requires SameRspSide(s, s', j) && SameForRsp(s, s', x, j)
    ensures RspSideOk(s', j)
  {
    var q := Queue(s.ic.rspQueue, j);
    if LiveRsp(s, j).Some? {
      assert s.ic.rspSlot[j] != x ==> SameTrans(s, s', s.ic.rspSlot[j]);
    }
    forall k | 0 <= k < |q| ensures FromInit(s', j, q[k].trans, RspQueued) {
      assert FromInit(s, j, q[k].trans, RspQueued);
      assert q[k].trans != x ==> SameTrans(s, s', q[k].trans);
    }
  }

  predicate SameForInit(s: System, s': System, x: Trans, j: nat) {
    && (FromInit(s, j, x, Held) ==> FromInit(s', j, x, Held))
    && (FromInit(s, j, x, RspSent) <==> FromInit(s', j, x, RspSent))
    && (Init(s', j).reqInProgress == Some(x) && Awaited(s, j, x) ==> Awaited(s', j, x))
  }

  lemma InitStays(s: System, s': System, x: Trans, t: nat, i: nat, j: nat)
    requires Local(s, s', x, t, i) && InitOk(s, j)
    requires Init(s', j).held == Init(s, j).held && Init(s', j).peq == Init(s, j).peq && SameForInit(s, s', x, j)
    requires Init(s', j).reqInProgress in {None, Init(s, j).reqInProgress}
    ensures InitOk(s', j)
  {
    var n := Init(s, j);
    if n.held.Some? { assert n.held.value != x ==> SameTrans(s, s', n.held.value); }
    if n.reqInProgress.Some? { assert n.reqInProgress.value != x ==> SameTrans(s, s', n.reqInProgress.value); }
    forall y ensures InitLaneOk(s', j, n.peq, y) {
      assert InitLaneOk(s, j, n.peq, y);
      assert y != x ==> SameTrans(s, s', y);
    }
  }

  // The stage of x as far as target u can tell
  function Seen(s: System, u: nat, x: Trans): Stage {
    var g := StageOf(s, x);
    if Tok(s, x).target != u then Free
    else if g in {PeqReq, ReqDeferred, Executing, Executed, RspDeferred, PeqEnd} then g
    else if Responding(s, x) then RspReady
    else Free
  }

  lemma SeenStays(s: System, s': System, x: Trans, t: nat, i: nat, u: nat, y: Trans)
    requires Local(s, s', x, t, i) && (y == x ==> Seen(s', u, x) == Seen(s, u, x))
    ensures Seen(s', u, y) == Seen(s, u, y)
  {
    assert y != x ==> SameTrans(s, s', y);
    KindsStay(s, s', x, t, i, u);
  }

  lemma LaneStays(s: System, s': System, x: Trans, t: nat, i: nat, u: nat, y: Trans)
    requires Local(s, s', x, t, i) && TargOk(s, u) && Lane(Targ(s', u).peq, y) == Lane(Targ(s, u).peq, y)
    requires y == x ==> Seen(s', u, x) == Seen(s, u, x)
    ensures TargLaneOk(s', u, Targ(s', u).peq, y)
  {
    hide Local, TransOk;
    assert TargLaneOk(s, u, Targ(s, u).peq, y);
    SeenStays(s, s', x, t, i, u, y);
    SameNow(s, s', x, t, i);
  }

  lemma SameNow(s: System, s': System, x: Trans, t: nat, i: nat)
    requires Local(s, s', x, t, i)
    ensures s'.now == s.now
  {
  }

  lemma TargLanesStay(s: System, s': System, x: Trans, t: nat, i: nat, u: nat)
    requires Local(s, s', x, t, i) && TargOk(s, u)
    requires Targ(s', u).peq == Targ(s, u).peq && Seen(s', u, x) == Seen(s, u, x)
    ensures forall y :: TargLaneOk(s', u, Targ(s', u).peq, y)
  {
    hide Local;
    forall y ensures TargLaneOk(s', u, Targ(s', u).peq, y) { LaneStays(s, s', x, t, i, u, y); }
  }

  predicate Counted(g: Stage) { g.Executing? || g.Executed? }

  lemma ExecutionsStay(s: System, s': System, x: Trans, t: nat, i: nat, u: nat)
    requires Local(s, s', x, t, i) && (Counted(Seen(s', u, x)) <==> Counted(Seen(s, u, x)))
    ensures Executions(s', u) == Executions(s, u)
  {
    hide Local, Responding;
    forall y ensures y in Executions(s', u) <==> y in Executions(s, u) {
      if y != x { SeenStays(s, s', x, t, i, u, y); }
    }
  }

  lemma StageSeen(s: System, s': System, x: Trans, t: nat, i: nat, u: nat, y: Trans)
    requires Local(s, s', x, t, i) && (y == x ==> Seen(s', u, x) == Seen(s, u, x))
    ensures At(s, u, y, ReqDeferred) ==> At(s', u, y, ReqDeferred)
    ensures At(s, u, y, RspDeferred) ==> At(s', u, y, RspDeferred)
    ensures Responding(s, y) && Tok(s, y).target == u ==> Responding(s', y) && Tok(s', y).target == u
  {
    hide Local;
    KindsStay(s, s', x, t, i, u);
    SeenStays(s, s', x, t, i, u, y);
  }

  lemma TargStays(s: System, s': System, x: Trans, t: nat, i: nat, u: nat)
    requires Local(s, s', x, t, i) && TargOk(s, u)
    requires SameTarget(s, s', u) && Seen(s', u, x) == Seen(s, u, x)
    ensures TargOk(s', u)
  {
    hide Local, Seen;
    var g := Targ(s, u);
    KindsStay(s, s', x, t, i, u);
    ExecutionsStay(s, s', x, t, i, u);
    if u in s.responder { StageSeen(s, s', x, t, i, u, s.responder[u]); }
    if g.endReqPending.Some? { StageSeen(s, s', x, t, i, u, g.endReqPending.value); }
    if g.nextRsp.Some? { StageSeen(s, s', x, t, i, u, g.nextRsp.value); }
    TargLanesStay(s, s', x, t, i, u);
  }

  // Target t after a change in what it holds of x
  lemma TargChanges(s: System, s': System, x: Trans, t: nat, i: nat)
    requires Local(s, s', x, t, i) && TargOk(s, t)
    requires forall y :: y != x ==> Lane(Targ(s', t).peq, y) == Lane(Targ(s, t).peq, y)
    requires TargLaneOk(s', t, Targ(s', t).peq, x)
    requires DeferralOk(s', t, x, Targ(s, t).endReqPending, Targ(s', t).endReqPending, ReqDeferred)
    requires DeferralOk(s', t, x, Targ(s, t).nextRsp, Targ(s', t).nextRsp, RspDeferred)
    requires ResponderOk(s, s', t, x)
    requires var g := Targ(s', t); g.rspEvent ==> g.kind.TypeD? && g.nextRsp.Some? && !g.responding
    requires CountOk(s', t)
    ensures TargOk(s', t)
  {
    hide Local, Seen, CountOk, TargLaneOk;
    var g, g' := Targ(s, t), Targ(s', t);
    KindsStay(s, s', x, t, i, t);
    forall y ensures TargLaneOk(s', t, g'.peq, y) {
      if y != x { LaneStays(s, s', x, t, i, t, y); }
    }
    if g.endReqPending.Some? && g.endReqPending.value != x { StageSeen(s, s', x, t, i, t, g.endReqPending.value); }
    if g.nextRsp.Some? && g.nextRsp.value != x { StageSeen(s, s', x, t, i, t, g.nextRsp.value); }
    if t in s.responder && s.responder[t] != x { StageSeen(s, s', x, t, i, t, s.responder[t]); }
  }

  // A deferral is of x, or the old one of another transaction
  predicate DeferralOk(s': System, t: nat, x: Trans, o: Option<Trans>, o': Option<Trans>, stage: Stage) {
    o' == None || (o' == Some(x) && At(s', t, x, stage)) || (o' == o && o != Some(x))
  }

  predicate ResponderOk(s: System, s': System, t: nat, x: Trans) {
    && (Targ(s', t).responding <==> t in s'.responder)
    && (Responder(s', t) == None
        || (Responder(s', t) == Some(x) && Responding(s', x) && Tok(s', x).target == t)
        || (Responder(s', t) == Responder(s, t) && Responder(s, t) != Some(x)))
  }

  // Request side of t after a change of x that is not about the queue
  lemma ReqSideChanges(s: System, s': System, x: Trans, t: nat, i: nat)
    requires Local(s, s', x, t, i) && ReqSideOk(s, t)
    requires Queue(s'.ic.reqQueue, t) == Queue(s.ic.reqQueue, t) && !At(s, t, x, ReqQueued)
    requires t in s.ic.reqSlot || Queue(s.ic.reqQueue, t) != [] || t in s'.ic.endReq ==> t in s'.ic.reqSlot
    requires LiveReq(s', t) == None
             || (LiveReq(s', t) == Some(x) && Open(s', x) && Tok(s', x).target == t)
             || (LiveReq(s', t) == LiveReq(s, t) && LiveReq(s, t) != Some(x))
    ensures ReqSideOk(s', t)
  {
    var q := Queue(s.ic.reqQueue, t);
    if LiveReq(s', t).Some? && s'.ic.reqSlot[t] != x {
      assert SameTrans(s, s', s'.ic.reqSlot[t]);
      KindsStay(s, s', x, t, i, t);
    }
    forall k | 0 <= k < |q| ensures At(s', t, q[k].trans, ReqQueued) {
      assert At(s, t, q[k].trans, ReqQueued) && SameTrans(s, s', q[k].trans);
    }
  }

  lemma ExecutionIs(s: System, t: nat, y: Trans)
    ensures y in Executions(s, t) <==> Counted(Seen(s, t, y))
  {
  }

  lemma OtherExecutions(s: System, s': System, x: Trans, t: nat, i: nat)
    requires Local(s, s', x, t, i)
    ensures forall y :: y != x ==> (y in Executions(s', t) <==> y in Executions(s, t))
  {
    hide Local, Executions, Counted, Seen;
    forall y | y != x ensures y in Executions(s', t) <==> y in Executions(s, t) {
      SeenStays(s, s', x, t, i, t, y);
      ExecutionIs(s, t, y);
      ExecutionIs(s', t, y);
    }
  }

  lemma ExecutionStarts(s: System, s': System, x: Trans, t: nat, i: nat)
    requires Local(s, s', x, t, i) && !Counted(Seen(s, t, x)) && Counted(Seen(s', t, x))
    ensures |Executions(s', t)| == |Executions(s, t)| + 1
  {
    hide Local, Executions, Counted, Seen;
    OtherExecutions(s, s', x, t, i);
    ExecutionIs(s, t, x);
    ExecutionIs(s', t, x);
    assert Executions(s', t) == Executions(s, t) + {x};
  }

  lemma ExecutionEnds(s: System, s': System, x: Trans, t: nat, i: nat)
    requires Local(s, s', x, t, i) && Counted(Seen(s, t, x)) && !Counted(Seen(s', t, x))
    ensures |Executions(s', t)| == |Executions(s, t)| - 1
  {
    hide Local, Executions, Counted, Seen;
    OtherExecutions(s, s', x, t, i);
    ExecutionIs(s, t, x);
    ExecutionIs(s', t, x);
    assert Executions(s', t) == Executions(s, t) - {x};
  }

  lemma AllOthersStay(s: System, s': System, x: Trans, t: nat, i: nat)
    requires (forall y :: TransOk(s, y)) && Local(s, s', x, t, i) && TransOk(s', x)
    ensures forall y :: TransOk(s', y)
  {
    forall y ensures TransOk(s', y) { if y != x { OthersStay(s, s', x, t, i, y); } }
  }

  lemma OtherTarget(s: System, s': System, x: Trans, t: nat, i: nat, u: nat)
    requires Local(s, s', x, t, i) && u != t
    ensures SameReqSide(s, s', u) && SameForReq(s, s', x, u)
    ensures SameTarget(s, s', u) && Seen(s', u, x) == Seen(s, u, x)
  {
    hide SameTrans, SameRspSide, Kept, QueueKept;
  }

  lemma AllTargetsStay(s: System, s': System, x: Trans, t: nat, i: nat)
    requires (forall u :: ReqSideOk(s, u)) && (forall u :: TargOk(s, u)) && Local(s, s', x, t, i)
    requires ReqSideOk(s', t) && TargOk(s', t)
    ensures forall u :: ReqSideOk(s', u)
    ensures forall u :: TargOk(s', u)
  {
    hide Local, ReqSideOk, TargOk, SameReqSide, SameForReq, SameTarget, Seen;
    forall u ensures ReqSideOk(s', u) && TargOk(s', u) {
      if u != t {
        OtherTarget(s, s', x, t, i, u);
        ReqSideStays(s, s', x, t, i, u);
        TargStays(s, s', x, t, i, u);
      }
    }
  }

  lemma AllInitsStay(s: System, s': System, x: Trans, t: nat, i: nat)
    requires (forall j :: RspSideOk(s, j)) && (forall j :: InitOk(s, j)) && Local(s, s', x, t, i)
    requires RspSideOk(s', i) && InitOk(s', i)
    ensures forall j :: RspSideOk(s', j)
    ensures forall j :: InitOk(s', j)
  {
    forall j ensures RspSideOk(s', j) { if j != i { RspSideStays(s, s', x, t, i, j); } }
    forall j ensures InitOk(s', j) { if j != i { InitStays(s, s', x, t, i, j); } }
  }

  // What the invariant says about x, its target and its initiator
  lemma Around(s: System, x: Trans, t: nat, i: nat)
    requires Inv(s)
    ensures TransOk(s, x) && ReqSideOk(s, t) && TargOk(s, t) && RspSideOk(s, i) && InitOk(s, i)
    ensures TargLaneOk(s, t, Targ(s, t).peq, x) && InitLaneOk(s, i, Init(s, i).peq, x)
    ensures !s.failed
  {
  }

  // It is enough to look at x, its target and its initiator
  lemma Concludes(s: System, s': System, x: Trans, t: nat, i: nat)
    requires Inv(s) && Local(s, s', x, t, i)
    requires !s'.failed && TransOk(s', x)
    requires ReqSideOk(s', t) && TargOk(s', t) && RspSideOk(s', i) && InitOk(s', i)
    ensures Inv(s')
  {
    AllOthersStay(s, s', x, t, i);
    AllTargetsStay(s, s', x, t, i);
    AllInitsStay(s, s', x, t, i);
  }

  // A move that only the target side can see
  lemma ConcludesAtTarget(s: System, s': System, x: Trans, t: nat, i: nat)
    requires Inv(s) && Local(s, s', x, t, i)
    requires SameRspSide(s, s', i) && SameForRsp(s, s', x, i)
    requires Init(s', i) == Init(s, i) && SameForInit(s, s', x, i)
    requires !s'.failed && TransOk(s', x) && ReqSideOk(s', t) && TargOk(s', t)
    ensures Inv(s')
  {
    RspSideStays(s, s', x, t, i, i);
    InitStays(s, s', x, t, i, i);
    Concludes(s, s', x, t, i);
  }

  // A move that only the initiator side can see
  lemma ConcludesAtInit(s: System, s': System, x: Trans, t: nat, i: nat)
    requires Inv(s) && Local(s, s', x, t, i)
    requires SameReqSide(s, s', t) && SameForReq(s, s', x, t)
    requires SameTarget(s, s', t) && Seen(s', t, x) == Seen(s, t, x)
    requires !s'.failed && TransOk(s', x) && RspSideOk(s', i) && InitOk(s', i)
    ensures Inv(s')
  {
    ReqSideStays(s, s', x, t, i, t);
    TargStays(s, s', x, t, i, t);
    Concludes(s, s', x, t, i);
  }
}
