/** Every step of the transport system keeps the invariant and leaves nothing half done. */
module AtSteps {
  import opened Tlm
  import opened AtSystem
  import opened AtInvariant
  import opened AtFrame
  import opened AtKeeps
  import opened AtCallbacks
  import opened AtInitMoves
  import opened AtWatch
  import opened AtWatchMoves
  import opened AtWatchInits
  import opened AtWatchQueues

  ghost predicate NonePasses(s: System) {
    forall y :: !Passing(StageOf(s, y))
  }

  ghost predicate OnlyPasses(s: System, x: Trans) {
    forall y :: Passing(StageOf(s, y)) ==> y == x
  }

  // Other targets are as they were, and no time has passed
  ghost predicate Near(s: System, s': System, t: nat) {
    && s'.now == s.now && s'.minLatency == s.minLatency && SameConfig(s, s')
    && (forall u :: u != t ==> Targ(s', u) == Targ(s, u))
  }

  // x has d more references to spare, and every other transaction as many as before
  ghost predicate Shifts(s: System, s': System, x: Trans, d: int) {
    forall y :: Spare(s', y) == Spare(s, y) + (if y == x then d else 0)
  }

  ghost predicate Even(s: System, s': System) {
    forall y :: Spare(s', y) == Spare(s, y)
  }

  ghost predicate AwayFrom(s: System, s': System, t: nat) {
    Near(s, s', t) && Even(s, s')
  }

  // A target that answers BEGIN_REQ with its response
  predicate RespondsAtOnce(g: Target) {
    g.kind.TypeE? || (g.kind.TypeD? && !g.responding)
  }

  predicate IsResponse(r: Reply) {
    r.status == Completed || (r.status == Updated && r.phase != EndReq)
  }

  // end_req_process of target t gets the response to x and queues it, and returns before it releases x
  predicate Strands(s: System, t: nat, x: Trans) {
    var q := Queue(s.ic.reqQueue, t);
    q != [] && q[0].trans == x && RespondsAtOnce(Targ(s, t)) && RouteOf(s, x).init in s.ic.rspSlot
  }

  // What is known when the target has replied to BEGIN_REQ
  ghost predicate ReplyKnown(s: System, t: nat, i: nat, x: Trans, r: Reply) {
    && Asked(s, i, x)
    && (r.status != Accepted ==> Late(Mon(s), i, t, x, s.now + r.delay))
    && (r.status == Updated && r.phase == EndReq ==> RunsAfter(s, t, x, s.now + r.delay))
  }

  lemma StillOnly(s: System, s': System, x: Trans, t: nat, i: nat)
    requires Local(s, s', x, t, i) && OnlyPasses(s, x)
    ensures OnlyPasses(s', x) && Near(s, s', t) && Shifts(s, s', x, Spare(s', x) - Spare(s, x))
    ensures Spare(s', x) == Spare(s, x) ==> AwayFrom(s, s', t)
    ensures !Passing(StageOf(s', x)) ==> NonePasses(s')
  {
    hide Spare, Local;
    LocalKinds(s, s', x, t, i);
    forall y | y != x ensures StageOf(s', y) == StageOf(s, y) && Spare(s', y) == Spare(s, y) {
      OtherTrans(s, s', x, t, i, y);
    }
    NearBy(s, s', x, t, i);
  }

  lemma NearBy(s: System, s': System, x: Trans, t: nat, i: nat)
    requires Local(s, s', x, t, i)
    ensures s'.now == s.now && s'.minLatency == s.minLatency
    ensures forall u :: u != t ==> Targ(s', u) == Targ(s, u)
  {
    forall u | u != t ensures Targ(s', u) == Targ(s, u) { assert SameTarget(s, s', u); }
  }

  // ---------- A response inside the interconnect ----------

  // To the queue, to type A, or to type B
  lemma DeliverKeeps(s: System, t: nat, i: nat, x: Trans, delay: nat, rnd: nat)
    requires Good(s) && Tok(s, x) == Token(RspReady, i, t) && (i in s.ic.rspSlot ==> i in s.ic.endRsp)
    requires Late(Mon(s), i, t, x, s.now + delay)
    ensures var o := DeliverRsp(s, i, x, delay, rnd);
            && Good(o.s) && Local(s, o.s, x, t, i) && Targ(o.s, t) == Targ(s, t) && o.r.status != Updated
            && StageOf(o.s, x) == (if o.r.status == Completed then Closing else RspSent)
            && Spare(o.s, x) == Spare(s, x)
            && (o.r.status == Completed ==> Late(Mon(o.s), i, t, x, o.s.now + o.r.delay))
  {
    hide Inv, Watched, Mon, DeliverToA, DeliverToB, Local;
    if Init(s, i).kind.InitB? {
      DeliverToBGood(s, t, i, x, delay, rnd);
      SpareOk(s, x);
      DeliverToBSpare(s, t, i, x, delay, rnd);
      LocalNow(s, DeliverToB(s, i, x, delay, rnd), x, t, i);
    } else {
      DeliverToAGood(s, t, i, x, delay);
      DeliverToASpare(s, t, i, x, delay);
    }
  }

  lemma RouteResponseKeeps(s: System, t: nat, i: nat, x: Trans, delay: nat, rnd: nat)
    requires Good(s) && Tok(s, x) == Token(RspReady, i, t) && !Targ(s, t).kind.TypeE?
    requires Late(Mon(s), i, t, x, s.now + delay)
    ensures var o := RouteResponse(s, t, i, x, delay, rnd);
            && Good(o.s) && Local(s, o.s, x, t, i) && Targ(o.s, t) == Targ(s, t) && Spare(o.s, x) == Spare(s, x)
            && (if o.r.status == Completed then StageOf(o.s, x) == Closed else !Passing(StageOf(o.s, x)))
  {
    hide Inv, Watched, Mon, DeliverRsp, Local, QueueRsp, Spare;
    if i in s.ic.rspSlot {
      QueueRspGood(s, t, i, x, delay);
      QueueRspSpare(s, t, i, x, delay);
    } else {
      var o := DeliverRsp(s, i, x, delay + EXTRA_RESPONSE_DELAY, rnd);
      DeliverKeeps(s, t, i, x, delay + EXTRA_RESPONSE_DELAY, rnd);
      if o.r.status == Completed {
        var s2 := Move(Show(o.s, TargHop(t), x, BwCompleted, o.r.delay), x, Closed);
        LocalMine(s, o.s, x, t, i);
        MarkClosedGood(o.s, t, i, x, o.r.delay);
        MarkClosedSpare(o.s, t, i, x, o.r.delay);
        LocalTrans(s, o.s, s2, x, t, i);
      }
    }
  }

  // The queue has a reference of its own
  lemma QueueRspSpare(s: System, t: nat, i: nat, x: Trans, delay: nat)
    requires Tok(s, x) == Token(RspReady, i, t)
    ensures var s' := QueueRsp(s, i, x, delay);
            Spare(s', x) == Spare(s, x) && Targ(s', t) == Targ(s, t) && StageOf(s', x) == RspQueued
  {
    hide QueueRsp;
    QueueRspIs(s, t, i, x, delay);
  }

  lemma MarkClosedSpare(s: System, t: nat, i: nat, x: Trans, delay: nat)
    requires Tok(s, x) == Token(Closing, i, t) && !Targ(s, t).kind.TypeE?
    ensures var s' := Move(Show(s, TargHop(t), x, BwCompleted, delay), x, Closed);
            Spare(s', x) == Spare(s, x) && Targ(s', t) == Targ(s, t) && StageOf(s', x) == Closed
  {
  }

  lemma LocalMine(s: System, s': System, x: Trans, t: nat, i: nat)
    requires Local(s, s', x, t, i) && StageOf(s', x) !in {Free, Held}
    ensures Tok(s', x) == Token(StageOf(s', x), i, t)
  {
  }

  lemma IcBeginRespKeeps(s: System, t: nat, i: nat, x: Trans, delay: nat, rnd: nat)
    requires Good(s) && MayRespond(s, t, i, x) && RouteOf(s, x).init == i && !Targ(s, t).kind.TypeE?
    requires Late(Mon(s), i, t, x, s.now + delay)
    ensures var o := IcBeginResp(StartResponse(s, t, x), t, x, delay, rnd);
            && Good(o.s) && Local(s, o.s, x, t, i) && Targ(o.s, t) == Targ(s, t).(responding := true)
            && Spare(o.s, x) == Spare(s, x)
            && (if o.r.status == Completed then StageOf(o.s, x) == Closed else !Passing(StageOf(o.s, x)))
  {
    hide Inv, Watched, Mon, Enter, IcBeginResp, RouteResponse, Local, Spare;
    var s1 := Enter(s, t, x, delay);
    EnterGood(s, t, i, x, delay);
    LocalNow(s, s1, x, t, i);
    IcBeginRespIs(s, t, x, delay, rnd);
    EnterTarget(s, t, x, delay);
    EnterSpare(s, t, i, x, delay);
    RouteResponseKeeps(s1, t, i, x, delay, rnd);
    LocalTrans(s, s1, RouteResponse(s1, t, i, x, delay, rnd).s, x, t, i);
  }

  lemma IcBeginRespIs(s: System, t: nat, x: Trans, delay: nat, rnd: nat)
    ensures IcBeginResp(StartResponse(s, t, x), t, x, delay, rnd)
            == RouteResponse(Enter(s, t, x, delay), t, RouteOf(s, x).init, x, delay, rnd)
  {
    hide RouteResponse;
  }

  lemma EnterTarget(s: System, t: nat, x: Trans, delay: nat)
    requires RouteOf(s, x).init == Tok(s, x).init
    ensures Targ(Enter(s, t, x, delay), t) == Targ(s, t).(responding := true)
    ensures Tok(Enter(s, t, x, delay), x) == Tok(s, x).(stage := RspReady)
  {
  }

  lemma EnterSpare(s: System, t: nat, i: nat, x: Trans, delay: nat)
    requires Tok(s, x) == Token(Executed, i, t) && !Targ(s, t).kind.TypeE?
    ensures Spare(Enter(s, t, x, delay), x) == Spare(s, x)
  {
    hide Enter;
    EnterIs(s, t, i, x, delay);
    EnterHolds(s, t, i, x, delay);
  }

  // ---------- The targets' callbacks ----------

  lemma DeferredIs(s: System, t: nat)
    requires Inv(s)
    ensures Targ(s, t).nextRsp.Some? ==> At(s, t, Targ(s, t).nextRsp.value, RspDeferred)
    ensures Targ(s, t).endReqPending.Some? ==> At(s, t, Targ(s, t).endReqPending.value, ReqDeferred)
  {
    assert TargOk(s, t);
  }

  lemma ResumeIs(s: System, t: nat, y: Trans)
    requires At(s, t, y, RspDeferred)
    ensures var s' := Resume(s, t, y);
            && Spare(s', y) == Spare(s, y)
            && Targ(s', t) == Targ(s, t).(nextRsp := None, rspEvent := false)
            && Tok(s', y) == Tok(s, y).(stage := Executed)
            && s'.now == s.now && s'.minLatency == s.minLatency
  {
  }

  lemma UndeferIs(s: System, t: nat, y: Trans)
    requires At(s, t, y, ReqDeferred)
    ensures var s' := Undefer(s, t, y);
            && Spare(s', y) == Spare(s, y)
            && Targ(s', t) == Targ(s, t).(endReqPending := None) && Tok(s', y) == Tok(s, y).(stage := ReqTaken)
            && s'.now == s.now && s'.minLatency == s.minLatency
  {
  }

  // What a target's callback does when it may issue a deferred END_REQ
  lemma UnblockKeeps(s: System, t: nat, acc: nat, lat: nat)
    requires Good(s) && NonePasses(s) && (Targ(s, t).endReqPending.Some? ==> Targ(s, t).nTrans <= 1)
    requires s.minLatency <= lat
    ensures var s' := Unblock(s, t, acc, lat);
            && Good(s') && NonePasses(s') && AwayFrom(s, s', t)
            && Targ(s', t).endReqPending == None && Targ(s', t).nextRsp == Targ(s, t).nextRsp
            && Targ(s', t).responding == Targ(s, t).responding && Targ(s', t).rspEvent == Targ(s, t).rspEvent
  {
    hide Inv, Watched, Mon, Local, Undefer, SendEndReq, Spare;
    if Targ(s, t).endReqPending.Some? {
      var y := Targ(s, t).endReqPending.value;
      var i, s1 := Tok(s, y).init, Undefer(s, t, y);
      DeferredIs(s, t);
      UndeferGood(s, t, i, y);
      UndeferIs(s, t, y);
      StillOnly(s, s1, y, t, i);
      FinalAccept(s1, t, i, y, acc, lat);
    }
  }

  lemma FinalAccept(s: System, t: nat, i: nat, y: Trans, acc: nat, lat: nat)
    requires Good(s) && OnlyPasses(s, y) && Tok(s, y) == Token(ReqTaken, i, t) && Targ(s, t).nTrans <= 1
    requires s.minLatency <= lat
    ensures var s' := SendEndReq(s, t, y, acc, lat);
            && Good(s') && NonePasses(s') && AwayFrom(s, s', t)
            && Targ(s', t) == Targ(s, t).(peq := Targ(s', t).peq, nTrans := Targ(s, t).nTrans + 1)
  {
    hide Inv, Watched, Mon, Local, SendEndReq;
    SendEndReqGood(s, t, i, y, acc, lat);
    TakenIs(s, t, i, y);
    SendEndReqIs(s, t, i, y, acc, lat);
    StillOnly(s, SendEndReq(s, t, y, acc, lat), y, t, i);
  }

  // A target of type A, B or C, after send_response: g before, g' after
  predicate Responded(g: Target, g': Target) {
    && g'.nextRsp == g.nextRsp && g'.rspEvent == g.rspEvent && g'.nTrans <= 2
    && (g'.endReqPending == None || (g'.endReqPending == g.endReqPending && g'.nTrans == g.nTrans && g'.responding))
    && (g'.responding || g'.endReqPending == None)
  }

  lemma ExecutedIs(s: System, t: nat, i: nat, x: Trans)
    requires Inv(s) && Tok(s, x) == Token(Executed, i, t)
    ensures RouteOf(s, x).init == i && !Targ(s, t).kind.TypeE?
  {
    assert TransOk(s, x);
  }

  lemma AtMostTwo(s: System, t: nat)
    requires Inv(s)
    ensures Targ(s, t).nTrans <= 2
  {
    assert TargOk(s, t);
  }

  lemma SendResponseKeeps(s: System, t: nat, i: nat, x: Trans, rnd: nat, acc: nat, lat: nat)
    requires Good(s) && MayRespond(s, t, i, x) && OnlyPasses(s, x) && !Targ(s, t).kind.TypeD?
    requires s.minLatency <= lat && Late(Mon(s), i, t, x, s.now)
    ensures var s' := SendResponse(s, t, x, rnd, acc, lat);
            Good(s') && NonePasses(s') && AwayFrom(s, s', t) && Responded(Targ(s, t), Targ(s', t))
  {
    hide Inv, Watched, Mon, IcBeginResp, Unblock, Finish, Local, Spare;
    ExecutedIs(s, t, i, x);
    var o := IcBeginResp(StartResponse(s, t, x), t, x, 0, rnd);
    IcBeginRespKeeps(s, t, i, x, 0, rnd);
    StillOnly(s, o.s, x, t, i);
    AtMostTwo(o.s, t);
    if o.r.status == Completed {
      LocalMine(s, o.s, x, t, i);
      AfterCompletion(o.s, t, i, x, acc, lat);
    }
  }

  lemma FinishIs(s: System, t: nat, i: nat, x: Trans)
    requires Inv(s) && Tok(s, x) == Token(Closed, i, t)
    ensures var s', g := Finish(s, t, x), Targ(s, t);
            && StageOf(s', x).Free? && s'.minLatency == s.minLatency && Spare(s', x) == Spare(s, x)
            && Targ(s', t) == g.(responding := false, nTrans := if Pipelined(g.kind) then g.nTrans - 1 else g.nTrans)
            && g.nTrans <= 2
  {
    hide Inv;
    AtMostTwo(s, t);
    SpareOk(s, x);
    ClosedIs(s, x);
  }

  lemma AfterCompletion(s: System, t: nat, i: nat, x: Trans, acc: nat, lat: nat)
    requires Good(s) && Tok(s, x) == Token(Closed, i, t) && OnlyPasses(s, x) && s.minLatency <= lat
    ensures var s' := Unblock(Finish(s, t, x), t, acc, lat);
            && Good(s') && NonePasses(s') && AwayFrom(s, s', t)
            && Targ(s', t).endReqPending == None && Targ(s', t).nextRsp == Targ(s, t).nextRsp
            && Targ(s', t).rspEvent == Targ(s, t).rspEvent && Targ(s', t).nTrans <= 2
  {
    hide Inv, Watched, Mon, Local, Finish, Unblock, Spare;
    var s1 := Finish(s, t, x);
    FinishIs(s, t, i, x);
    FinishGood(s, t, i, x);
    StillOnly(s, s1, x, t, i);
    PendingIsPipelined(s1, t);
    UnblockKeeps(s1, t, acc, lat);
    AtMostTwo(Unblock(s1, t, acc, lat), t);
  }

  lemma PendingIsPipelined(s: System, t: nat)
    requires Good(s)
    ensures Targ(s, t).endReqPending.Some? ==> Pipelined(Targ(s, t).kind)
  {
    hide Watched, Mon;
    assert TargOk(s, t);
    if Targ(s, t).endReqPending.Some? { assert TransOk(s, Targ(s, t).endReqPending.value); }
  }

  // Settled at t now, and at every other target as before
  lemma AllSettled(s: System, s': System, t: nat)
    requires Near(s, s', t) && Settled(s', t) && (forall u :: Settled(s, u))
    ensures forall u :: Settled(s', u)
  {
    forall u ensures Settled(s', u) { assert Settled(s, u); }
  }

  lemma TakeReqKeeps(s: System, t: nat, i: nat, x: Trans, acc: nat, lat: nat)
    requires Good(s) && Quiet(s) && Tok(s, x) == Token(PeqReq, i, t)
    requires DueNow(s, t, x) && s.minLatency <= lat
    ensures Good(TakeReq(s, t, x, acc, lat)) && Quiet(TakeReq(s, t, x, acc, lat))
    ensures SameConfig(s, TakeReq(s, t, x, acc, lat))
    ensures Even(s, TakeReq(s, t, x, acc, lat))
  {
    hide Watched, Mon;
    var g := Targ(s, t);
    assert TransOk(s, x) && TargOk(s, t) && Settled(s, t);
    if g.endReqPending.Some? { AlreadyOpen(s, t, i, x); }
    assert g.nTrans <= 1 ==> g.endReqPending == None;
    assert Fits(PeqReq, g.kind);
    if !g.kind.TypeC? && g.nTrans != 2 {
      AcceptAndEnd(s, t, i, x, acc, lat);
    } else {
      TakeReqStays(s, t, i, x, acc, lat);
    }
    AllSettled(s, TakeReq(s, t, x, acc, lat), t);
  }

  // The request runs at once, or its END_REQ is deferred
  lemma TakeReqStays(s: System, t: nat, i: nat, x: Trans, acc: nat, lat: nat)
    requires Good(s) && NonePasses(s) && Settled(s, t) && Tok(s, x) == Token(PeqReq, i, t) && Targ(s, t).nTrans <= 2
    requires Targ(s, t).kind.TypeC? || (Pipelined(Targ(s, t).kind) && Targ(s, t).nTrans == 2)
    requires DueNow(s, t, x)
    ensures var s' := TakeReq(s, t, x, acc, lat);
            Good(s') && NonePasses(s') && AwayFrom(s, s', t) && Settled(s', t)
  {
    hide Inv, Watched, Mon, TakeReq, Local, Spare;
    var s' := TakeReq(s, t, x, acc, lat);
    TakeReqTarget(s, t, x, acc, lat);
    if Targ(s, t).kind.TypeC? { RunReqGood(s, t, i, x, acc, lat); } else { DeferReqGood(s, t, i, x, acc, lat); }
    StillOnly(s, s', x, t, i);
  }

  lemma TakeReqTarget(s: System, t: nat, x: Trans, acc: nat, lat: nat)
    requires At(s, t, x, PeqReq) && (Targ(s, t).kind.TypeC? || Targ(s, t).nTrans == 2)
    ensures var g, g', s' := Targ(s, t), Targ(TakeReq(s, t, x, acc, lat), t), TakeReq(s, t, x, acc, lat);
            && !Passing(StageOf(s', x)) && g'.nTrans == g.nTrans && Spare(s', x) == Spare(s, x)
            && g'.nextRsp == g.nextRsp && g'.responding == g.responding && g'.rspEvent == g.rspEvent
            && (g'.endReqPending.Some? ==> g.endReqPending.Some? || g.nTrans == 2)
  {
    hide SendEndReq, Post, Take;
    var g1 := Taken(s, t, x);
    var g', stage := if g1.kind.TypeC? then g1.(peq := Post(g1.peq, x, s.now + lat, Internal))
        else g1.(endReqPending := Some(x)),
                     if g1.kind.TypeC? then Executing else ReqDeferred;
    assert TakeReq(s, t, x, acc, lat) == Move(PutTarg(Acquire(s, x), t, g'), x, stage);
  }

  lemma AcceptAndEnd(s: System, t: nat, i: nat, x: Trans, acc: nat, lat: nat)
    requires Good(s) && NonePasses(s) && Settled(s, t) && Tok(s, x) == Token(PeqReq, i, t)
    requires Pipelined(Targ(s, t).kind) && Targ(s, t).nTrans <= 1 && Targ(s, t).endReqPending == None
    requires DueNow(s, t, x) && s.minLatency <= lat
    ensures var s' := TakeReq(s, t, x, acc, lat);
            Good(s') && NonePasses(s') && AwayFrom(s, s', t) && Settled(s', t)
  {
    hide Inv, Watched, Mon, Local, AcceptReq, SendEndReq, Spare;
    var s1 := AcceptReq(s, t, x);
    AcceptReqGood(s, t, i, x);
    AcceptReqTarget(s, t, x);
    AcceptReqLeads(s, t, x, acc, lat);
    StillOnly(s, s1, x, t, i);
    FinalAccept(s1, t, i, x, acc, lat);
  }

  lemma AcceptReqLeads(s: System, t: nat, x: Trans, acc: nat, lat: nat)
    requires Pipelined(Targ(s, t).kind) && Targ(s, t).nTrans != 2
    ensures TakeReq(s, t, x, acc, lat) == SendEndReq(AcceptReq(s, t, x), t, x, acc, lat)
  {
    hide SendEndReq;
  }

  lemma AcceptReqTarget(s: System, t: nat, x: Trans)
    requires At(s, t, x, PeqReq)
    ensures Spare(AcceptReq(s, t, x), x) == Spare(s, x)
    ensures Targ(AcceptReq(s, t, x), t) == Targ(s, t).(peq := Take(Targ(s, t).peq, x))
    ensures Tok(AcceptReq(s, t, x), x) == Tok(s, x).(stage := ReqTaken)
  {
  }

  lemma DeferRspNext(s: System, t: nat, i: nat, x: Trans, rnd: nat, acc: nat, lat: nat)
    requires Good(s) && NonePasses(s) && Settled(s, t) && Tok(s, x) == Token(Executing, i, t) && Targ(s, t).responding
    requires DueNow(s, t, x)
    ensures var s' := TakeInternal(s, t, x, rnd, acc, lat);
            Good(s') && NonePasses(s') && AwayFrom(s, s', t) && Settled(s', t)
  {
    hide Inv, Watched, Mon;
    FitsKind(s, x);
    DeferRspGood(s, t, i, x, rnd, acc, lat);
    StillOnly(s, TakeInternal(s, t, x, rnd, acc, lat), x, t, i);
  }

  lemma ExecuteIs(s: System, t: nat, i: nat, x: Trans)
    requires Tok(s, x) == Token(Executing, i, t)
    ensures var s' := Execute(s, t, x);
            && Targ(s', t) == Targ(s, t).(peq := Targ(s', t).peq) && Tok(s', x) == Token(Executed, i, t)
            && s'.now == s.now && Spare(s', x) == Spare(s, x)
  {
  }

  lemma ExecuteNext(s: System, t: nat, i: nat, x: Trans)
    requires Good(s) && Quiet(s) && Tok(s, x) == Token(Executing, i, t) && !Targ(s, t).responding
    requires DueNow(s, t, x)
    ensures var s' := Execute(s, t, x);
            && Good(s') && OnlyPasses(s', x) && AwayFrom(s, s', t) && MayRespond(s', t, i, x)
            && Targ(s', t) == Targ(s, t).(peq := Targ(s', t).peq)
            && Late(Mon(s'), i, t, x, s'.now) && !Targ(s', t).kind.TypeD? && !Targ(s', t).rspEvent
  {
    hide Inv, Watched, Mon, Local, Execute, Spare, Late;
    Known(s, t, i, x);
    ExecuteGood(s, t, i, x);
    ExecuteIs(s, t, i, x);
    StillOnly(s, Execute(s, t, x), x, t, i);
  }

  lemma TakeInternalKeeps(s: System, t: nat, i: nat, x: Trans, rnd: nat, acc: nat, lat: nat)
    requires Good(s) && Quiet(s) && Tok(s, x) == Token(Executing, i, t)
    requires DueNow(s, t, x) && s.minLatency <= lat
    ensures Good(TakeInternal(s, t, x, rnd, acc, lat)) && Quiet(TakeInternal(s, t, x, rnd, acc, lat))
    ensures SameConfig(s, TakeInternal(s, t, x, rnd, acc, lat))
    ensures Even(s, TakeInternal(s, t, x, rnd, acc, lat))
  {
    hide Inv, Watched, Mon, SendResponse, Execute;
    assert Settled(s, t);
    if Targ(s, t).responding {
      DeferRspNext(s, t, i, x, rnd, acc, lat);
    } else {
      var s1 := Execute(s, t, x);
      ExecuteNext(s, t, i, x);
      SendResponseKeeps(s1, t, i, x, rnd, acc, lat);
    }
    AllSettled(s, TakeInternal(s, t, x, rnd, acc, lat), t);
  }

  lemma SendDeferredKeeps(s: System, t: nat, rnd: nat, acc: nat, lat: nat)
    requires Good(s) && NonePasses(s) && !Targ(s, t).responding && !Targ(s, t).rspEvent && !Targ(s, t).kind.TypeD?
    requires Targ(s, t).endReqPending.Some? ==> Targ(s, t).nTrans <= 1
    requires s.minLatency <= lat
    ensures var s' := SendDeferred(s, t, rnd, acc, lat);
            && Good(s') && NonePasses(s') && AwayFrom(s, s', t)
            && Targ(s', t).nextRsp == None && !Targ(s', t).rspEvent
            && (Targ(s', t).endReqPending.Some? ==> Targ(s', t).nTrans <= 1)
  {
    hide Inv, Watched, Mon, Local, Resume, SendResponse, Late, Spare;
    if Targ(s, t).nextRsp.Some? {
      var y := Targ(s, t).nextRsp.value;
      var i, s1 := Tok(s, y).init, Resume(s, t, y);
      DeferredIs(s, t);
      ResumeGood(s, t, i, y);
      ResumeIs(s, t, y);
      StillOnly(s, s1, y, t, i);
      SendResponseKeeps(s1, t, i, y, rnd, acc, lat);
    }
  }

  lemma TakeEndRespIs(s: System, t: nat, x: Trans, rnd: nat, acc: nat, lat: nat)
    ensures TakeEndResp(s, t, x, rnd, acc, lat)
            == Unblock(SendDeferred(TakeEnd(s, t, x), t, rnd, acc, lat), t, acc, lat)
  {
    hide SendDeferred, Unblock, Finish;
  }

  // The pipeline has room again
  lemma TakeEndNext(s: System, t: nat, i: nat, x: Trans)
    requires Good(s) && Quiet(s) && Tok(s, x) == Token(PeqEnd, i, t)
    ensures var s', g' := TakeEnd(s, t, x), Targ(TakeEnd(s, t, x), t);
            && Good(s') && NonePasses(s') && AwayFrom(s, s', t)
            && !g'.responding && !g'.rspEvent && !g'.kind.TypeD? && (g'.endReqPending.Some? ==> g'.nTrans <= 1)
  {
    hide Watched, Mon;
    assert TransOk(s, x) && TargOk(s, t) && Settled(s, t);
    PendingIsPipelined(s, t);
    TakeEndGood(s, t, i, x);
    StillOnly(s, TakeEnd(s, t, x), x, t, i);
  }

  lemma TakeEndRespKeeps(s: System, t: nat, i: nat, x: Trans, rnd: nat, acc: nat, lat: nat)
    requires Good(s) && Quiet(s) && Tok(s, x) == Token(PeqEnd, i, t) && s.minLatency <= lat
    ensures Good(TakeEndResp(s, t, x, rnd, acc, lat)) && Quiet(TakeEndResp(s, t, x, rnd, acc, lat))
    ensures SameConfig(s, TakeEndResp(s, t, x, rnd, acc, lat))
    ensures Even(s, TakeEndResp(s, t, x, rnd, acc, lat))
  {
    hide Inv, Watched, Mon, SendDeferred, Unblock, TakeEnd, Spare;
    var s1 := TakeEnd(s, t, x);
    var s2 := SendDeferred(s1, t, rnd, acc, lat);
    TakeEndNext(s, t, i, x);
    TakeEndRespIs(s, t, x, rnd, acc, lat);
    SendDeferredKeeps(s1, t, rnd, acc, lat);
    UnblockKeeps(s2, t, acc, lat);
    AllSettled(s, Unblock(s2, t, acc, lat), t);
  }

  // Type D: send_rsp_process
  lemma DeferredResponseKeeps(s: System, t: nat, rnd: nat)
    requires Good(s) && Quiet(s) && Targ(s, t).rspEvent
    ensures Good(DeferredResponse(s, t, rnd)) && Quiet(DeferredResponse(s, t, rnd))
    ensures SameConfig(s, DeferredResponse(s, t, rnd))
    ensures Even(s, DeferredResponse(s, t, rnd))
  {
    hide Inv, Watched, Mon, Local, IcBeginResp, Finish;
    DueIsTypeD(s, t);
    assert Settled(s, t);
    var x := Targ(s, t).nextRsp.value;
    var s1 := Resume(s, t, x);
    ResumeGood(s, t, Tok(s, x).init, x);
    StillOnly(s, s1, x, t, Tok(s, x).init);
    RespondTypeD(s1, t, Tok(s, x).init, x, Since(Targ(s, t).nextTime, s.now), rnd);
    AllSettled(s, DeferredResponse(s, t, rnd), t);
  }

  lemma DueIsTypeD(s: System, t: nat)
    requires Inv(s) && Targ(s, t).rspEvent
    ensures var g := Targ(s, t);
            g.kind.TypeD? && g.nextRsp.Some? && !g.responding && At(s, t, g.nextRsp.value, RspDeferred)
  {
    assert TargOk(s, t);
  }

  lemma RespondTypeD(s: System, t: nat, i: nat, x: Trans, delay: nat, rnd: nat)
    requires Good(s) && MayRespond(s, t, i, x) && OnlyPasses(s, x) && Targ(s, t).kind.TypeD?
    requires Late(Mon(s), i, t, x, s.now + delay)
    ensures var o := IcBeginResp(StartResponse(s, t, x), t, x, delay, rnd);
            var s' := if o.r.status == Completed then Finish(o.s, t, x) else o.s;
            && Good(s') && NonePasses(s') && AwayFrom(s, s', t)
            && Targ(s', t) == Targ(s, t).(responding := Targ(s', t).responding)
  {
    hide Inv, Watched, Mon, IcBeginResp, Finish, Local;
    ExecutedIs(s, t, i, x);
    var o := IcBeginResp(StartResponse(s, t, x), t, x, delay, rnd);
    IcBeginRespKeeps(s, t, i, x, delay, rnd);
    StillOnly(s, o.s, x, t, i);
    if o.r.status == Completed {
      LocalMine(s, o.s, x, t, i);
      FinishTypeD(o.s, t, i, x);
    }
  }

  lemma FinishTypeD(s: System, t: nat, i: nat, x: Trans)
    requires Good(s) && Tok(s, x) == Token(Closed, i, t) && OnlyPasses(s, x) && Targ(s, t).kind.TypeD?
    ensures var s' := Finish(s, t, x);
            Good(s') && NonePasses(s') && AwayFrom(s, s', t) && Targ(s', t) == Targ(s, t).(responding := false)
  {
    hide Watched, Mon;
    FinishGood(s, t, i, x);
    StillOnly(s, Finish(s, t, x), x, t, i);
  }

  lemma TargetCallbackKeeps(s: System, t: nat, x: Trans, rnd: nat, acc: nat, lat: nat)
    requires Good(s) && Quiet(s) && DueNow(s, t, x) && s.minLatency <= lat
    ensures Good(TargetCallback(s, t, x, rnd, acc, lat)) && Quiet(TargetCallback(s, t, x, rnd, acc, lat))
    ensures SameConfig(s, TargetCallback(s, t, x, rnd, acc, lat))
    ensures Even(s, TargetCallback(s, t, x, rnd, acc, lat))
  {
    hide Watched, Mon;
    var i := Tok(s, x).init;
    TargetCallbackIs(s, t, x, rnd, acc, lat);
    if At(s, t, x, PeqReq) { TakeReqKeeps(s, t, i, x, acc, lat); }
    else if At(s, t, x, Executing) { TakeInternalKeeps(s, t, i, x, rnd, acc, lat); }
    else if At(s, t, x, PeqEnd) { TakeEndRespKeeps(s, t, i, x, rnd, acc, lat); }
  }

  lemma LaneIs(s: System, t: nat, x: Trans)
    requires Inv(s)
    ensures TargLaneOk(s, t, Targ(s, t).peq, x)
  {
    assert TargOk(s, t);
  }

  // The stage of a transaction tells which branch of peq_cb is taken
  lemma TargetCallbackIs(s: System, t: nat, x: Trans, rnd: nat, acc: nat, lat: nat)
    requires Good(s)
    ensures TargetCallback(s, t, x, rnd, acc, lat) ==
            if At(s, t, x, PeqReq) then TakeReq(s, t, x, acc, lat)
            else if At(s, t, x, Executing) then TakeInternal(s, t, x, rnd, acc, lat)
            else if At(s, t, x, PeqEnd) then TakeEndResp(s, t, x, rnd, acc, lat)
            else s
  {
    hide Inv, Watched, Mon, TakeReq, TakeInternal, TakeEndResp;
    LaneIs(s, t, x);
  }

  // ---------- The initiators ----------

  lemma AllocatesKeeps(s: System, i: nat, x: Trans)
    requires Good(s) && Quiet(s) && i in s.inits && Init(s, i).held == None && Refs(s, x) == 0
    ensures Good(Allocate(s, i, x)) && Quiet(Allocate(s, i, x)) && SameConfig(s, Allocate(s, i, x))
    ensures Even(s, Allocate(s, i, x))
  {
    hide Inv, Watched, Mon, Allocate, Local;
    var s' := Allocate(s, i, x);
    AllocateGood(s, i, x);
    FreeWhenUnheld(s, x);
    AllocateIs(s, i, x);
    StillOnly(s, s', x, 0, i);
    assert Settled(s, 0) && Targ(s', 0) == Targ(s, 0);
    AllSettled(s, s', 0);
  }

  lemma IssueKeeps(s: System, i: nat, t: nat, delay: nat, acc: nat, lat: nat)
    requires Good(s) && Quiet(s) && i in s.inits && t in s.targets && Init(s, i).reqInProgress == None
    requires s.minLatency <= lat
    ensures Good(Issue(s, i, t, delay, acc, lat)) && Quiet(Issue(s, i, t, delay, acc, lat))
    ensures SameConfig(s, Issue(s, i, t, delay, acc, lat))
    ensures Even(s, Issue(s, i, t, delay, acc, lat))
  {
    hide Inv, Watched, Mon, Local, SendReq, QueueReq, ForwardReq, ReturnToInit, Spare;
    if Init(s, i).held.Some? {
      var x := Init(s, i).held.value;
      var s1 := SendReq(s, i, t, x, delay);
      assert Settled(s, t);
      SendReqGood(s, i, t, x, delay);
      SendReqSpare(s, i, t, x, delay);
      StillOnly(s, s1, x, t, i);
      assert Targ(s1, t) == Targ(s, t);
      RequestKeeps(s1, t, i, x, delay, acc, lat);
      AllSettled(s, Issue(s, i, t, delay, acc, lat), t);
    }
  }

  lemma SendReqSpare(s: System, i: nat, t: nat, x: Trans, delay: nat)
    requires Inv(s) && Init(s, i).held == Some(x)
    ensures Spare(SendReq(s, i, t, x, delay), x) == Spare(s, x)
  {
    hide Inv, SendReq;
    HeldAlone(s, i, x);
    SendReqIs(s, i, t, x, delay);
  }

  lemma RequestKeeps(s: System, t: nat, i: nat, x: Trans, delay: nat, acc: nat, lat: nat)
    requires Good(s) && OnlyPasses(s, x) && Settled(s, t) && Tok(s, x) == Token(ReqReady, i, t)
    requires s.minLatency <= lat && Early(Mon(s), i, x, s.now + delay)
    ensures var o := ForwardReq(s, t, x, delay, acc, lat);
            var s' := if t in s.ic.reqSlot then QueueReq(s, t, x, delay) else ReturnToInit(o.s, i, x, o.r);
            Good(s') && NonePasses(s') && AwayFrom(s, s', t) && Settled(s', t)
  {
    hide Inv, Watched, Mon, QueueReq, ForwardReq, ReturnToInit, Local;
    if t in s.ic.reqSlot {
      QueueReqGood(s, t, i, x, delay);
      QueueReqIs(s, t, i, x, delay);
      StillOnly(s, QueueReq(s, t, x, delay), x, t, i);
    } else {
      SentKeeps(s, t, i, x, delay, acc, lat);
      ReturnKeeps(ForwardReq(s, t, x, delay, acc, lat).s, t, i, x, ForwardReq(s, t, x, delay, acc, lat).r);
    }
  }

  lemma ForwardToken(s: System, t: nat, i: nat, x: Trans, delay: nat, acc: nat, lat: nat)
    requires Good(s) && MayForward(s, t, i, x)
    ensures var s' := ForwardReq(s, t, x, delay, acc, lat).s; Tok(s', x) == Token(StageOf(s', x), i, t)
  {
    hide Watched, Mon, TargetBeginReq, OnReply;
    var s1 := OpenReq(s, t, x, delay);
    var o := TargetBeginReq(s1, t, x, delay, acc, lat);
    TargetBeginReqEffect(s1, t, x, delay, acc, lat);
    OnReplyTarget(o.s, t, x, o.r);
  }

  lemma SentKeeps(s: System, t: nat, i: nat, x: Trans, delay: nat, acc: nat, lat: nat)
    requires Good(s) && OnlyPasses(s, x) && Settled(s, t) && MayForward(s, t, i, x)
    requires s.minLatency <= lat && Early(Mon(s), i, x, s.now + delay)
    ensures var o := ForwardReq(s, t, x, delay, acc, lat);
            && Good(o.s) && OnlyPasses(o.s, x) && AwayFrom(s, o.s, t) && Settled(o.s, t)
            && ReplyKnown(o.s, t, i, x, o.r) && Replied(o.s, t, x, o.r) && Tok(o.s, x) == Token(StageOf(o.s, x), i, t)
  {
    hide Inv, Watched, Mon, ForwardReq, Replied, Settled, Mine, Spare;
    ForwardGood(s, t, i, x, delay, acc, lat);
    ForwardSettled(s, t, i, x, delay, acc, lat);
    ForwardToken(s, t, i, x, delay, acc, lat);
    ForwardSpare(s, t, i, x, delay, acc, lat);
    StillOnly(s, ForwardReq(s, t, x, delay, acc, lat).s, x, t, i);
  }

  lemma ReturnUpdatedIs(s: System, i: nat, x: Trans, r: Reply)
    ensures ReturnUpdated(s, i, x, r) == InitPosts(s, i, x, r.phase, r.delay)
  {
  }

  lemma ReadyAgain(s: System, t: nat, i: nat, x: Trans)
    requires Good(s) && OnlyPasses(s, x) && Tok(s, x) == Token(RspReady, i, t)
    ensures var s1 := Ready(s, i, x);
            && Mon(s1) == Mon(s) && s1.inits == s.inits && s1.targets == s.targets && s1.now == s.now && Good(s1)
            && OnlyPasses(s1, x) && Tok(s1, x) == Tok(s, x) && AwayFrom(s, s1, t) && Targ(s1, t) == Targ(s, t)
  {
    hide Inv, Watched, Mon;
    ReadyGood(s, t, i, x);
    StillOnly(s, Ready(s, i, x), x, t, i);
  }

  lemma ReturnKeeps(s: System, t: nat, i: nat, x: Trans, r: Reply)
    requires Good(s) && OnlyPasses(s, x) && Replied(s, t, x, r) && Tok(s, x) == Token(StageOf(s, x), i, t)
    requires ReplyKnown(s, t, i, x, r)
    ensures var s' := ReturnToInit(s, i, x, r);
            Good(s') && NonePasses(s') && AwayFrom(s, s', t) && Targ(s', t) == Targ(s, t)
  {
    hide Inv, Watched, Mon, InitPosts, ReturnUpdated, Ready, QueueRsp, ReturnResp, ReturnCompleted, Settled;
    if r.status == Accepted {
    } else if r.status == Updated && r.phase == EndReq {
      EndReqNext(s, t, i, x, r.delay);
      ReturnUpdatedIs(s, i, x, r);
    } else {
      ReadyAgain(s, t, i, x);
      ReturnResponseKeeps(Ready(s, i, x), t, i, x, r);
    }
  }

  lemma ReturnRespIs(s: System, i: nat, x: Trans, r: Reply)
    requires r.phase == BeginResp
    ensures ReturnResp(s, i, x, r) == DeliverToA(s, i, x, r.delay)
  {
  }

  lemma DeliverToANext(s: System, t: nat, i: nat, x: Trans, delay: nat)
    requires Good(s) && OnlyPasses(s, x) && Tok(s, x) == Token(RspReady, i, t) && i !in s.ic.rspSlot
    requires Late(Mon(s), i, t, x, s.now + delay)
    ensures var s' := DeliverToA(s, i, x, delay);
            Good(s') && NonePasses(s') && AwayFrom(s, s', t) && Targ(s', t) == Targ(s, t)
  {
    hide Inv, Watched, Mon, DeliverToA, Local, Spare;
    DeliverToAGood(s, t, i, x, delay);
    DeliverToASpare(s, t, i, x, delay);
    StillOnly(s, DeliverToA(s, i, x, delay), x, t, i);
  }

  lemma CompletedNext(s: System, t: nat, i: nat, x: Trans, r: Reply)
    requires Good(s) && OnlyPasses(s, x) && Tok(s, x) == Token(RspReady, i, t) && Targ(s, t).kind.TypeE?
    requires Asked(s, i, x)
    ensures var s' := ReturnCompleted(s, i, x, r);
            Good(s') && NonePasses(s') && AwayFrom(s, s', t) && Targ(s', t) == Targ(s, t)
  {
    hide Inv, Watched, Mon, ReturnCompleted, Local;
    ReturnCompletedGood(s, t, i, x, r);
    ReturnCompletedIs(s, t, i, x, r);
    SpareOk(s, x);
    StillOnly(s, ReturnCompleted(s, i, x, r), x, t, i);
  }

  lemma ReturnResponseKeeps(s: System, t: nat, i: nat, x: Trans, r: Reply)
    requires Good(s) && OnlyPasses(s, x) && Tok(s, x) == Token(RspReady, i, t)
    requires r.status == Updated ==> r.phase == BeginResp
    requires r.status == Completed ==> Targ(s, t).kind.TypeE?
    requires r.status != Accepted
    requires Late(Mon(s), i, t, x, s.now + r.delay) && Asked(s, i, x)
    ensures var s' := if i in s.ic.rspSlot then QueueRsp(s, i, x, r.delay)
                      else if r.status == Updated then ReturnResp(s, i, x, r) else ReturnCompleted(s, i, x, r);
            Good(s') && NonePasses(s') && AwayFrom(s, s', t) && Targ(s', t) == Targ(s, t)
  {
    hide Inv, Watched, Mon, QueueRsp, ReturnResp, ReturnCompleted, DeliverToA;
    if i in s.ic.rspSlot {
      QueueNext(s, t, i, x, r.delay);
    } else if r.status == Updated {
      DeliverToANext(s, t, i, x, r.delay);
      ReturnRespIs(s, i, x, r);
    } else {
      CompletedNext(s, t, i, x, r);
    }
  }

  // ---------- The initiators' callbacks ----------

  lemma InitCallbackKeeps(s: System, i: nat, x: Trans, rnd: nat)
    requires Good(s) && Quiet(s) && i in s.inits && Due(s, Init(s, i).peq, x)
    ensures Good(InitCallback(s, i, x, rnd)) && Quiet(InitCallback(s, i, x, rnd))
    ensures SameConfig(s, InitCallback(s, i, x, rnd))
    ensures Even(s, InitCallback(s, i, x, rnd))
  {
    hide Watched, Mon;
    var lane := Lane(Init(s, i).peq, x);
    assert InitOk(s, i) && InitLaneOk(s, i, Init(s, i).peq, x);
    if lane == [] {
    } else if lane[0].phase == EndReq {
      TakeEndReqGood(s, i, x);
      TakeEndReqQuiet(s, i, x);
    } else {
      CompleteKeeps(s, i, x, Tok(s, x).target, rnd);
    }
  }

  lemma TakeEndReqQuiet(s: System, i: nat, x: Trans)
    requires Quiet(s)
    ensures Quiet(TakeEndReq(s, i, x)) && SameConfig(s, TakeEndReq(s, i, x)) && Even(s, TakeEndReq(s, i, x))
  {
    var s' := TakeEndReq(s, i, x);
    forall y ensures !Passing(StageOf(s', y)) { assert StageOf(s', y) == StageOf(s, y); }
    forall u ensures Settled(s', u) { assert Settled(s, u); }
  }

  lemma CompleteIs(s: System, i: nat, x: Trans, rnd: nat)
    ensures var o := EndOnTarget(CloseResp(s, i, x, rnd), x, rnd);
            IcEndResp(TakeBeginResp(s, i, x), i, x, rnd)
            == if o.r.status == Completed then Show(o.s, InitHop(i), x, FwCompleted(false), o.r.delay) else o.s
  {
    hide EndOnTarget;
  }

  lemma CompleteKeeps(s: System, i: nat, x: Trans, t: nat, rnd: nat)
    requires Good(s) && Quiet(s) && Tok(s, x) == Token(RspSent, i, t) && |Lane(Init(s, i).peq, x)| == 1
    requires Lane(Init(s, i).peq, x)[0].time <= s.now
    ensures var s' := Release(IcEndResp(TakeBeginResp(s, i, x), i, x, rnd), x);
            Good(s') && Quiet(s') && SameConfig(s, s') && Even(s, s')
  {
    hide Inv, Local, EndOnTarget, CloseResp, IcEndResp, TakeBeginResp, Release, Show, Watched, Mon, Spare;
    var s1 := CloseResp(s, i, x, rnd);
    CloseRespGood(s, i, x, t, rnd);
    CloseRespSpare(s, i, x, t, rnd);
    StillOnly(s, s1, x, t, i);
    assert Settled(s, t) && Targ(s1, t) == Targ(s, t);
    var o := EndOnTarget(s1, x, rnd);
    EndResponseKeeps(s1, t, i, x, rnd);
    var s2 := IcEndResp(TakeBeginResp(s, i, x), i, x, rnd);
    CompleteIs(s, i, x, rnd);
    assert s2 == if o.r.status == Completed then Show(o.s, InitHop(i), x, FwCompleted(false), o.r.delay) else o.s;
    if o.r.status == Completed { DoneNext(o.s, i, x, o.r.delay); }
    LastRelease(s2, x);
    AllSettled(s, Release(s2, x), t);
  }

  // The initiator has yet to drop its reference
  lemma CloseRespSpare(s: System, i: nat, x: Trans, t: nat, delay: nat)
    requires Tok(s, x) == Token(RspSent, i, t)
    ensures Spare(CloseResp(s, i, x, delay), x) == Spare(s, x) + 1
  {
    hide CloseResp;
    CloseRespIs(s, i, x, t, delay);
  }

  // END_RESP reaches the target; the spare reference stays
  lemma EndResponseKeeps(s: System, t: nat, i: nat, x: Trans, delay: nat)
    requires Good(s) && OnlyPasses(s, x) && Tok(s, x) == Token(Closing, i, t) && Settled(s, t)
    requires Late(Mon(s), i, t, x, s.now + delay)
    ensures var o := EndOnTarget(s, x, delay);
            && Good(o.s) && NonePasses(o.s) && AwayFrom(s, o.s, t) && Settled(o.s, t)
            && Spare(o.s, x) == Spare(s, x) && o.r.status != Updated && Tok(o.s, x).init == i
            && (o.r.status == Completed ==> StageOf(o.s, x) == Free)
  {
    hide Inv, Watched, Mon, EndOnTarget, Local;
    EndOnTargetGood(s, t, i, x, delay);
    EndOnTargetSpare(s, t, i, x, delay);
    StillOnly(s, EndOnTarget(s, x, delay).s, x, t, i);
  }

  lemma EndOnTargetSpare(s: System, t: nat, i: nat, x: Trans, delay: nat)
    requires Good(s) && Tok(s, x) == Token(Closing, i, t) && Settled(s, t)
    ensures var o := EndOnTarget(s, x, delay); Spare(o.s, x) == Spare(s, x) && Settled(o.s, t)
  {
    hide Watched, Mon;
    assert TransOk(s, x);
    match Targ(s, t).kind
    case TypeD => PassToTypeDSpare(s, t, x, delay);
    case TypeE =>
    case _ => PassToQueueSpare(s, t, x, delay);
  }

  lemma PassToTypeDSpare(s: System, t: nat, x: Trans, delay: nat)
    requires At(s, t, x, Closing) && Targ(s, t).kind.TypeD? && Settled(s, t) && Spare(s, x) >= 0
    ensures var s' := PassEndResp(s, t, x, delay).s; Spare(s', x) == Spare(s, x) && Settled(s', t)
  {
  }

  lemma PassToQueueSpare(s: System, t: nat, x: Trans, delay: nat)
    requires At(s, t, x, Closing) && Targ(s, t).kind in {TypeA, TypeB, TypeC} && Settled(s, t)
    ensures var s' := PassEndResp(s, t, x, delay).s; Spare(s', x) == Spare(s, x) && Settled(s', t)
  {
  }

  // The initiator learns that the target has completed
  lemma DoneNext(s: System, i: nat, x: Trans, delay: nat)
    requires Good(s) && NonePasses(s) && StageOf(s, x) == Free && Tok(s, x).init == i
    ensures var s' := Show(s, InitHop(i), x, FwCompleted(false), delay);
            && Good(s') && NonePasses(s') && Even(s, s')
            && s'.now == s.now && s'.minLatency == s.minLatency && SameConfig(s, s')
            && (forall u :: Targ(s', u) == Targ(s, u))
  {
    hide Inv, Watched, Mon;
    ShowDoneGood(s, i, x, delay);
    var s' := Show(s, InitHop(i), x, FwCompleted(false), delay);
    forall y
      ensures !Passing(StageOf(s', y)) && Spare(s', y) == Spare(s, y)
    {
      assert !Passing(StageOf(s, y)) && Tok(s', y) == Tok(s, y);
    }
  }

  lemma LastRelease(s: System, x: Trans)
    requires Good(s) && NonePasses(s) && Spare(s, x) > 0
    ensures Release(s, x).now == s.now && Release(s, x).minLatency == s.minLatency && SameConfig(s, Release(s, x))
    ensures Good(Release(s, x)) && NonePasses(Release(s, x)) && (forall u :: Targ(Release(s, x), u) == Targ(s, u))
    ensures Shifts(s, Release(s, x), x, -1)
  {
    hide Watched, Mon;
    ReleaseGood(s, x);
    var s' := Release(s, x);
    forall y ensures !Passing(StageOf(s', y)) && Spare(s', y) == Spare(s, y) - Bit(y == x) {
      assert !Passing(StageOf(s, y)) && Tok(s', y) == Tok(s, y) && Refs(s', y) == Refs(s, y) - Bit(y == x);
    }
  }

  // ---------- The processes of the interconnect ----------

  // BEGIN_RESP to initiator i from one of the processes, then the release of the queue's reference
  lemma SendRspKeeps(s: System, t: nat, i: nat, x: Trans, delay: nat, rnd: nat)
    requires Good(s) && OnlyPasses(s, x) && Settled(s, t) && Spare(s, x) > 0
    requires Tok(s, x) == Token(RspReady, i, t) && (i in s.ic.rspSlot ==> i in s.ic.endRsp)
    requires Late(Mon(s), i, t, x, s.now + delay)
    ensures var s' := Release(SendRspBw(s, i, x, delay, rnd), x);
            Good(s') && NonePasses(s') && Near(s, s', t) && Shifts(s, s', x, -1) && Settled(s', t)
  {
    hide Inv, Watched, Mon, Local, DeliverRsp, AfterDelivery, Release, Spare;
    var o := DeliverRsp(s, i, x, delay, rnd);
    DeliverKeeps(s, t, i, x, delay, rnd);
    DeliverSpare(s, t, i, x, delay, rnd);
    StillOnly(s, o.s, x, t, i);
    AfterDeliveryKeeps(o, t, i, x);
  }

  lemma AfterDeliveryKeeps(o: Outcome, t: nat, i: nat, x: Trans)
    requires Good(o.s) && OnlyPasses(o.s, x) && Settled(o.s, t) && Spare(o.s, x) > 0
    requires Tok(o.s, x) == Token(if o.r.status == Completed then Closing else RspSent, i, t)
    requires o.r.status == Completed ==> Late(Mon(o.s), i, t, x, o.s.now + o.r.delay)
    ensures var s' := Release(AfterDelivery(o, x), x);
            Good(s') && NonePasses(s') && Near(o.s, s', t) && Shifts(o.s, s', x, -1) && Settled(s', t)
  {
    hide Watched, Mon;
    if o.r.status == Completed { RelayKeeps(o.s, t, i, x, o.r.delay); } else { LastRelease(o.s, x); }
  }

  lemma RelayEndIs(s: System, x: Trans, delay: nat)
    requires EndOnTarget(s, x, delay).r.status != Updated
    ensures RelayEnd(s, x, delay) == EndOnTarget(s, x, delay).s
  {
  }

  lemma RelayKeeps(s: System, t: nat, i: nat, x: Trans, delay: nat)
    requires Good(s) && OnlyPasses(s, x) && Settled(s, t) && Spare(s, x) > 0 && Tok(s, x) == Token(Closing, i, t)
    requires Late(Mon(s), i, t, x, s.now + delay)
    ensures var s' := Release(RelayEnd(s, x, delay), x);
            Good(s') && NonePasses(s') && Near(s, s', t) && Shifts(s, s', x, -1) && Settled(s', t)
  {
    hide Watched, Mon;
    var p := EndOnTarget(s, x, delay);
    EndResponseKeeps(s, t, i, x, delay);
    RelayEndIs(s, x, delay);
    LastRelease(p.s, x);
  }

  lemma DeliverSpare(s: System, t: nat, i: nat, x: Trans, delay: nat, rnd: nat)
    requires Tok(s, x) == Token(RspReady, i, t) && Spare(s, x) >= 0
    ensures var o := DeliverRsp(s, i, x, delay, rnd);
            && Spare(o.s, x) == Spare(s, x) && Targ(o.s, t) == Targ(s, t)
            && Tok(o.s, x) == Token(if o.r.status == Completed then Closing else RspSent, i, t)
  {
    DeliverToASpare(s, t, i, x, delay);
    DeliverToBSpare(s, t, i, x, delay, rnd);
  }

  lemma DeliverToASpare(s: System, t: nat, i: nat, x: Trans, delay: nat)
    requires Tok(s, x) == Token(RspReady, i, t)
    ensures var s' := DeliverToA(s, i, x, delay);
            Spare(s', x) == Spare(s, x) && Tok(s', x) == Token(RspSent, i, t) && Targ(s', t) == Targ(s, t)
  {
  }

  lemma DeliverToBSpare(s: System, t: nat, i: nat, x: Trans, delay: nat, rnd: nat)
    requires Tok(s, x) == Token(RspReady, i, t) && Spare(s, x) >= 0
    ensures var s' := DeliverToB(s, i, x, delay, rnd);
            Spare(s', x) == Spare(s, x) && Tok(s', x) == Token(Closing, i, t) && Targ(s', t) == Targ(s, t)
  {
    hide DeliverToB;
    DeliverToBIs(s, t, i, x, delay, rnd);
  }

  lemma SlotTaken(s: System, k: nat)
    requires Good(s)
    ensures k in s.ic.endRsp ==> k in s.ic.rspSlot
    ensures k in s.ic.endReq ==> k in s.ic.reqSlot
  {
    hide Watched, Mon;
    assert RspSideOk(s, k) && ReqSideOk(s, k);
  }

  lemma ClearRspKeeps(s: System, i: nat)
    requires Good(s) && Quiet(s) && i in s.ic.endRsp && Queue(s.ic.rspQueue, i) == []
    ensures Good(ClearRspSlot(s, i)) && Quiet(ClearRspSlot(s, i)) && SameConfig(s, ClearRspSlot(s, i))
    ensures Even(s, ClearRspSlot(s, i))
  {
    hide Inv, Watched, Mon;
    ClearRspSlotGood(s, i);
    ClearsQuietly(s, ClearRspSlot(s, i));
  }

  lemma DeliverNextKeeps(s: System, i: nat, rnd: nat)
    requires Good(s) && Quiet(s) && i in s.ic.endRsp && Queue(s.ic.rspQueue, i) != []
    ensures var e := Queue(s.ic.rspQueue, i)[0];
            var s' := DeliverNext(s, i, e.trans, Since(e.time, s.now), rnd);
            Good(s') && Quiet(s') && SameConfig(s, s') && Even(s, s')
  {
    hide Inv, Watched, Mon, SendRspBw, Release, PopRsp, Spare;
    var x := Queue(s.ic.rspQueue, i)[0].trans;
    var delay := Since(Queue(s.ic.rspQueue, i)[0].time, s.now);
    var t, s1 := Tok(s, x).target, PopRsp(s, i);
    PopRspNext(s, i);
    SendRspKeeps(s1, t, i, x, delay, rnd);
    AllSettled(s, DeliverNext(s, i, x, delay, rnd), t);
  }

  lemma HeadIsQueued(s: System, i: nat)
    requires Inv(s) && Queue(s.ic.rspQueue, i) != []
    ensures FromInit(s, i, Queue(s.ic.rspQueue, i)[0].trans, RspQueued)
  {
    assert RspSideOk(s, i);
  }

  lemma PopRspNext(s: System, i: nat)
    requires Good(s) && Quiet(s) && i in s.ic.endRsp && Queue(s.ic.rspQueue, i) != []
    ensures var s', x := PopRsp(s, i), Queue(s.ic.rspQueue, i)[0].trans;
            var t := Tok(s, x).target;
            && Good(s') && OnlyPasses(s', x) && Near(s, s', t) && Shifts(s, s', x, 1) && Settled(s', t)
            && Spare(s', x) > 0
            && Tok(s', x) == Token(RspReady, i, t) && i in s'.ic.endRsp
            && Late(Mon(s'), i, t, x, s'.now + Since(Queue(s.ic.rspQueue, i)[0].time, s.now))
  {
    hide Inv, Watched, Mon, Local, PopRsp, Late;
    var s', x := PopRsp(s, i), Queue(s.ic.rspQueue, i)[0].trans;
    var t := Tok(s, x).target;
    HeadIsQueued(s, i);
    PopRspGood(s, t, i, x);
    PopRspIs(s, t, i, x);
    StillOnly(s, s', x, t, i);
    assert Settled(s, t) && Targ(s', t) == Targ(s, t);
  }

  lemma EndRspProcessKeeps(s: System, i: nat, rnd: nat)
    requires Good(s) && Quiet(s) && i in s.ic.endRsp
    ensures Good(EndRspProcess(s, i, rnd)) && Quiet(EndRspProcess(s, i, rnd)) && SameConfig(s, EndRspProcess(s, i, rnd))
    ensures Even(s, EndRspProcess(s, i, rnd))
  {
    hide DeliverNext, Inv, Watched, Mon, Quiet;
    var q := Queue(s.ic.rspQueue, i);
    SlotTaken(s, i);
    assert Check(s, i in s.ic.rspSlot) == s;
    if q == [] { ClearRspKeeps(s, i); } else { DeliverNextKeeps(s, i, rnd); }
  }

  lemma ClearsQuietly(s: System, s': System)
    requires Quiet(s) && s'.tokens == s.tokens && s'.targets == s.targets && s'.inits == s.inits
    requires s'.minLatency == s.minLatency
    requires s'.refs == s.refs
    ensures Quiet(s') && SameConfig(s, s') && Even(s, s')
  {
    forall y ensures !Passing(StageOf(s', y)) { assert StageOf(s', y) == StageOf(s, y); }
    forall u ensures Settled(s', u) { assert Settled(s, u); }
  }

  lemma ClearReqKeeps(s: System, t: nat)
    requires Good(s) && Quiet(s) && t in s.ic.endReq && Queue(s.ic.reqQueue, t) == []
    ensures Good(ClearReqSlot(s, t)) && Quiet(ClearReqSlot(s, t)) && SameConfig(s, ClearReqSlot(s, t))
    ensures Even(s, ClearReqSlot(s, t))
  {
    hide Inv, Watched, Mon;
    ClearReqSlotGood(s, t);
    ClearsQuietly(s, ClearReqSlot(s, t));
  }

  lemma HeadForwarded(s: System, t: nat, acc: nat, lat: nat, rnd: nat)
    requires Good(s) && Quiet(s) && t in s.ic.endReq && Queue(s.ic.reqQueue, t) != []
    requires s.minLatency <= lat
    ensures var e := Queue(s.ic.reqQueue, t)[0];
            var s' := ForwardNext(s, t, e.trans, Since(e.time, s.now), acc, lat, rnd);
            && Good(s') && Quiet(s') && SameConfig(s, s')
            && Shifts(s, s', e.trans, Bit(RespondsAtOnce(Targ(s, t)) && RouteOf(s, e.trans).init in s.ic.rspSlot))
  {
    hide Inv, Watched, Mon, ForwardReq, AfterForward, PopReq, Spare;
    var x := Queue(s.ic.reqQueue, t)[0].trans;
    var delay := Since(Queue(s.ic.reqQueue, t)[0].time, s.now);
    var i, s1 := Tok(s, x).init, PopReq(s, t);
    PopReqNext(s, t);
    assert Check(s, x in s.ic.ext && RouteOf(s, x).target == t) == s;
    ForwardNextKeeps(s1, t, i, x, delay, acc, lat, rnd);
    AllSettled(s, ForwardNext(s, t, x, delay, acc, lat, rnd), t);
  }

  lemma PopReqNext(s: System, t: nat)
    requires Good(s) && Quiet(s) && t in s.ic.endReq && Queue(s.ic.reqQueue, t) != []
    ensures var s', x := PopReq(s, t), Queue(s.ic.reqQueue, t)[0].trans;
            var i := Tok(s, x).init;
            && Good(s') && OnlyPasses(s', x) && Near(s, s', t) && Shifts(s, s', x, 1) && Settled(s', t)
            && Spare(s', x) > 0
            && MayForward(s', t, i, x) && x in s.ic.ext && RouteOf(s, x).target == t && RouteOf(s, x).init == i
            && Targ(s', t) == Targ(s, t) && s'.ic.rspSlot == s.ic.rspSlot
            && Early(Mon(s'), i, x, s'.now + Since(Queue(s.ic.reqQueue, t)[0].time, s.now))
  {
    hide Watched, Mon;
    var s', x := PopReq(s, t), Queue(s.ic.reqQueue, t)[0].trans;
    var i := Tok(s, x).init;
    assert ReqSideOk(s, t) && At(s, t, x, ReqQueued) && TransOk(s, x) && Settled(s, t);
    PopReqGood(s, t, i, x);
    StillOnly(s, s', x, t, i);
    assert Targ(s', t) == Targ(s, t);
  }

  lemma EndReqProcessKeeps(s: System, t: nat, acc: nat, lat: nat, rnd: nat)
    requires Good(s) && Quiet(s) && t in s.ic.endReq && s.minLatency <= lat
    ensures Good(EndReqProcess(s, t, acc, lat, rnd)) && Quiet(EndReqProcess(s, t, acc, lat, rnd))
    ensures SameConfig(s, EndReqProcess(s, t, acc, lat, rnd))
    ensures forall y :: Spare(EndReqProcess(s, t, acc, lat, rnd), y) == Spare(s, y) + Bit(Strands(s, t, y))
  {
    hide ForwardNext, Inv, Watched, Mon, Quiet;
    var q := Queue(s.ic.reqQueue, t);
    SlotTaken(s, t);
    assert Check(s, t in s.ic.reqSlot) == s;
    if q == [] { ClearReqKeeps(s, t); } else { HeadForwarded(s, t, acc, lat, rnd); }
  }

  // The head of the queue goes to its target
  lemma ForwardNextKeeps(s: System, t: nat, i: nat, x: Trans, delay: nat, acc: nat, lat: nat, rnd: nat)
    requires Good(s) && OnlyPasses(s, x) && Settled(s, t) && MayForward(s, t, i, x) && Spare(s, x) > 0
    requires s.minLatency <= lat && Early(Mon(s), i, x, s.now + delay)
    ensures var s' := AfterForward(ForwardReq(s, t, x, delay, acc, lat), i, x, rnd);
            && Good(s') && NonePasses(s') && Near(s, s', t) && Settled(s', t)
            && Shifts(s, s', x, Bit(RespondsAtOnce(Targ(s, t)) && i in s.ic.rspSlot) - 1)
  {
    hide Inv, Watched, Mon, OnlyPasses, Settled, ForwardReq, SendBwAfterRequest, NonePasses, Spare;
    var o := ForwardReq(s, t, x, delay, acc, lat);
    SentKeeps(s, t, i, x, delay, acc, lat);
    ForwardSpare(s, t, i, x, delay, acc, lat);
    ReplyTells(s, t, x, delay, acc, lat);
    ReplyNextKeeps(o.s, t, i, x, o.r, rnd);
  }

  lemma ReplyTells(s: System, t: nat, x: Trans, delay: nat, acc: nat, lat: nat)
    ensures var o := ForwardReq(s, t, x, delay, acc, lat);
            (IsResponse(o.r) <==> RespondsAtOnce(Targ(s, t))) && o.s.ic.rspSlot == s.ic.rspSlot
  {
    var s1 := OpenReq(s, t, x, delay);
    var o := TargetBeginReq(s1, t, x, delay, acc, lat);
    TargetBeginReqEffect(s1, t, x, delay, acc, lat);
    OnReplySlot(o.s, t, x, o.r);
  }

  lemma OnReplySlot(s: System, t: nat, x: Trans, r: Reply)
    ensures OnReply(s, t, x, r).ic.rspSlot == s.ic.rspSlot
  {
    if r.status.Updated? {
      assert OnReply(s, t, x, r) == NotifyEndReq(Show(s, TargHop(t), x, Backward(r.phase), r.delay), t);
    } else if r.status.Completed? {
      var s1 := NotifyEndReq(Show(s, TargHop(t), x, FwCompleted(true), r.delay), t);
      assert OnReply(s, t, x, r) == StopForward(s1, x);
    }
  }

  lemma ReadyNext(s: System, t: nat, i: nat, x: Trans)
    requires Good(s) && OnlyPasses(s, x) && Settled(s, t) && Tok(s, x) == Token(RspReady, i, t)
    ensures var s1 := Ready(s, i, x);
            && Mon(s1) == Mon(s) && s1.now == s.now && Good(s1) && OnlyPasses(s1, x) && Settled(s1, t)
            && s1.ic == s.ic && Spare(s1, x) == Spare(s, x)
            && Tok(s1, x) == Tok(s, x) && AwayFrom(s, s1, t) && Targ(s1, t) == Targ(s, t)
  {
    hide Inv, Watched, Mon;
    ReadyGood(s, t, i, x);
    StillOnly(s, Ready(s, i, x), x, t, i);
  }

  lemma QueueNext(s: System, t: nat, i: nat, x: Trans, delay: nat)
    requires Good(s) && OnlyPasses(s, x) && Tok(s, x) == Token(RspReady, i, t) && i in s.ic.rspSlot
    requires Late(Mon(s), i, t, x, s.now + delay)
    ensures var s' := QueueRsp(s, i, x, delay);
            && Good(s') && NonePasses(s') && AwayFrom(s, s', t) && Targ(s', t) == Targ(s, t)
            && (Settled(s, t) ==> Settled(s', t))
  {
    hide Inv, Watched, Mon;
    QueueRspGood(s, t, i, x, delay);
    QueueRspSpare(s, t, i, x, delay);
    StillOnly(s, QueueRsp(s, i, x, delay), x, t, i);
  }

  lemma ReplyNextKeeps(s: System, t: nat, i: nat, x: Trans, r: Reply, rnd: nat)
    requires Good(s) && OnlyPasses(s, x) && Settled(s, t) && Spare(s, x) > 0
    requires Replied(s, t, x, r) && Tok(s, x) == Token(StageOf(s, x), i, t)
    requires ReplyKnown(s, t, i, x, r)
    ensures var s' := SendBwAfterRequest(s, i, x, r, rnd);
            && Good(s') && NonePasses(s') && Near(s, s', t) && Settled(s', t)
            && Shifts(s, s', x, Bit(IsResponse(r) && i in s.ic.rspSlot) - 1)
  {
    hide Inv, Watched, Mon, InitPosts, Ready, QueueRsp, SendRspBw, Spare, Release;
    if r.status == Accepted {
      LastRelease(s, x);
    } else if r.status == Updated && r.phase == EndReq {
      EndReqNext(s, t, i, x, r.delay);
      LastRelease(InitPosts(s, i, x, EndReq, r.delay), x);
    } else {
      RespondNextKeeps(s, t, i, x, r.delay, rnd);
    }
  }

  lemma EndReqNext(s: System, t: nat, i: nat, x: Trans, delay: nat)
    requires Good(s) && OnlyPasses(s, x) && Tok(s, x) == Token(Executing, i, t)
    requires Asked(s, i, x) && Late(Mon(s), i, t, x, s.now + delay) && RunsAfter(s, t, x, s.now + delay)
    ensures var s' := InitPosts(s, i, x, EndReq, delay);
            && Good(s') && NonePasses(s') && AwayFrom(s, s', t) && Targ(s', t) == Targ(s, t)
            && Spare(s', x) == Spare(s, x) && (Settled(s, t) ==> Settled(s', t))
  {
    hide Inv, Watched, Mon;
    EndReqToInitGood(s, t, i, x, delay);
    StillOnly(s, InitPosts(s, i, x, EndReq, delay), x, t, i);
  }

  lemma RespondNextKeeps(s: System, t: nat, i: nat, x: Trans, delay: nat, rnd: nat)
    requires Good(s) && OnlyPasses(s, x) && Settled(s, t) && Spare(s, x) > 0 && Tok(s, x) == Token(RspReady, i, t)
    requires Late(Mon(s), i, t, x, s.now + delay)
    ensures var s1 := Ready(s, i, x);
            var s' := if i in s1.ic.rspSlot then QueueRsp(s1, i, x, delay)
                      else Release(SendRspBw(s1, i, x, delay, rnd), x);
            && Good(s') && NonePasses(s') && Near(s, s', t) && Settled(s', t)
            && Shifts(s, s', x, Bit(i in s.ic.rspSlot) - 1)
  {
    hide Inv, Watched, Mon, OnlyPasses, Settled, Ready, QueueRsp, SendRspBw, Release, NonePasses, Spare;
    var s1 := Ready(s, i, x);
    ReadyNext(s, t, i, x);
    if i in s1.ic.rspSlot {
      QueueNext(s1, t, i, x, delay);
    } else {
      SendRspKeeps(s1, t, i, x, delay, rnd);
    }
  }

  lemma ForwardSpare(s: System, t: nat, i: nat, x: Trans, delay: nat, acc: nat, lat: nat)
    requires Tok(s, x) == Token(ReqReady, i, t)
    ensures Spare(ForwardReq(s, t, x, delay, acc, lat).s, x) == Spare(s, x)
  {
    var s1 := OpenReq(s, t, x, delay);
    var o := TargetBeginReq(s1, t, x, delay, acc, lat);
    TargetBeginReqEffect(s1, t, x, delay, acc, lat);
    OnReplySpare(o.s, t, x, o.r);
  }

  lemma OnReplySpare(s: System, t: nat, x: Trans, r: Reply)
    ensures Spare(OnReply(s, t, x, r), x) == Spare(s, x)
  {
    if r.status.Updated? {
      assert OnReply(s, t, x, r) == NotifyEndReq(Show(s, TargHop(t), x, Backward(r.phase), r.delay), t);
    } else if r.status.Completed? {
      var s1 := NotifyEndReq(Show(s, TargHop(t), x, FwCompleted(true), r.delay), t);
      assert OnReply(s, t, x, r) == StopForward(s1, x);
    }
  }

  // ---------- Every step ----------

  lemma TickKeeps(s: System, time: nat)
    requires Good(s) && Quiet(s) && MayAdvance(s, time)
    ensures Good(s.(now := time)) && Quiet(s.(now := time)) && SameConfig(s, s.(now := time))
    ensures Even(s, s.(now := time))
  {
    hide Watched, Mon;
    UnseenWatched(s, s.(now := time));
    var s' := s.(now := time);
    forall x ensures TransOk(s', x) && !Passing(StageOf(s', x)) && Spare(s', x) == Spare(s, x) {
      assert TransOk(s, x) && !Passing(StageOf(s, x));
    }
    forall t ensures ReqSideOk(s', t) { TickReqSide(s, t, time); }
    forall i ensures RspSideOk(s', i) { TickRspSide(s, i, time); }
    forall i ensures InitOk(s', i) { TickInit(s, i, time); }
    forall t ensures TargOk(s', t) && Settled(s', t) { TickTarg(s, t, time); }
  }

  lemma TickReqSide(s: System, t: nat, time: nat)
    requires ReqSideOk(s, t)
    ensures ReqSideOk(s.(now := time), t)
  {
    var q := Queue(s.ic.reqQueue, t);
    forall k | 0 <= k < |q| ensures At(s.(now := time), t, q[k].trans, ReqQueued) {
      assert At(s, t, q[k].trans, ReqQueued);
    }
  }

  lemma TickRspSide(s: System, i: nat, time: nat)
    requires RspSideOk(s, i)
    ensures RspSideOk(s.(now := time), i)
  {
    var q := Queue(s.ic.rspQueue, i);
    forall k | 0 <= k < |q| ensures FromInit(s.(now := time), i, q[k].trans, RspQueued) {
      assert FromInit(s, i, q[k].trans, RspQueued);
    }
  }

  lemma TickInit(s: System, i: nat, time: nat)
    requires InitOk(s, i) && MayAdvance(s, time)
    ensures InitOk(s.(now := time), i)
  {
    var q := Init(s, i).peq;
    forall y ensures InitLaneOk(s.(now := time), i, q, y) {
      assert InitLaneOk(s, i, q, y);
      assert i in s.inits ==> NoneBefore(q, time);
    }
  }

  lemma TickTarg(s: System, t: nat, time: nat)
    requires TargOk(s, t) && Settled(s, t) && MayAdvance(s, time)
    ensures TargOk(s.(now := time), t) && Settled(s.(now := time), t)
  {
    var s' := s.(now := time);
    var q := Targ(s, t).peq;
    assert t in s.targets ==> NoneBefore(q, time);
    assert Executions(s', t) == Executions(s, t);
    forall y ensures TargLaneOk(s', t, q, y) {
      assert TargLaneOk(s, t, q, y);
      if Lane(q, y) != [] { assert t in s.targets && time <= Lane(q, y)[0].time; }
    }
  }

  lemma StepKeeps(s: System, a: Action)
    requires Good(s) && Quiet(s) && Enabled(s, a)
    ensures Good(Apply(s, a)) && Quiet(Apply(s, a)) && SameConfig(s, Apply(s, a))
    ensures forall y :: Spare(Apply(s, a), y) == Spare(s, y) + Bit(a.RunsEndReq? && Strands(s, a.t, y))
  {
    hide Watched, Mon;
    match a
    case Allocates(i, x) => AllocatesKeeps(s, i, x);
    case Issues(i, t, delay, acc, lat) => IssueKeeps(s, i, t, delay, acc, lat);
    case InitPeq(i, x, rnd) => InitCallbackKeeps(s, i, x, rnd);
    case TargPeq(t, x, rnd, acc, lat) => TargetCallbackKeeps(s, t, x, rnd, acc, lat);
    case RunsSendRsp(t, rnd) => DeferredResponseKeeps(s, t, rnd);
    case RunsEndReq(t, acc, lat, rnd) => EndReqProcessKeeps(s, t, acc, lat, rnd);
    case RunsEndRsp(i, rnd) => EndRspProcessKeeps(s, i, rnd);
    case Tick(time) => TickKeeps(s, time);
  }

  lemma InitialKeeps(s: System)
    requires Initial(s)
    ensures Good(s) && Quiet(s)
  {
    hide Watched, Mon;
    InitialWatched(s);
    forall t ensures TargOk(s, t) { assert Executions(s, t) == {}; }
  }

  lemma {:induction false} RunKeeps(s: System, actions: seq<Action>)
    requires Good(s) && Quiet(s) && Runs(s, actions)
    ensures Good(After(s, actions)) && Quiet(After(s, actions)) && SameConfig(s, After(s, actions))
    decreases |actions|
  {
    hide Watched, Mon;
    if |actions| > 0 {
      StepKeeps(s, actions[0]);
      RunKeeps(Apply(s, actions[0]), actions[1..]);
    }
  }
}
