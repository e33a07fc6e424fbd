/** Moves made by the callbacks of targets and initiators keep the invariant. */
module AtCallbacks {
  import opened Tlm
  import opened AtSystem
  import opened AtInvariant
  import opened AtFrame
  import opened AtKeeps

  // ---------- A target begins its response ----------

  predicate MayRespond(s: System, t: nat, i: nat, x: Trans) {
    Tok(s, x) == Token(Executed, i, t) && !Targ(s, t).responding && !Targ(s, t).rspEvent
  }

  function Enter(s: System, t: nat, x: Trans, delay: nat): System {
    EnterResponse(StartResponse(s, t, x), t, x, delay)
  }

  lemma EnterLocal(s: System, t: nat, i: nat, x: Trans, delay: nat)
    requires MayRespond(s, t, i, x) && t in s.targets && Responder(s, t) == None && RouteOf(s, x).init == i
    ensures Local(s, Enter(s, t, x, delay), x, t, i)
  {
    var s1 := PutTarg(s, t, Targ(s, t).(responding := true));
    var s2 := StartResponse(s, t, x);
    var s3 := Show(s2, TargHop(t), x, Backward(BeginResp), delay);
    var s4 := Move(s3, x, RspReady);
    PutTargLocal(s, t, i, x, Targ(s, t).(responding := true));
    RespondLocal(s1, t, i, x);
    LocalTrans(s, s1, s2, x, t, i);
    ShowLocal(s2, t, i, x, TargHop(t), Backward(BeginResp), delay);
    LocalTrans(s, s2, s3, x, t, i);
    MoveLocal(s3, t, i, x, RspReady);
    LocalTrans(s, s3, s4, x, t, i);
    EnterRestLocal(s4, t, i, x);
    LocalTrans(s, s4, EnterRest(s4, t, x), x, t, i);
  }

  lemma EndByResponseLocal(s: System, t: nat, i: nat, x: Trans)
    requires Mine(s, x, t, i)
    ensures Local(s, EndByResponse(s, t, x), x, t, i) && Mine(EndByResponse(s, t, x), x, t, i)
  {
    hide Local;
    if t in s.ic.reqSlot && s.ic.reqSlot[t] == x {
      NotifyReqLocal(s, t, i, x);
    } else {
      OwnLocal(s, s, x, t, i);
    }
  }

  lemma EnterRestLocal(s: System, t: nat, i: nat, x: Trans)
    requires Mine(s, x, t, i) && RouteOf(s, x).init == i
    ensures Local(s, EnterRest(s, t, x), x, t, i)
  {
    hide Local, EndByResponse;
    var s1 := EndByResponse(s, t, x);
    var s2 := Check(s1, x in s1.ic.ext);
    EndByResponseLocal(s, t, i, x);
    CheckLocal(s1, t, i, x, x in s1.ic.ext);
    LocalTrans(s, s1, s2, x, t, i);
    ReadyLocal(s2, t, i, x);
    LocalTrans(s, s2, Ready(s2, i, x), x, t, i);
  }

  lemma NotResponding(s: System, t: nat)
    requires TargOk(s, t) && !Targ(s, t).responding
    ensures Responder(s, t) == None
  {
  }

  lemma EnterReqSide(s: System, t: nat, i: nat, x: Trans, delay: nat)
    requires ReqSideOk(s, t) && TransOk(s, x) && MayRespond(s, t, i, x) && Local(s, Enter(s, t, x, delay), x, t, i)
    ensures ReqSideOk(Enter(s, t, x, delay), t)
  {
    hide Local;
    ReqSideChanges(s, Enter(s, t, x, delay), x, t, i);
  }

  // What the initiator's side sees of it: nothing
  lemma EnterElse(s: System, t: nat, i: nat, x: Trans, delay: nat)
    requires Tok(s, x) == Token(Executed, i, t)
    ensures var s' := Enter(s, t, x, delay); SameRspSide(s, s', i) && s'.inits == s.inits
  {
    hide Enter;
    EnterHolds(s, t, i, x, delay);
  }

  lemma EnterInit(s: System, t: nat, i: nat, x: Trans, delay: nat)
    requires Tok(s, x) == Token(Executed, i, t)
    ensures SameForInit(s, Enter(s, t, x, delay), x, i)
  {
    hide Enter;
    EnterIs(s, t, i, x, delay);
  }

  lemma EnterKeeps(s: System, t: nat, i: nat, x: Trans, delay: nat)
    requires Inv(s) && MayRespond(s, t, i, x)
    ensures Inv(Enter(s, t, x, delay)) && Local(s, Enter(s, t, x, delay), x, t, i)
  {
    hide Inv, Local, Enter, TargOk, ReqSideOk, RspSideOk, InitOk;
    var s' := Enter(s, t, x, delay);
    Around(s, x, t, i);
    assert t in s.targets && RouteOf(s, x).init == i && Responder(s, t) == None by { NotResponding(s, t); }
    EnterLocal(s, t, i, x, delay);
    EnterTrans(s, t, i, x, delay);
    EnterReqSide(s, t, i, x, delay);
    EnterTarg(s, t, i, x, delay);
    EnterElse(s, t, i, x, delay);
    EnterInit(s, t, i, x, delay);
    ConcludesAtTarget(s, s', x, t, i);
  }

  lemma EndByResponseHolds(s: System, t: nat, x: Trans)
    ensures var s' := EndByResponse(s, t, x);
            && s'.refs == s.refs && s'.ic == s.ic.(endReq := s'.ic.endReq) && s'.inits == s.inits
            && s'.targets == s.targets
            && s'.responder == s.responder && s'.failed == s.failed
  {
  }

  lemma EnterRestHolds(s: System, t: nat, x: Trans)
    ensures var s' := EnterRest(s, t, x);
            && s'.refs == s.refs && s'.ic == s.ic.(endReq := s'.ic.endReq) && s'.inits == s.inits
            && s'.targets == s.targets
            && s'.responder == s.responder && (x in s.ic.ext ==> s'.failed == s.failed)
  {
    hide EndByResponse;
    EndByResponseHolds(s, t, x);
  }

  lemma EnterHolds(s: System, t: nat, i: nat, x: Trans, delay: nat)
    requires Tok(s, x) == Token(Executed, i, t)
    ensures var s' := Enter(s, t, x, delay);
            && Refs(s', x) == Refs(s, x) && s'.ic == s.ic.(endReq := s'.ic.endReq) && s'.inits == s.inits
            && s'.targets.Keys == s.targets.Keys + {t} && t in s'.responder && s'.responder[t] == x
            && (x in s.ic.ext ==> s'.failed == s.failed)
  {
    hide EnterRest;
    EnterRestHolds(Move(Show(StartResponse(s, t, x), TargHop(t), x, Backward(BeginResp), delay), x, RspReady), t, x);
  }

  lemma EnterTrans(s: System, t: nat, i: nat, x: Trans, delay: nat)
    requires TransOk(s, x) && TargOk(s, t) && MayRespond(s, t, i, x)
    ensures TransOk(Enter(s, t, x, delay), x) && Enter(s, t, x, delay).failed == s.failed
  {
    hide Enter;
    EnterIs(s, t, i, x, delay);
    EnterHolds(s, t, i, x, delay);
  }

  lemma EnterIs(s: System, t: nat, i: nat, x: Trans, delay: nat)
    requires Tok(s, x) == Token(Executed, i, t)
    ensures var s' := Enter(s, t, x, delay);
            && Tok(s', x) == Token(RspReady, i, t) && s'.now == s.now && Responder(s', t) == Some(x)
            && Targ(s', t) == Targ(s, t).(responding := true)
  {
  }

  // An execution ends and its response begins
  lemma CountResponds(s: System, s': System, x: Trans, t: nat, i: nat)
    requires Local(s, s', x, t, i) && CountOk(s, t) && Counted(Seen(s, t, x)) && !Counted(Seen(s', t, x))
    requires Targ(s', t) == Targ(s, t).(responding := true) && !Targ(s, t).responding
    ensures CountOk(s', t)
  {
    hide Local, Counted, Seen, Executions;
    ExecutionEnds(s, s', x, t, i);
  }

  lemma EnterLaneOk(s: System, t: nat, i: nat, x: Trans, delay: nat)
    requires TargOk(s, t) && Tok(s, x) == Token(Executed, i, t)
    ensures var s' := Enter(s, t, x, delay); TargLaneOk(s', t, Targ(s', t).peq, x)
  {
    hide Enter;
    assert TargLaneOk(s, t, Targ(s, t).peq, x);
    EnterIs(s, t, i, x, delay);
  }

  lemma EnterTarg(s: System, t: nat, i: nat, x: Trans, delay: nat)
    requires TransOk(s, x) && TargOk(s, t) && MayRespond(s, t, i, x) && Local(s, Enter(s, t, x, delay), x, t, i)
    ensures TargOk(Enter(s, t, x, delay), t)
  {
    hide Enter, Local, CountOk, TargLaneOk;
    var s' := Enter(s, t, x, delay);
    EnterIs(s, t, i, x, delay);
    EnterLaneOk(s, t, i, x, delay);
    CountResponds(s, s', x, t, i);
    TargChanges(s, s', x, t, i);
  }

  // ---------- A target sends END_REQ on the backward path ----------

  lemma IcEndReqHolds(s: System, t: nat, i: nat, x: Trans, acc: nat)
    requires RouteOf(s, x).init == i
    ensures var s', n := IcEndReq(s, t, x, acc), Init(s, i);
            && s'.tokens == s.tokens && s'.targets == s.targets && s'.refs == s.refs && s'.now == s.now
            && Init(s', i) == n.(peq := Post(n.peq, x, s.now + acc, EndReq)) && i in s'.inits
            && s'.ic == s.ic.(endReq := s.ic.endReq + {t}) && s'.responder == s.responder
            && (x in s.ic.ext && t in s.ic.reqSlot ==> s'.failed == s.failed)
  {
  }

  lemma SendEndReqIs(s: System, t: nat, i: nat, x: Trans, acc: nat, lat: nat)
    requires Tok(s, x) == Token(ReqTaken, i, t) && RouteOf(s, x).init == i
    ensures var s', g, n := SendEndReq(s, t, x, acc, lat), Targ(s, t), Init(s, i);
            && (forall y :: Tok(s', y) == if y == x then Token(Executing, i, t) else Tok(s, y)) && x in s'.tokens
            && Targ(s', t) == g.(peq := Post(g.peq, x, s.now + acc + lat, Internal), nTrans := g.nTrans + 1)
            && Init(s', i) == n.(peq := Post(n.peq, x, s.now + acc, EndReq)) && t in s'.targets && i in s'.inits
            && s'.ic == s.ic.(endReq := s.ic.endReq + {t}) && s'.responder == s.responder && s'.now == s.now
            && Refs(s', x) == Refs(s, x) && (x in s.ic.ext && t in s.ic.reqSlot ==> s'.failed == s.failed)
  {
    hide IcEndReq;
    IcEndReqHolds(s, t, i, x, acc);
  }

  function Accepted(s: System, t: nat, x: Trans, acc: nat, lat: nat): Target {
    var g := Targ(s, t);
    g.(peq := Post(g.peq, x, s.now + acc + lat, Internal), nTrans := g.nTrans + 1)
  }

  lemma IcEndReqIs(s: System, t: nat, i: nat, x: Trans, acc: nat)
    ensures var s' := IcEndReq(s, t, x, acc); Tok(s', x) == Tok(s, x) && s'.targets == s.targets && s'.now == s.now
  {
  }

  lemma IcEndReqLocal(s: System, t: nat, i: nat, x: Trans, acc: nat)
    requires Tok(s, x) == Token(ReqTaken, i, t) && i in s.inits && RouteOf(s, x).init == i && LiveReq(s, t) == Some(x)
    ensures Local(s, IcEndReq(s, t, x, acc), x, t, i)
  {
    hide Local;
    var s1 := Show(s, TargHop(t), x, Backward(EndReq), acc);
    var s2 := NotifyEndReq(s1, t);
    var s3 := Check(s2, x in s2.ic.ext);
    ShowLocal(s, t, i, x, TargHop(t), Backward(EndReq), acc);
    NotifyReqLocal(s1, t, i, x);
    LocalTrans(s, s1, s2, x, t, i);
    CheckLocal(s2, t, i, x, x in s2.ic.ext);
    LocalTrans(s, s2, s3, x, t, i);
    InitPostsLocal(s3, t, i, x, EndReq, acc);
    LocalTrans(s, s3, IcEndReq(s, t, x, acc), x, t, i);
  }

  lemma SendEndReqLocal(s: System, t: nat, i: nat, x: Trans, acc: nat, lat: nat)
    requires Tok(s, x) == Token(ReqTaken, i, t) && t in s.targets && i in s.inits
    requires RouteOf(s, x).init == i && LiveReq(s, t) == Some(x)
    ensures Local(s, SendEndReq(s, t, x, acc, lat), x, t, i)
  {
    hide Local, IcEndReq, InitPosts, Targ;
    var s4 := IcEndReq(s, t, x, acc);
    var s' := SendEndReq(s, t, x, acc, lat);
    IcEndReqLocal(s, t, i, x, acc);
    IcEndReqIs(s, t, i, x, acc);
    PutAndMoveLocal(s4, t, i, x, Accepted(s4, t, x, acc, lat), Executing);
    assert s' == Move(PutTarg(s4, t, Accepted(s4, t, x, acc, lat)), x, Executing);
    LocalTrans(s, s4, s', x, t, i);
  }

  lemma TakenIs(s: System, t: nat, i: nat, x: Trans)
    requires Inv(s) && Tok(s, x) == Token(ReqTaken, i, t)
    ensures t in s.targets && i in s.inits && RouteOf(s, x) == Route(i, t, false) && x in s.ic.ext
    ensures LiveReq(s, t) == Some(x) && Pipelined(Targ(s, t).kind) && Spare(s, x) >= 0
  {
    assert TransOk(s, x);
  }

  lemma SendEndReqTrans(s: System, t: nat, i: nat, x: Trans, acc: nat, lat: nat)
    requires TransOk(s, x) && Tok(s, x) == Token(ReqTaken, i, t) && RouteOf(s, x).init == i
    ensures TransOk(SendEndReq(s, t, x, acc, lat), x)
  {
    hide SendEndReq;
    SendEndReqIs(s, t, i, x, acc, lat);
  }

  lemma SendEndReqSide(s: System, t: nat, i: nat, x: Trans, acc: nat, lat: nat)
    requires ReqSideOk(s, t) && Tok(s, x) == Token(ReqTaken, i, t) && RouteOf(s, x).init == i
    requires LiveReq(s, t) == Some(x)
    requires Local(s, SendEndReq(s, t, x, acc, lat), x, t, i)
    ensures ReqSideOk(SendEndReq(s, t, x, acc, lat), t)
  {
    hide Local, SendEndReq;
    SendEndReqIs(s, t, i, x, acc, lat);
    ReqSideChanges(s, SendEndReq(s, t, x, acc, lat), x, t, i);
  }

  lemma SendEndReqKeeps(s: System, t: nat, i: nat, x: Trans, acc: nat, lat: nat)
    requires Inv(s) && Tok(s, x) == Token(ReqTaken, i, t) && Targ(s, t).nTrans <= 1
    ensures Inv(SendEndReq(s, t, x, acc, lat)) && Local(s, SendEndReq(s, t, x, acc, lat), x, t, i)
  {
    hide Inv, Local, SendEndReq, TransOk, TargOk, ReqSideOk, RspSideOk, InitOk;
    var s' := SendEndReq(s, t, x, acc, lat);
    Around(s, x, t, i);
    TakenIs(s, t, i, x);
    SendEndReqLocal(s, t, i, x, acc, lat);
    SendEndReqIs(s, t, i, x, acc, lat);
    SendEndReqTrans(s, t, i, x, acc, lat);
    SendEndReqSide(s, t, i, x, acc, lat);
    SendEndReqTarg(s, t, i, x, acc, lat);
    SendEndReqInit(s, t, i, x, acc, lat);
    Concludes(s, s', x, t, i);
  }

  // One transaction more is executed
  lemma CountGrows(s: System, s': System, x: Trans, t: nat, i: nat)
    requires Local(s, s', x, t, i) && CountOk(s, t) && !Counted(Seen(s, t, x)) && Counted(Seen(s', t, x))
    requires x in s'.tokens
    requires Targ(s', t).nTrans == Targ(s, t).nTrans + 1 <= 2 && Targ(s', t).kind == Targ(s, t).kind
    requires Targ(s', t).responding == Targ(s, t).responding && Targ(s', t).nextRsp == Targ(s, t).nextRsp
    ensures CountOk(s', t)
  {
    hide Local, Counted, Seen, Executions;
    ExecutionStarts(s, s', x, t, i);
  }

  lemma SendEndReqLaneOk(s: System, t: nat, i: nat, x: Trans, acc: nat, lat: nat)
    requires TargOk(s, t) && Tok(s, x) == Token(ReqTaken, i, t) && RouteOf(s, x).init == i
    ensures var s' := SendEndReq(s, t, x, acc, lat); TargLaneOk(s', t, Targ(s', t).peq, x)
  {
    hide SendEndReq;
    assert TargLaneOk(s, t, Targ(s, t).peq, x);
    SendEndReqIs(s, t, i, x, acc, lat);
  }

  lemma SendEndReqTarg(s: System, t: nat, i: nat, x: Trans, acc: nat, lat: nat)
    requires TargOk(s, t) && Tok(s, x) == Token(ReqTaken, i, t) && Targ(s, t).nTrans <= 1
    requires Pipelined(Targ(s, t).kind) && RouteOf(s, x).init == i
    requires Local(s, SendEndReq(s, t, x, acc, lat), x, t, i)
    ensures TargOk(SendEndReq(s, t, x, acc, lat), t)
  {
    hide Local, SendEndReq, TargLaneOk, CountOk;
    var s' := SendEndReq(s, t, x, acc, lat);
    SendEndReqIs(s, t, i, x, acc, lat);
    SendEndReqLaneOk(s, t, i, x, acc, lat);
    CountGrows(s, s', x, t, i);
    TargChanges(s, s', x, t, i);
  }

  lemma SendEndReqInit(s: System, t: nat, i: nat, x: Trans, acc: nat, lat: nat)
    requires InitOk(s, i) && RspSideOk(s, i) && Tok(s, x) == Token(ReqTaken, i, t) && RouteOf(s, x).init == i
    requires Local(s, SendEndReq(s, t, x, acc, lat), x, t, i)
    ensures InitOk(SendEndReq(s, t, x, acc, lat), i) && RspSideOk(SendEndReq(s, t, x, acc, lat), i)
  {
    hide Local, SendEndReq;
    var s' := SendEndReq(s, t, x, acc, lat);
    SendEndReqIs(s, t, i, x, acc, lat);
    InitLaneGrows(s, s', i, x, s.now + acc, EndReq);
    RspSideStays(s, s', x, t, i, i);
  }

  // ---------- Events taken from a target's queue ----------

  function Taken(s: System, t: nat, x: Trans): Target {
    Targ(s, t).(peq := Take(Targ(s, t).peq, x))
  }

  lemma PutAndMoveLocal(s: System, t: nat, i: nat, x: Trans, g: Target, stage: Stage)
    requires Tok(s, x) == Token(StageOf(s, x), i, t) && t in s.targets && g.kind == Targ(s, t).kind
    requires Kept(Targ(s, t).endReqPending, g.endReqPending, x) && Kept(Targ(s, t).nextRsp, g.nextRsp, x)
    ensures Local(s, Move(PutTarg(s, t, g), x, stage), x, t, i)
  {
    var s1 := PutTarg(s, t, g);
    PutTargLocal(s, t, i, x, g);
    MoveLocal(s1, t, i, x, stage);
    LocalTrans(s, s1, Move(s1, x, stage), x, t, i);
  }

  // A move of x inside its target
  lemma MovesInTarget(s: System, s': System, t: nat, i: nat, x: Trans)
    requires TransOk(s, x) && Tok(s, x) == Token(StageOf(s, x), i, t) && StageOf(s, x) !in {Free, Held}
    requires Tok(s', x) == Token(StageOf(s', x), i, t) && s'.ic == s.ic
    requires StageOf(s', x) in {ReqTaken, ReqDeferred, Executing, Executed, RspDeferred, PeqEnd}
    requires t in s'.targets && i in s'.inits && Targ(s', t).kind == Targ(s, t).kind
    requires Fits(StageOf(s', x), Targ(s, t).kind)
    requires RouteOf(s, x) == Route(i, t, false) && Spare(s', x) >= 0
    requires Open(s', x) ==> Open(s, x)
    requires StageOf(s', x).ReqDeferred? ==> Targ(s', t).endReqPending == Some(x)
    requires StageOf(s', x).RspDeferred? ==> Targ(s', t).nextRsp == Some(x)
    requires StageOf(s', x).PeqEnd? ==> t in s'.responder && s'.responder[t] == x
    ensures TransOk(s', x)
  {
  }

  // x is the open request of its target, so no other END_REQ is deferred
  lemma AlreadyOpen(s: System, t: nat, i: nat, x: Trans)
    requires Inv(s) && Tok(s, x) == Token(StageOf(s, x), i, t) && Open(s, x)
    ensures Targ(s, t).endReqPending.Some? ==> Targ(s, t).endReqPending.value == x
    ensures Implicit(Targ(s, t).kind) && Targ(s, t).nextRsp.Some? ==> Targ(s, t).nextRsp.value == x
  {
    var g := Targ(s, t);
    assert TransOk(s, x) && TargOk(s, t);
    if g.endReqPending.Some? { assert TransOk(s, g.endReqPending.value); }
    if g.nextRsp.Some? { assert TransOk(s, g.nextRsp.value); }
  }

  // The pipeline is never asked to hold a second deferred response
  lemma NoSecondDeferral(s: System, t: nat, i: nat, x: Trans)
    requires Inv(s) && Tok(s, x) == Token(Executing, i, t) && Targ(s, t).responding
    ensures Targ(s, t).nextRsp == None
  {
    var g := Targ(s, t);
    assert TransOk(s, x) && TargOk(s, t);
    assert x in Executions(s, t) && Executions(s, t) == (Executions(s, t) - {x}) + {x};
    if g.kind.TypeC? { AlreadyOpen(s, t, i, x); }
  }

  // x goes to another stage inside target t; the target acquires it if the stage was PeqReq
  function Shift(s: System, t: nat, x: Trans, g': Target, stage: Stage): System {
    Move(PutTarg(if StageOf(s, x).PeqReq? then Acquire(s, x) else s, t, g'), x, stage)
  }

  // What the target holds of x at a stage, and what it counts
  predicate HeldAt(s: System, x: Trans, g: Target, g': Target, stage: Stage) {
    && g'.kind == g.kind && g'.responding == g.responding && g'.nTrans == g.nTrans
    && (g'.endReqPending == if stage.ReqDeferred? then Some(x) else if g.endReqPending == Some(x) then None
         else g.endReqPending)
    && (g'.nextRsp == if stage.RspDeferred? then Some(x) else if g.nextRsp == Some(x) then None else g.nextRsp)
    && (g'.rspEvent ==> g.rspEvent && g'.nextRsp == g.nextRsp)
    && (if stage.Executing? then OneEvent(Lane(g'.peq, x), s.now, Internal) else Lane(g'.peq, x) == [])
    && (Pipelined(g.kind) ==>
          Bit(g'.nextRsp.Some?) + Bit(Counted(stage)) == Bit(g.nextRsp.Some?) + Bit(Counted(StageOf(s, x))))
  }

  lemma ShiftLocal(s: System, t: nat, i: nat, x: Trans, g': Target, stage: Stage)
    requires Tok(s, x) == Token(StageOf(s, x), i, t) && t in s.targets && g'.kind == Targ(s, t).kind
    requires Kept(Targ(s, t).endReqPending, g'.endReqPending, x) && Kept(Targ(s, t).nextRsp, g'.nextRsp, x)
    ensures Local(s, Shift(s, t, x, g', stage), x, t, i)
  {
    hide Local;
    PutAndMoveLocal(s, t, i, x, g', stage);
    if StageOf(s, x).PeqReq? {
      AcquireLocal(s, t, i, x);
      PutAndMoveLocal(Acquire(s, x), t, i, x, g', stage);
      LocalTrans(s, Acquire(s, x), Shift(s, t, x, g', stage), x, t, i);
    }
  }

  lemma ShiftIs(s: System, t: nat, x: Trans, g': Target, stage: Stage)
    requires Tok(s, x).target == t && t in s.targets && g'.kind == Targ(s, t).kind
    ensures var s' := Shift(s, t, x, g', stage);
            && Tok(s', x) == Tok(s, x).(stage := stage) && x in s'.tokens && Targ(s', t) == g' && t in s'.targets
            && s'.ic == s.ic && s'.inits == s.inits && s'.responder == s.responder && s'.failed == s.failed
            && s'.now == s.now
            && Refs(s', x) == Refs(s, x) + Bit(StageOf(s, x).PeqReq?)
  {
  }

  // Stages inside a target, between the requests and the responses
  predicate Inside(g: Stage) { g in {PeqReq, ReqTaken, ReqDeferred, Executing, Executed, RspDeferred} }

  lemma ShiftTrans(s: System, t: nat, i: nat, x: Trans, g': Target, stage: Stage)
    requires TransOk(s, x) && Tok(s, x) == Token(StageOf(s, x), i, t) && Inside(StageOf(s, x)) && Inside(stage)
    requires !stage.PeqReq?
    requires Fits(stage, Targ(s, t).kind) && HeldAt(s, x, Targ(s, t), g', stage)
    requires (Open(s, x) || !Opens(stage, Targ(s, t).kind))
    ensures TransOk(Shift(s, t, x, g', stage), x)
  {
    hide Shift;
    ShiftIs(s, t, x, g', stage);
    MovesInTarget(s, Shift(s, t, x, g', stage), t, i, x);
  }

  // Whether a request at the stage is open
  predicate Opens(g: Stage, k: TargetKind) {
    g in {PeqReq, ReqTaken, ReqDeferred} || (Implicit(k) && g in {Executing, Executed, RspDeferred})
  }

  lemma ShiftCounts(s: System, s': System, t: nat, i: nat, x: Trans, stage: Stage)
    requires Local(s, s', x, t, i) && CountOk(s, t) && Inside(StageOf(s, x)) && Inside(stage) && x in s'.tokens
    requires Tok(s, x) == Token(StageOf(s, x), i, t) && Tok(s', x) == Token(stage, i, t)
    requires HeldAt(s, x, Targ(s, t), Targ(s', t), stage)
    ensures CountOk(s', t)
  {
    hide Local, Executions;
    if Counted(stage) == Counted(StageOf(s, x)) { ExecutionsStay(s, s', x, t, i, t); }
    else if Counted(stage) { ExecutionStarts(s, s', x, t, i); }
    else { ExecutionEnds(s, s', x, t, i); }
  }

  lemma ShiftTarg(s: System, t: nat, i: nat, x: Trans, g': Target, stage: Stage)
    requires TargOk(s, t) && Tok(s, x) == Token(StageOf(s, x), i, t) && Inside(StageOf(s, x)) && Inside(stage)
    requires !stage.PeqReq?
    requires HeldAt(s, x, Targ(s, t), g', stage) && t in s.targets && Local(s, Shift(s, t, x, g', stage), x, t, i)
    requires forall y :: y != x ==> Lane(g'.peq, y) == Lane(Targ(s, t).peq, y)
    ensures TargOk(Shift(s, t, x, g', stage), t)
  {
    hide Shift, Local, CountOk;
    var s' := Shift(s, t, x, g', stage);
    ShiftIs(s, t, x, g', stage);
    ShiftCounts(s, s', t, i, x, stage);
    TargChanges(s, s', x, t, i);
  }

  lemma ShiftReqSide(s: System, t: nat, i: nat, x: Trans, g': Target, stage: Stage)
    requires ReqSideOk(s, t) && Tok(s, x) == Token(StageOf(s, x), i, t) && Inside(StageOf(s, x))
    requires g'.kind == Targ(s, t).kind && t in s.targets && Local(s, Shift(s, t, x, g', stage), x, t, i)
    requires Open(s, x) == Opens(stage, Targ(s, t).kind)
    ensures ReqSideOk(Shift(s, t, x, g', stage), t)
  {
    hide Shift, Local;
    ShiftIs(s, t, x, g', stage);
    ReqSideChanges(s, Shift(s, t, x, g', stage), x, t, i);
  }

  // What the initiator's side sees of it: nothing
  lemma ShiftElse(s: System, t: nat, i: nat, x: Trans, g': Target, stage: Stage)
    requires Tok(s, x) == Token(StageOf(s, x), i, t) && Inside(StageOf(s, x)) && Inside(stage)
    ensures var s' := Shift(s, t, x, g', stage);
            && SameRspSide(s, s', i) && SameForRsp(s, s', x, i)
            && Init(s', i) == Init(s, i) && SameForInit(s, s', x, i)
  {
  }

  lemma ShiftKeeps(s: System, t: nat, i: nat, x: Trans, g': Target, stage: Stage)
    requires Inv(s) && Tok(s, x) == Token(StageOf(s, x), i, t) && Inside(StageOf(s, x)) && Inside(stage)
    requires !stage.PeqReq?
    requires Fits(stage, Targ(s, t).kind) && HeldAt(s, x, Targ(s, t), g', stage)
    requires Open(s, x) == Opens(stage, Targ(s, t).kind)
    requires Kept(Targ(s, t).endReqPending, g'.endReqPending, x) && Kept(Targ(s, t).nextRsp, g'.nextRsp, x)
    requires forall y :: y != x ==> Lane(g'.peq, y) == Lane(Targ(s, t).peq, y)
    ensures Inv(Shift(s, t, x, g', stage)) && Local(s, Shift(s, t, x, g', stage), x, t, i)
  {
    hide Inv, Shift, Local, HeldAt, TransOk, TargOk, ReqSideOk, RspSideOk, InitOk;
    hide SameRspSide, SameForRsp, SameForInit, Opens, Open, Kept;
    Around(s, x, t, i);
    Known(s, t, i, x);
    HeldKind(s, x, Targ(s, t), g', stage);
    ShiftLocal(s, t, i, x, g', stage);
    ShiftElse(s, t, i, x, g', stage);
    ShiftIs(s, t, x, g', stage);
    ShiftTrans(s, t, i, x, g', stage);
    ShiftTarg(s, t, i, x, g', stage);
    ShiftReqSide(s, t, i, x, g', stage);
    ConcludesAtTarget(s, Shift(s, t, x, g', stage), x, t, i);
  }

  lemma HeldKind(s: System, x: Trans, g: Target, g': Target, stage: Stage)
    requires HeldAt(s, x, g, g', stage)
    ensures g'.kind == g.kind
  {
  }

  // What a target knows of x before a move
  lemma Known(s: System, t: nat, i: nat, x: Trans)
    requires Inv(s) && Tok(s, x) == Token(StageOf(s, x), i, t) && Inside(StageOf(s, x))
    ensures var g := Targ(s, t);
            && t in s.targets && i in s.inits && Fits(StageOf(s, x), g.kind)
            && (g.endReqPending == Some(x) <==> StageOf(s, x).ReqDeferred?)
            && (g.nextRsp == Some(x) <==> StageOf(s, x).RspDeferred?)
            && (g.rspEvent ==> g.kind.TypeD?) && g.nTrans <= 2
            && (match StageOf(s, x)
                case PeqReq => OneEvent(Lane(g.peq, x), s.now, BeginReq)
                case Executing => OneEvent(Lane(g.peq, x), s.now, Internal)
                case _ => Lane(g.peq, x) == [])
  {
    assert TransOk(s, x) && TargOk(s, t) && TargLaneOk(s, t, Targ(s, t).peq, x);
  }

  // A pending event waits for no response
  lemma NotBoth(s: System, t: nat)
    requires Inv(s)
    ensures Targ(s, t).rspEvent ==> !Targ(s, t).responding
  {
    assert TargOk(s, t);
  }

  // ---------- The end of a response at its target ----------

  lemma FinishLocal(s: System, t: nat, i: nat, x: Trans)
    requires Tok(s, x) == Token(StageOf(s, x), i, t) && t in s.targets && Responder(s, t) == Some(x)
    ensures Local(s, Finish(s, t, x), x, t, i)
  {
    var g := Targ(Finish(s, t, x), t);
    var s1 := Release(s, x);
    var s2 := PutTarg(s1, t, g);
    var s3 := Disown(s2, t);
    ReleaseLocal(s, t, i, x);
    PutTargLocal(s1, t, i, x, g);
    LocalTrans(s, s1, s2, x, t, i);
    DisownLocal(s2, t, i, x);
    LocalTrans(s, s2, s3, x, t, i);
    MoveLocal(s3, t, i, x, Free);
    LocalTrans(s, s3, Move(s3, x, Free), x, t, i);
  }

  // x is over for its target, which is free to respond again
  predicate Ended(s: System, s': System, t: nat, x: Trans) {
    var g, g' := Targ(s, t), Targ(s', t);
    && s'.ic == s.ic && s'.inits == s.inits && s'.now == s.now && s'.failed == s.failed
    && Tok(s', x) == Tok(s, x).(stage := Free) && Refs(s', x) == Refs(s, x) - 1 && Responder(s', t) == None
    && g' == g.(peq := g'.peq, responding := false, rspEvent := g'.rspEvent,
         nTrans := if Pipelined(g.kind) then g.nTrans - 1 else g.nTrans)
    && (g'.rspEvent ==> g.kind.TypeD? && g.nextRsp.Some?)
    && Lane(g'.peq, x) == []
  }

  lemma EndsTarg(s: System, s': System, t: nat, i: nat, x: Trans)
    requires TargOk(s, t) && Local(s, s', x, t, i) && Ended(s, s', t, x)
    requires Tok(s, x) == Token(StageOf(s, x), i, t) && StageOf(s, x) in {Closing, Closed, PeqEnd}
    requires Responder(s, t) == Some(x)
    requires forall y :: y != x ==> Lane(Targ(s', t).peq, y) == Lane(Targ(s, t).peq, y)
    ensures TargOk(s', t)
  {
    hide Local;
    ExecutionsStay(s, s', x, t, i, t);
    TargChanges(s, s', x, t, i);
  }

  lemma EndsReqSide(s: System, s': System, t: nat, i: nat, x: Trans)
    requires ReqSideOk(s, t) && Local(s, s', x, t, i) && s'.ic == s.ic
    requires Tok(s, x) == Token(StageOf(s, x), i, t) && StageOf(s, x) in {Closing, Closed, PeqEnd}
    ensures ReqSideOk(s', t)
  {
    hide Local;
    ReqSideChanges(s, s', x, t, i);
  }

  lemma EndsKeeps(s: System, s': System, t: nat, i: nat, x: Trans)
    requires Inv(s) && Local(s, s', x, t, i) && Ended(s, s', t, x)
    requires Tok(s, x) == Token(StageOf(s, x), i, t) && StageOf(s, x) in {Closing, Closed, PeqEnd}
    requires !Targ(s, t).kind.TypeE?
    requires forall y :: y != x ==> Lane(Targ(s', t).peq, y) == Lane(Targ(s, t).peq, y)
    ensures Inv(s')
  {
    hide Inv, Local, TransOk, TargOk, ReqSideOk, RspSideOk, InitOk;
    Around(s, x, t, i);
    RespondingIs(s, t, i, x);
    assert TransOk(s', x) by { SpareOk(s, x); FreeIsOk(s', x); }
    EndsTarg(s, s', t, i, x);
    EndsReqSide(s, s', t, i, x);
    ConcludesAtTarget(s, s', x, t, i);
  }

  lemma SpareOk(s: System, x: Trans)
    requires Inv(s)
    ensures Spare(s, x) >= 0
  {
    assert TransOk(s, x);
  }

  lemma FreeIsOk(s: System, x: Trans)
    requires StageOf(s, x).Free? && Spare(s, x) >= 0
    ensures TransOk(s, x)
  {
  }

  // What is known of x while its target is responding to it
  lemma RespondingIs(s: System, t: nat, i: nat, x: Trans)
    requires Inv(s) && Tok(s, x) == Token(StageOf(s, x), i, t) && StageOf(s, x) in {Closing, Closed, PeqEnd}
    requires !Targ(s, t).kind.TypeE?
    ensures var g := Targ(s, t);
            && t in s.targets && i in s.inits && Responder(s, t) == Some(x) && g.responding && Refs(s, x) > 0
            && !g.rspEvent
            && RouteOf(s, x) == Route(i, t, false) && Fits(StageOf(s, x), g.kind)
            && (if StageOf(s, x).PeqEnd? then OneEvent(Lane(g.peq, x), s.now, EndResp) else Lane(g.peq, x) == [])
  {
    assert TransOk(s, x) && TargOk(s, t) && TargLaneOk(s, t, Targ(s, t).peq, x);
  }

  lemma FinishEnds(s: System, t: nat, x: Trans)
    requires Refs(s, x) > 0 && Tok(s, x).target == t && Lane(Targ(s, t).peq, x) == [] && !Targ(s, t).rspEvent
    ensures Ended(s, Finish(s, t, x), t, x) && Targ(Finish(s, t, x), t).peq == Targ(s, t).peq
  {
  }

  // TLM_COMPLETED from the initiator
  lemma FinishKeeps(s: System, t: nat, i: nat, x: Trans)
    requires Inv(s) && Tok(s, x) == Token(Closed, i, t)
    ensures Inv(Finish(s, t, x)) && Local(s, Finish(s, t, x), x, t, i)
  {
    hide Inv, Finish, Local, Ended;
    ClosedIs(s, x);
    RespondingIs(s, t, i, x);
    FinishLocal(s, t, i, x);
    FinishEnds(s, t, x);
    EndsKeeps(s, Finish(s, t, x), t, i, x);
  }

  lemma ClosedIs(s: System, x: Trans)
    requires Inv(s)
    ensures StageOf(s, x) in {Closed, PeqEnd} ==> !KindOf(s, x).TypeE?
  {
    assert TransOk(s, x);
  }

  function TakeEnd(s: System, t: nat, x: Trans): System {
    Finish(PutTarg(Check(s, Targ(s, t).responding), t, Taken(s, t, x)), t, x)
  }

  lemma TakeEndLocal(s: System, t: nat, i: nat, x: Trans)
    requires Tok(s, x) == Token(PeqEnd, i, t) && t in s.targets && Responder(s, t) == Some(x)
    ensures Local(s, TakeEnd(s, t, x), x, t, i)
  {
    hide Local, Finish;
    var s1 := Check(s, Targ(s, t).responding);
    var s2 := PutTarg(s1, t, Taken(s, t, x));
    CheckLocal(s, t, i, x, Targ(s, t).responding);
    PutTargLocal(s1, t, i, x, Taken(s, t, x));
    LocalTrans(s, s1, s2, x, t, i);
    FinishLocal(s2, t, i, x);
    LocalTrans(s, s2, TakeEnd(s, t, x), x, t, i);
  }

  lemma TakeEndEnds(s: System, t: nat, x: Trans)
    requires Refs(s, x) > 0 && Tok(s, x).target == t && Targ(s, t).responding && |Lane(Targ(s, t).peq, x)| == 1
    requires !Targ(s, t).rspEvent
    ensures Ended(s, TakeEnd(s, t, x), t, x) && Targ(TakeEnd(s, t, x), t).peq == Take(Targ(s, t).peq, x)
  {
  }

  // END_RESP from the event queue
  lemma TakeEndKeeps(s: System, t: nat, i: nat, x: Trans)
    requires Inv(s) && Tok(s, x) == Token(PeqEnd, i, t)
    ensures Inv(TakeEnd(s, t, x)) && Local(s, TakeEnd(s, t, x), x, t, i)
  {
    hide Inv, TakeEnd, Local, Ended;
    ClosedIs(s, x);
    RespondingIs(s, t, i, x);
    TakeEndLocal(s, t, i, x);
    TakeEndEnds(s, t, x);
    EndsKeeps(s, TakeEnd(s, t, x), t, i, x);
  }

  // ---------- END_RESP on the forward path ----------

  lemma PassToQueueIs(s: System, t: nat, x: Trans, delay: nat)
    requires Targ(s, t).kind in {TypeA, TypeB, TypeC} && Tok(s, x).target == t
    ensures var s', g := PassEndResp(s, t, x, delay).s, Targ(s, t);
            && Tok(s', x) == Tok(s, x).(stage := PeqEnd) && Refs(s', x) == Refs(s, x) && s'.responder == s.responder
            && Targ(s', t) == g.(peq := Post(g.peq, x, s.now + delay, EndResp)) && t in s'.targets
            && s'.ic == s.ic && s'.inits == s.inits && s'.now == s.now && s'.failed == s.failed
            && s' == Move(PutTarg(Show(s, TargHop(t), x, Forward(EndResp), delay), t, Targ(s', t)), x, PeqEnd)
  {
    var s1 := Show(s, TargHop(t), x, Forward(EndResp), delay);
    assert TargetEndResp(s1, t, x, delay) == TargetPostEnd(s1, t, x, delay);
  }

  lemma PassToQueueLocal(s: System, t: nat, i: nat, x: Trans, delay: nat)
    requires Tok(s, x) == Token(Closing, i, t) && t in s.targets && Targ(s, t).kind in {TypeA, TypeB, TypeC}
    ensures Local(s, PassEndResp(s, t, x, delay).s, x, t, i)
  {
    hide Local, PassEndResp;
    var s1 := Show(s, TargHop(t), x, Forward(EndResp), delay);
    PassToQueueIs(s, t, x, delay);
    ShowLocal(s, t, i, x, TargHop(t), Forward(EndResp), delay);
    PutAndMoveLocal(s1, t, i, x, Targ(PassEndResp(s, t, x, delay).s, t), PeqEnd);
    LocalTrans(s, s1, PassEndResp(s, t, x, delay).s, x, t, i);
  }

  lemma CountStays(s: System, s': System, x: Trans, t: nat, i: nat)
    requires Local(s, s', x, t, i) && CountOk(s, t) && (Counted(Seen(s', t, x)) <==> Counted(Seen(s, t, x)))
    requires Targ(s', t) == Targ(s, t).(peq := Targ(s', t).peq)
    ensures CountOk(s', t)
  {
    hide Local, Counted, Seen, Executions;
    ExecutionsStay(s, s', x, t, i, t);
  }

  lemma PassToQueueLaneOk(s: System, t: nat, i: nat, x: Trans, delay: nat)
    requires Tok(s, x) == Token(Closing, i, t) && Targ(s, t).kind in {TypeA, TypeB, TypeC}
    requires Lane(Targ(s, t).peq, x) == []
    ensures var s' := PassEndResp(s, t, x, delay).s; TargLaneOk(s', t, Targ(s', t).peq, x)
  {
    hide PassEndResp;
    PassToQueueIs(s, t, x, delay);
  }

  lemma PassToQueueTarg(s: System, t: nat, i: nat, x: Trans, delay: nat)
    requires TargOk(s, t) && Tok(s, x) == Token(Closing, i, t) && Targ(s, t).kind in {TypeA, TypeB, TypeC}
    requires Responder(s, t) == Some(x) && Lane(Targ(s, t).peq, x) == []
    requires Local(s, PassEndResp(s, t, x, delay).s, x, t, i)
    ensures TargOk(PassEndResp(s, t, x, delay).s, t)
  {
    hide Local, PassEndResp, CountOk, TargLaneOk;
    var s' := PassEndResp(s, t, x, delay).s;
    PassToQueueIs(s, t, x, delay);
    PassToQueueLaneOk(s, t, i, x, delay);
    CountStays(s, s', x, t, i);
    TargChanges(s, s', x, t, i);
  }

  lemma PassToQueueTrans(s: System, t: nat, i: nat, x: Trans, delay: nat)
    requires TransOk(s, x) && Tok(s, x) == Token(Closing, i, t) && Targ(s, t).kind in {TypeA, TypeB, TypeC}
    requires Responder(s, t) == Some(x)
    ensures TransOk(PassEndResp(s, t, x, delay).s, x)
  {
    hide PassEndResp;
    PassToQueueIs(s, t, x, delay);
    MovesInTarget(s, PassEndResp(s, t, x, delay).s, t, i, x);
  }

  lemma PassToQueueKeeps(s: System, t: nat, i: nat, x: Trans, delay: nat)
    requires Inv(s) && Tok(s, x) == Token(Closing, i, t) && Targ(s, t).kind in {TypeA, TypeB, TypeC}
    ensures Inv(PassEndResp(s, t, x, delay).s) && Local(s, PassEndResp(s, t, x, delay).s, x, t, i)
  {
    hide Inv, PassEndResp, Local, TransOk, TargOk, ReqSideOk, RspSideOk, InitOk;
    var s' := PassEndResp(s, t, x, delay).s;
    Around(s, x, t, i);
    RespondingIs(s, t, i, x);
    PassToQueueIs(s, t, x, delay);
    PassToQueueLocal(s, t, i, x, delay);
    PassToQueueTrans(s, t, i, x, delay);
    EndsReqSide(s, s', t, i, x);
    PassToQueueTarg(s, t, i, x, delay);
    ConcludesAtTarget(s, s', x, t, i);
  }

  lemma PassToTypeDLocal(s: System, t: nat, i: nat, x: Trans, delay: nat)
    requires Tok(s, x) == Token(Closing, i, t) && t in s.targets && Targ(s, t).kind.TypeD?
    requires Responder(s, t) == Some(x)
    ensures Local(s, PassEndResp(s, t, x, delay).s, x, t, i)
  {
    var s1 := Show(s, TargHop(t), x, Forward(EndResp), delay);
    var o := TargetEndResp(s1, t, x, delay);
    var s2 := Check(s1, Targ(s, t).responding);
    var s3 := Release(s2, x);
    var s4 := PutTarg(s3, t, Targ(o.s, t));
    var s5 := Disown(s4, t);
    ShowLocal(s, t, i, x, TargHop(t), Forward(EndResp), delay);
    CheckLocal(s1, t, i, x, Targ(s, t).responding);
    LocalTrans(s, s1, s2, x, t, i);
    ReleaseLocal(s2, t, i, x);
    LocalTrans(s, s2, s3, x, t, i);
    PutTargLocal(s3, t, i, x, Targ(o.s, t));
    LocalTrans(s, s3, s4, x, t, i);
    DisownLocal(s4, t, i, x);
    LocalTrans(s, s4, s5, x, t, i);
    MoveLocal(s5, t, i, x, Free);
    LocalTrans(s, s5, o.s, x, t, i);
    ShowLocal(o.s, t, i, x, TargHop(t), FwCompleted(false), delay);
    LocalTrans(s, o.s, Show(o.s, TargHop(t), x, FwCompleted(false), delay), x, t, i);
  }

  lemma PassToTypeDEnds(s: System, t: nat, x: Trans, delay: nat)
    requires Refs(s, x) > 0 && Tok(s, x).target == t && Targ(s, t).responding && Lane(Targ(s, t).peq, x) == []
    requires Targ(s, t).kind.TypeD? && !Targ(s, t).rspEvent
    ensures var s' := PassEndResp(s, t, x, delay).s; Ended(s, s', t, x) && Targ(s', t).peq == Targ(s, t).peq
  {
  }

  lemma PassToTypeDKeeps(s: System, t: nat, i: nat, x: Trans, delay: nat)
    requires Inv(s) && Tok(s, x) == Token(Closing, i, t) && Targ(s, t).kind.TypeD?
    ensures Inv(PassEndResp(s, t, x, delay).s) && Local(s, PassEndResp(s, t, x, delay).s, x, t, i)
  {
    hide Inv, PassEndResp, Local, Ended;
    RespondingIs(s, t, i, x);
    PassToTypeDLocal(s, t, i, x, delay);
    PassToTypeDEnds(s, t, x, delay);
    EndsKeeps(s, PassEndResp(s, t, x, delay).s, t, i, x);
  }

  lemma RouteIs(s: System, t: nat, i: nat, x: Trans)
    requires Inv(s) && Tok(s, x) == Token(Closing, i, t)
    ensures RouteOf(s, x) == Route(i, t, Targ(s, t).kind.TypeE?)
  {
    assert TransOk(s, x);
  }

  lemma PassedOn(s: System, t: nat, x: Trans, delay: nat)
    requires !Targ(s, t).kind.TypeE?
    ensures var o := PassEndResp(s, t, x, delay); !Passing(StageOf(o.s, x)) && o.r.status != Updated
  {
    var s1 := Show(s, TargHop(t), x, Forward(EndResp), delay);
    assert TargetEndResp(s1, t, x, delay)
           == if Targ(s, t).kind.TypeD? then TargetClears(s1, t, x, delay) else TargetPostEnd(s1, t, x, delay);
  }

  lemma ForgetKeeps(s: System, t: nat, i: nat, x: Trans)
    requires Inv(s) && Tok(s, x) == Token(Closing, i, t) && Targ(s, t).kind.TypeE?
    ensures Inv(Move(s, x, Free)) && Local(s, Move(s, x, Free), x, t, i)
  {
    var s' := Move(s, x, Free);
    MoveLocal(s, t, i, x, Free);
    assert TransOk(s', x) by { assert TransOk(s, x); }
    assert ReqSideOk(s', t) by { assert ReqSideOk(s, t); ReqSideStays(s, s', x, t, i, t); }
    assert TargOk(s', t) by { assert TargOk(s, t); TargStays(s, s', x, t, i, t); }
    ConcludesAtTarget(s, s', x, t, i);
  }
}
