/** Every move of a transaction keeps what the checkers know in step with the stages. */
module AtWatchMoves {
  import opened Tlm
  import opened ProtocolChecker
  import opened AtSystem
  import opened AtInvariant
  import opened AtFrame
  import opened AtKeeps
  import opened AtCallbacks
  import opened AtInitMoves
  import opened AtWatch

  // The whole invariant
  ghost predicate Good(s: System) { Inv(s) && Watched(s, Mon(s)) }

  lemma ShowIs(s: System, hop: Hop, x: Trans, signal: Signal, delay: nat)
    ensures Mon(Show(s, hop, x, signal, delay)) == Observe(Mon(s), Event(hop, x, signal, s.now + delay))
  {
    WatchOne(s.log, Event(hop, x, signal, s.now + delay));
  }

  // ---------- Moves inside a target ----------

  // An END_REQ on its way to initiator i is not hurt by the move of x
  ghost predicate EndReqSafe(s: System, s': System, x: Trans, i: nat) {
    var n := Init(s, i);
    var lane := Lane(n.peq, x);
    && (Asking(StageOf(s', x)) ==> Asking(StageOf(s, x)))
    && (Strict(s, i) && EndReqDue(lane) ==>
          Answered(StageOf(s', x), n.kind) && (n.kind.InitB? ==> AfterEndReq(s', x, lane[0].time)))
  }

  lemma TargetMoveWatched(s: System, s': System, x: Trans, t: nat, i: nat)
    requires Watched(s, Mon(s)) && Local(s, s', x, t, i) && Tok(s, x).init == Tok(s', x).init == i
    requires s'.log == s.log && s'.inits == s.inits && s'.ic == s.ic
    requires forall y :: y != x ==> Lane(Targ(s', t).peq, y) == Lane(Targ(s, t).peq, y)
    requires Targ(s', t).nextTime == Targ(s, t).nextTime
    requires PhasesOk(s', Mon(s), x) && TimesOk(s', Mon(s), x) && EndReqSafe(s, s', x, i)
    ensures Watched(s', Mon(s'))
  {
    hide PhasesOk, TimesOk, Flagged, Local;
    var m := Mon(s);
    SeesNothing(m, x, t, i);
    assert StrictOk(s, m, i) && (Strict(s, i) ==> StrictLane(s, m, i, x));
    assert Strict(s, i) ==> StrictLane(s', m, i, x) by { LocalKinds(s, s', x, t, i); }
    StrictKeeps(s, s', m, m, x, t, i);
    ExcusedStay(s, s', m, x, t, i);
    WatchMoves(s, s', m, m, x, t, i);
  }

  lemma SeesNothing(m: Monitor, x: Trans, t: nat, i: nat)
    ensures SeesOnly(m, m, x, t, i)
  {
  }

  lemma LocalKinds(s: System, s': System, x: Trans, t: nat, i: nat)
    requires Local(s, s', x, t, i)
    ensures SameConfig(s, s')
  {
    HastyStays(s, s', x, t, i);
    forall j ensures Init(s', j).kind == Init(s, j).kind { if j != i { assert Init(s', j) == Init(s, j); } }
  }

  lemma ExcusedStay(s: System, s': System, m: Monitor, x: Trans, t: nat, i: nat)
    requires Local(s, s', x, t, i) && AllExcused(s, m)
    ensures AllExcused(s', m)
  {
    LocalKinds(s, s', x, t, i);
    forall v | v in m.errors ensures Excused(s', v) { assert Excused(s, v); }
  }

  // No END_REQ is on its way to a strict initiator of type B once the target has got the internal event
  lemma EndReqGone(s: System, x: Trans, t: nat, i: nat)
    requires Good(s) && Tok(s, x) == Token(Executing, i, t) && Strict(s, i) && Init(s, i).kind.InitB?
    requires Lane(Targ(s, t).peq, x) != [] && Lane(Targ(s, t).peq, x)[0].time <= s.now
    ensures !EndReqDue(Lane(Init(s, i).peq, x))
  {
    assert StrictOk(s, Mon(s), i) && StrictLane(s, Mon(s), i, x);
    assert InitOk(s, i) && InitLaneOk(s, i, Init(s, i).peq, x);
  }

  // What is due now
  predicate DueNow(s: System, t: nat, x: Trans) {
    Lane(Targ(s, t).peq, x) != [] && Lane(Targ(s, t).peq, x)[0].time <= s.now
  }

  lemma KnownOf(s: System, x: Trans, i: nat)
    requires Good(s)
    ensures PhasesOk(s, Mon(s), x) && TimesOk(s, Mon(s), x) && (Strict(s, i) ==> StrictLane(s, Mon(s), i, x))
  {
    assert StrictOk(s, Mon(s), i);
  }

  // How long the response of x is still to be delayed when it is taken up
  function Remaining(s: System, t: nat): nat {
    if Targ(s, t).kind.TypeD? then Since(Targ(s, t).nextTime, s.now) else 0
  }

  // A strict initiator of type B has had its END_REQ by now
  lemma NotExecutingB(s: System, x: Trans, i: nat)
    requires Good(s) && Tok(s, x).init == i && !StageOf(s, x).Executing? && Strict(s, i) && Init(s, i).kind.InitB?
    ensures !EndReqDue(Lane(Init(s, i).peq, x))
  {
    assert StrictOk(s, Mon(s), i) && StrictLane(s, Mon(s), i, x);
  }

  lemma ShiftPhases(s: System, t: nat, i: nat, x: Trans, g': Target, stage: Stage)
    requires PhasesOk(s, Mon(s), x) && Tok(s, x) == Token(StageOf(s, x), i, t) && Inside(StageOf(s, x)) && Inside(stage)
    requires t in s.targets && g'.kind == Targ(s, t).kind
    requires Asking(StageOf(s, x)) == Asking(stage) || Implicit(g'.kind)
    requires Asking(stage) ==> Asking(StageOf(s, x))
    ensures PhasesOk(Shift(s, t, x, g', stage), Mon(s), x)
  {
    hide Shift, Watch;
    ShiftIs(s, t, x, g', stage);
  }

  // When something next happens to x at the stage, in target g'
  function NextTime(s: System, x: Trans, g': Target, stage: Stage): nat {
    if stage.Executing? then if Lane(g'.peq, x) == [] then s.now else Lane(g'.peq, x)[0].time
    else if stage.RspDeferred? && g'.kind.TypeD? then g'.nextTime
    else s.now
  }

  lemma ShiftTimes(s: System, t: nat, i: nat, x: Trans, g': Target, stage: Stage)
    requires Tok(s, x) == Token(StageOf(s, x), i, t) && Inside(stage) && !stage.PeqReq? && t in s.targets
    requires g'.kind == Targ(s, t).kind
    requires stage.Executed? || Late(Mon(s), i, t, x, NextTime(s, x, g', stage))
    ensures TimesOk(Shift(s, t, x, g', stage), Mon(s), x)
  {
    hide Shift, Watch;
    ShiftIs(s, t, x, g', stage);
  }

  lemma ShiftGood(s: System, t: nat, i: nat, x: Trans, g': Target, stage: Stage)
    requires Good(s) && Tok(s, x) == Token(StageOf(s, x), i, t) && Inside(StageOf(s, x)) && Inside(stage)
    requires !stage.PeqReq?
    requires Fits(stage, Targ(s, t).kind) && HeldAt(s, x, Targ(s, t), g', stage)
    requires Open(s, x) == Opens(stage, Targ(s, t).kind)
    requires Kept(Targ(s, t).endReqPending, g'.endReqPending, x) && Kept(Targ(s, t).nextRsp, g'.nextRsp, x)
    requires forall y :: y != x ==> Lane(g'.peq, y) == Lane(Targ(s, t).peq, y)
    requires g'.nextTime == Targ(s, t).nextTime
    requires Asking(StageOf(s, x)) == Asking(stage) || Implicit(g'.kind)
    requires Asking(stage) ==> Asking(StageOf(s, x))
    requires stage.Executed? || Late(Mon(s), i, t, x, NextTime(s, x, g', stage))
    requires Strict(s, i) && EndReqDue(Lane(Init(s, i).peq, x)) ==>
             Init(s, i).kind.InitA? && stage in {Executed, RspDeferred}
    ensures var s' := Shift(s, t, x, g', stage);
            Good(s') && Local(s, s', x, t, i) && Mon(s') == Mon(s) && s'.now == s.now
  {
    hide Inv, Watched, Local, Shift, HeldAt, PhasesOk, TimesOk, Watch, Late, Fits, Open, Opens;
    var s' := Shift(s, t, x, g', stage);
    Known(s, t, i, x);
    HeldKind(s, x, Targ(s, t), g', stage);
    KnownOf(s, x, i);
    ShiftIs(s, t, x, g', stage);
    ShiftKeeps(s, t, i, x, g', stage);
    ShiftPhases(s, t, i, x, g', stage);
    ShiftTimes(s, t, i, x, g', stage);
    ShiftLog(s, t, x, g', stage);
    TargetMoveWatched(s, s', x, t, i);
  }

  lemma ShiftLog(s: System, t: nat, x: Trans, g': Target, stage: Stage)
    ensures Shift(s, t, x, g', stage).log == s.log
  {
  }

  // What the checkers have seen of x inside its target, and when
  lemma KnownLate(s: System, t: nat, i: nat, x: Trans)
    requires Good(s) && Tok(s, x) == Token(StageOf(s, x), i, t)
    ensures StageOf(s, x) in {PeqReq, Executing} && DueNow(s, t, x) ==> Late(Mon(s), i, t, x, s.now)
    ensures StageOf(s, x).ReqDeferred? ==> Late(Mon(s), i, t, x, s.now)
    ensures StageOf(s, x).RspDeferred? ==> Late(Mon(s), i, t, x, s.now + Remaining(s, t))
    ensures Asking(StageOf(s, x)) && Strict(s, i) ==> Lane(Init(s, i).peq, x) == []
    ensures StageOf(s, x).RspDeferred? && Strict(s, i) && EndReqDue(Lane(Init(s, i).peq, x)) ==> Init(s, i).kind.InitA?
  {
    hide Watch, Inv;
    assert TimesOk(s, Mon(s), x);
    if Asking(StageOf(s, x)) { AskedNow(s, i, x); }
    if StageOf(s, x).RspDeferred? && Strict(s, i) && Init(s, i).kind.InitB? { NotExecutingB(s, x, i); }
  }

  // No END_REQ is on its way to a strict initiator of type B whose transaction's internal event is due
  lemma KnownGone(s: System, t: nat, i: nat, x: Trans)
    requires Good(s) && Tok(s, x) == Token(Executing, i, t) && DueNow(s, t, x)
    ensures Strict(s, i) && EndReqDue(Lane(Init(s, i).peq, x)) ==> Init(s, i).kind.InitA?
  {
    if Strict(s, i) && Init(s, i).kind.InitB? { EndReqGone(s, x, t, i); }
  }

  lemma AcceptReqGood(s: System, t: nat, i: nat, x: Trans)
    requires Good(s) && Tok(s, x) == Token(PeqReq, i, t) && Pipelined(Targ(s, t).kind) && DueNow(s, t, x)
    ensures Good(AcceptReq(s, t, x)) && Local(s, AcceptReq(s, t, x), x, t, i)
  {
    hide Inv, Watched, Local, Mon;
    Known(s, t, i, x);
    KnownLate(s, t, i, x);
    ShiftGood(s, t, i, x, Taken(s, t, x), ReqTaken);
    assert AcceptReq(s, t, x) == Shift(s, t, x, Taken(s, t, x), ReqTaken);
  }

  lemma DeferReqGood(s: System, t: nat, i: nat, x: Trans, acc: nat, lat: nat)
    requires Good(s) && Tok(s, x) == Token(PeqReq, i, t) && Pipelined(Targ(s, t).kind) && Targ(s, t).nTrans == 2
    requires DueNow(s, t, x)
    ensures Good(TakeReq(s, t, x, acc, lat)) && Local(s, TakeReq(s, t, x, acc, lat), x, t, i)
  {
    hide Inv, Watched, Local, Mon, SendEndReq;
    var g' := Taken(s, t, x).(endReqPending := Some(x));
    Known(s, t, i, x);
    KnownLate(s, t, i, x);
    AlreadyOpen(s, t, i, x);
    ShiftGood(s, t, i, x, g', ReqDeferred);
    assert TakeReq(s, t, x, acc, lat) == Shift(s, t, x, g', ReqDeferred);
  }

  lemma RunReqGood(s: System, t: nat, i: nat, x: Trans, acc: nat, lat: nat)
    requires Good(s) && Tok(s, x) == Token(PeqReq, i, t) && Targ(s, t).kind.TypeC? && DueNow(s, t, x)
    ensures Good(TakeReq(s, t, x, acc, lat)) && Local(s, TakeReq(s, t, x, acc, lat), x, t, i)
  {
    hide Inv, Watched, Local, Mon, SendEndReq;
    var g' := Taken(s, t, x).(peq := Post(Taken(s, t, x).peq, x, s.now + lat, Internal));
    Known(s, t, i, x);
    KnownLate(s, t, i, x);
    ShiftGood(s, t, i, x, g', Executing);
    assert TakeReq(s, t, x, acc, lat) == Shift(s, t, x, g', Executing);
  }

  lemma UndeferGood(s: System, t: nat, i: nat, x: Trans)
    requires Good(s) && Tok(s, x) == Token(ReqDeferred, i, t)
    ensures Good(Undefer(s, t, x)) && Local(s, Undefer(s, t, x), x, t, i)
  {
    hide Inv, Watched, Local, Mon;
    var g' := Targ(s, t).(endReqPending := None);
    Known(s, t, i, x);
    KnownLate(s, t, i, x);
    ShiftGood(s, t, i, x, g', ReqTaken);
    assert Undefer(s, t, x) == Shift(s, t, x, g', ReqTaken);
  }

  lemma ResumeGood(s: System, t: nat, i: nat, x: Trans)
    requires Good(s) && Tok(s, x) == Token(RspDeferred, i, t)
    ensures Good(Resume(s, t, x)) && Local(s, Resume(s, t, x), x, t, i)
    ensures Late(Mon(Resume(s, t, x)), i, t, x, s.now + Remaining(s, t))
  {
    hide Inv, Watched, Local, Mon, Late;
    var g' := Targ(s, t).(nextRsp := None, rspEvent := false);
    Known(s, t, i, x);
    KnownLate(s, t, i, x);
    ShiftGood(s, t, i, x, g', Executed);
    assert Resume(s, t, x) == Shift(s, t, x, g', Executed);
  }

  lemma ExecuteGood(s: System, t: nat, i: nat, x: Trans)
    requires Good(s) && Tok(s, x) == Token(Executing, i, t) && DueNow(s, t, x)
    ensures Good(Execute(s, t, x)) && Local(s, Execute(s, t, x), x, t, i)
    ensures Late(Mon(Execute(s, t, x)), i, t, x, s.now)
  {
    hide Inv, Watched, Local, Mon, Late;
    Known(s, t, i, x);
    KnownLate(s, t, i, x);
    KnownGone(s, t, i, x);
    ShiftGood(s, t, i, x, Taken(s, t, x), Executed);
    assert Execute(s, t, x) == Shift(s, t, x, Taken(s, t, x), Executed);
  }

  lemma DeferRspGood(s: System, t: nat, i: nat, x: Trans, rnd: nat, acc: nat, lat: nat)
    requires Good(s) && Tok(s, x) == Token(Executing, i, t) && Targ(s, t).responding && DueNow(s, t, x)
    requires !Targ(s, t).kind.TypeD?
    ensures Good(TakeInternal(s, t, x, rnd, acc, lat)) && Local(s, TakeInternal(s, t, x, rnd, acc, lat), x, t, i)
  {
    hide Inv, Watched, Local, Mon, SendResponse;
    var g' := Taken(s, t, x).(nextRsp := Some(x));
    NoSecondDeferral(s, t, i, x);
    Known(s, t, i, x);
    KnownLate(s, t, i, x);
    KnownGone(s, t, i, x);
    NotBoth(s, t);
    ShiftGood(s, t, i, x, g', RspDeferred);
    assert TakeInternal(s, t, x, rnd, acc, lat) == Shift(s, t, x, g', RspDeferred);
  }

  // Both checkers have seen the end of x
  lemma EndsPhases(s: System, s': System, t: nat, i: nat, x: Trans)
    requires PhasesOk(s, Mon(s), x) && Tok(s, x) == Token(StageOf(s, x), i, t) && StageOf(s, x) in {Closed, PeqEnd}
    requires Tok(s', x) == Token(Free, i, t)
    ensures PhasesOk(s', Mon(s), x) && TimesOk(s', Mon(s), x)
  {
    hide Watch;
  }

  lemma EndsGood(s: System, s': System, t: nat, i: nat, x: Trans)
    requires Good(s) && Inv(s') && Local(s, s', x, t, i) && Ended(s, s', t, x) && s'.log == s.log
    requires Tok(s, x) == Token(StageOf(s, x), i, t) && StageOf(s, x) in {Closed, PeqEnd}
    requires forall y :: y != x ==> Lane(Targ(s', t).peq, y) == Lane(Targ(s, t).peq, y)
    ensures Good(s')
  {
    hide Inv, Watched, Local, PhasesOk, TimesOk, Watch;
    KnownOf(s, x, i);
    EndsPhases(s, s', t, i, x);
    if Strict(s, i) { OverHasNoEndReq(s, x, i); }
    TargetMoveWatched(s, s', x, t, i);
  }

  lemma OverHasNoEndReq(s: System, x: Trans, i: nat)
    requires Good(s) && Tok(s, x).init == i && StageOf(s, x) in {Closed, PeqEnd} && Strict(s, i)
    ensures !EndReqDue(Lane(Init(s, i).peq, x))
  {
    assert StrictOk(s, Mon(s), i) && StrictLane(s, Mon(s), i, x);
  }

  lemma FinishGood(s: System, t: nat, i: nat, x: Trans)
    requires Good(s) && Tok(s, x) == Token(Closed, i, t)
    ensures Good(Finish(s, t, x)) && Local(s, Finish(s, t, x), x, t, i)
  {
    hide Inv, Watched, Local, Finish, Ended, Mon;
    ClosedIs(s, x);
    RespondingIs(s, t, i, x);
    FinishKeeps(s, t, i, x);
    FinishEnds(s, t, x);
    FinishLog(s, t, x);
    EndsGood(s, Finish(s, t, x), t, i, x);
  }

  lemma FinishLog(s: System, t: nat, x: Trans)
    ensures Finish(s, t, x).log == s.log
  {
  }

  lemma TakeEndGood(s: System, t: nat, i: nat, x: Trans)
    requires Good(s) && Tok(s, x) == Token(PeqEnd, i, t)
    ensures Good(TakeEnd(s, t, x)) && Local(s, TakeEnd(s, t, x), x, t, i)
  {
    hide Inv, Watched, Local, TakeEnd, Ended, Mon;
    ClosedIs(s, x);
    RespondingIs(s, t, i, x);
    TakeEndKeeps(s, t, i, x);
    TakeEndEnds(s, t, x);
    TakeEndLog(s, t, x);
    EndsGood(s, TakeEnd(s, t, x), t, i, x);
  }

  lemma TakeEndLog(s: System, t: nat, x: Trans)
    ensures TakeEnd(s, t, x).log == s.log
  {
    hide Finish;
    FinishLog(PutTarg(Check(s, Targ(s, t).responding), t, Taken(s, t, x)), t, x);
  }

  // ---------- Moves that one checker sees ----------

  // From s to s' the checker on hop h has seen one event of x, which was in order
  // What is known of x at a stage
  ghost predicate PhasesAt(m: Monitor, x: Trans, g: Stage, i: nat, t: nat, k: TargetKind) {
    && InitPhase(g, Ph(m, InitHop(i), x)) && TargPhase(g, k, Ph(m, TargHop(t), x)) && PathOf(m, x) == PathAt(g, i, t)
    && (forall h :: h != InitHop(i) && h != TargHop(t) ==> !Between(Ph(m, h, x)))
  }

  lemma PhasesAre(s: System, m: Monitor, x: Trans, g: Stage, i: nat, t: nat)
    requires Tok(s, x) == Token(g, i, t)
    ensures PhasesOk(s, m, x) == PhasesAt(m, x, g, i, t, Targ(s, t).kind)
  {
  }

  ghost predicate Seen1(s: System, s': System, h: Hop, x: Trans, t: nat, i: nat) {
    var m, m' := Mon(s), Mon(s');
    && (h == InitHop(i) || h == TargHop(t))
    && SeesAt(m, m', h, x) && FlagsAt(m, m', h) && m'.errors == m.errors && Flagged(m')
    && PhasesOk(s', m', x) && TimesOk(s', m', x) && Beside(s, s', x, t, i)
  }

  lemma EventMoves(s: System, s': System, h: Hop, x: Trans, t: nat, i: nat)
    requires Watched(s, Mon(s)) && Local(s, s', x, t, i) && Seen1(s, s', h, x, t, i) && StrictOk(s', Mon(s'), i)
    ensures Watched(s', Mon(s'))
  {
    hide PhasesOk, TimesOk, Flagged, Local, Beside, StrictOk;
    assert SeesOnly(Mon(s), Mon(s'), x, t, i);
    ExcusedStay(s, s', Mon(s'), x, t, i);
    WatchMoves(s, s', Mon(s), Mon(s'), x, t, i);
  }

  // The move is seen on the target's hop only, and initiator i is left alone
  lemma TargetEventMoves(s: System, s': System, x: Trans, t: nat, i: nat)
    requires Good(s) && Local(s, s', x, t, i) && Seen1(s, s', TargHop(t), x, t, i)
    requires Init(s', i) == Init(s, i) && Tok(s, x).init == Tok(s', x).init == i && EndReqSafe(s, s', x, i)
    ensures Watched(s', Mon(s'))
  {
    hide PhasesOk, TimesOk, Flagged, Local, Inv;
    var m, m' := Mon(s), Mon(s');
    KnownFlags(s, i);
    LocalKinds(s, s', x, t, i);
    assert SeesOnly(m, m', x, t, i);
    assert Strict(s, i) ==> StrictLane(s, m, i, x);
    StrictKeeps(s, s', m, m', x, t, i);
    EventMoves(s, s', TargHop(t), x, t, i);
  }

  // The target has no response under way, so its checker's flag is clear
  lemma NoRspAtTarget(s: System, t: nat)
    requires Good(s) && Responder(s, t) == None
    ensures TargHop(t) !in Mon(s).rsp
  {
    var m := Mon(s);
    if TargHop(t) in m.rsp {
      var y := m.rsp[TargHop(t)];
      FlagOfRsp(m, TargHop(t));
      BusyAtTarget(s, t, y);
    }
  }

  lemma FlagOfRsp(m: Monitor, h: Hop)
    requires Flagged(m) && h in m.rsp
    ensures Ph(m, h, m.rsp[h]) == BeginResp
  {
  }

  // What the checker of target t sees tells where y is
  lemma BusyAtTarget(s: System, t: nat, y: Trans)
    requires Good(s)
    ensures Ph(Mon(s), TargHop(t), y) == BeginResp ==> Responder(s, t) == Some(y)
    ensures Ph(Mon(s), TargHop(t), y) == BeginReq ==> LiveReq(s, t) == Some(y)
  {
    assert PhasesOk(s, Mon(s), y) && TransOk(s, y);
  }

  lemma RspFree(s: System, t: nat)
    requires Good(s) && !Targ(s, t).responding
    ensures TargHop(t) !in Mon(s).rsp
  {
    assert TargOk(s, t);
    NoRspAtTarget(s, t);
  }

  lemma KnownFlags(s: System, i: nat)
    requires Good(s)
    ensures Flagged(Mon(s)) && StrictOk(s, Mon(s), i)
  {
  }

  lemma ShowHolds(s: System, hop: Hop, x: Trans, signal: Signal, delay: nat)
    ensures Show(s, hop, x, signal, delay) == s.(log := Show(s, hop, x, signal, delay).log)
  {
  }

  lemma EnterRestLog(s: System, t: nat, x: Trans)
    ensures EnterRest(s, t, x).log == s.log
  {
  }

  lemma EnterSeen(s: System, t: nat, i: nat, x: Trans, delay: nat)
    requires MayRespond(s, t, i, x)
    ensures var s' := Enter(s, t, x, delay);
            && Mon(s') == Observe(Mon(s), Event(TargHop(t), x, Backward(BeginResp), s.now + delay))
            && s'.inits == s.inits && s'.ic.reqQueue == s.ic.reqQueue && s'.ic.rspQueue == s.ic.rspQueue
  {
    hide Watch, Observe, EnterRest, Show;
    var s1 := StartResponse(s, t, x);
    var s2 := Show(s1, TargHop(t), x, Backward(BeginResp), delay);
    ShowIs(s1, TargHop(t), x, Backward(BeginResp), delay);
    ShowHolds(s1, TargHop(t), x, Backward(BeginResp), delay);
    EnterRestHolds(Move(s2, x, RspReady), t, x);
    EnterRestLog(Move(s2, x, RspReady), t, x);
  }

  lemma EnterKnown(s: System, t: nat, i: nat, x: Trans, delay: nat)
    requires MayRespond(s, t, i, x) && !Targ(s, t).kind.TypeE? && Late(Mon(s), i, t, x, s.now + delay)
    requires PhasesOk(s, Mon(s), x) && Flagged(Mon(s)) && TargHop(t) !in Mon(s).rsp
    ensures Seen1(s, Enter(s, t, x, delay), TargHop(t), x, t, i)
    ensures Late(Mon(Enter(s, t, x, delay)), i, t, x, s.now + delay)
  {
    hide Enter, Observe, Flagged, Watch, FlagsAt, PhasesOk, Ph, Time, PathOf, Mine;
    PhasesAre(s, Mon(s), x, Executed, i, t);
    var s', m := Enter(s, t, x, delay), Mon(s);
    EnterSeen(s, t, i, x, delay);
    EnterIs(s, t, i, x, delay);
    SeesBeginResp(m, TargHop(t), x, s.now + delay);
    PhasesAre(s', Mon(s'), x, RspReady, i, t);
  }

  lemma EnterGood(s: System, t: nat, i: nat, x: Trans, delay: nat)
    requires Good(s) && MayRespond(s, t, i, x) && Late(Mon(s), i, t, x, s.now + delay)
    ensures Good(Enter(s, t, x, delay)) && Local(s, Enter(s, t, x, delay), x, t, i)
    ensures Late(Mon(Enter(s, t, x, delay)), i, t, x, s.now + delay)
  {
    hide Inv, Watched, Local, Enter, PhasesOk, TimesOk, Flagged, StrictOk, Seen1, Watch, Late;
    var s' := Enter(s, t, x, delay);
    KnownOf(s, x, i);
    KnownFlags(s, i);
    RspFree(s, t);
    FitsKind(s, x);
    EnterKnown(s, t, i, x, delay);
    EnterKeeps(s, t, i, x, delay);
    EnterSeen(s, t, i, x, delay);
    EnterIs(s, t, i, x, delay);
    if Strict(s, i) && Init(s, i).kind.InitB? { NotExecutingB(s, x, i); }
    TargetEventMoves(s, s', x, t, i);
  }

  lemma FitsKind(s: System, x: Trans)
    requires Inv(s)
    ensures StageOf(s, x) !in {Free, Held} ==> Fits(StageOf(s, x), KindOf(s, x))
  {
    assert TransOk(s, x);
  }

  // ---------- BEGIN_REQ to a target ----------

  // No request is open at the target, so its checker's flag is clear
  lemma ReqFree(s: System, t: nat, i: nat, x: Trans)
    requires Good(s) && MayForward(s, t, i, x)
    ensures TargHop(t) !in Mon(s).req
  {
    var m := Mon(s);
    if TargHop(t) in m.req {
      FlagOfReq(m, TargHop(t));
      BusyAtTarget(s, t, m.req[TargHop(t)]);
    }
  }

  lemma FlagOfReq(m: Monitor, h: Hop)
    requires Flagged(m) && h in m.req
    ensures Ph(m, h, m.req[h]) == BeginReq
  {
  }

  // Initiator i waits for the end of the request x and nothing is on its way to it
  ghost predicate Asked(s: System, i: nat, x: Trans) {
    && Ph(Mon(s), InitHop(i), x) == BeginReq
    && (Strict(s, i) ==> Init(s, i).reqInProgress == Some(x) && Lane(Init(s, i).peq, x) == [])
  }

  lemma AskedNow(s: System, i: nat, x: Trans)
    requires Good(s) && Tok(s, x).init == i && Asking(StageOf(s, x))
    ensures Asked(s, i, x)
  {
    assert PhasesOk(s, Mon(s), x) && StrictOk(s, Mon(s), i) && InitOk(s, i) && InitLaneOk(s, i, Init(s, i).peq, x);
    assert Strict(s, i) ==> StrictLane(s, Mon(s), i, x);
  }

  lemma StillAsked(s: System, s': System, i: nat, x: Trans, t: nat)
    requires Asked(s, i, x) && Init(s', i) == Init(s, i) && Hasty(s') == Hasty(s)
    requires SeesAt(Mon(s), Mon(s'), TargHop(t), x)
    ensures Asked(s', i, x)
  {
  }

  function ReplySignal(r: Reply): Signal {
    if r.status == Updated then Backward(r.phase) else FwCompleted(true)
  }

  // The checker of the target sees BEGIN_REQ, and the reply unless the request is just accepted
  lemma ForwardSeen(s: System, t: nat, x: Trans, delay: nat, acc: nat, lat: nat)
    ensures var o := ForwardReq(s, t, x, delay, acc, lat);
            var m1 := Observe(Mon(s), Event(TargHop(t), x, Forward(BeginReq), s.now + delay));
            && Mon(o.s) == (if o.r.status == Accepted then m1
                            else Observe(m1, Event(TargHop(t), x, ReplySignal(o.r), s.now + o.r.delay)))
            && o.s.inits == s.inits && o.s.now == s.now && o.s.minLatency == s.minLatency
            && o.s.ic.reqQueue == s.ic.reqQueue && o.s.ic.rspQueue == s.ic.rspQueue
  {
    hide Watch, Observe, TargetBeginReq, OnReply, OpenReq;
    var s1 := OpenReq(s, t, x, delay);
    var o := TargetBeginReq(s1, t, x, delay, acc, lat);
    OpenReqSeen(s, t, x, delay);
    TargetBeginReqEffect(s1, t, x, delay, acc, lat);
    OnReplySeen(o.s, t, x, o.r);
  }

  lemma OpenReqSeen(s: System, t: nat, x: Trans, delay: nat)
    ensures var s' := OpenReq(s, t, x, delay);
            && Mon(s') == Observe(Mon(s), Event(TargHop(t), x, Forward(BeginReq), s.now + delay))
            && s'.inits == s.inits && s'.now == s.now && s'.minLatency == s.minLatency
            && s'.ic.reqQueue == s.ic.reqQueue && s'.ic.rspQueue == s.ic.rspQueue
  {
    hide Watch, Observe;
    var s1 := s.(ic := s.ic.(reqSlot := s.ic.reqSlot[t := x], endReq := s.ic.endReq - {t}),
        forwarded := List(s.forwarded, t, x));
    ShowIs(s1, TargHop(t), x, Forward(BeginReq), delay);
  }

  lemma OnReplySeen(s: System, t: nat, x: Trans, r: Reply)
    ensures var s' := OnReply(s, t, x, r);
            && Mon(s') == (if r.status == Accepted then Mon(s)
                 else Observe(Mon(s), Event(TargHop(t), x, ReplySignal(r), s.now + r.delay)))
            && s'.inits == s.inits && s'.now == s.now && s'.minLatency == s.minLatency
            && s'.ic.reqQueue == s.ic.reqQueue && s'.ic.rspQueue == s.ic.rspQueue
  {
    hide Watch, Observe;
    if r.status.Updated? {
      ShowIs(s, TargHop(t), x, Backward(r.phase), r.delay);
      assert OnReply(s, t, x, r) == NotifyEndReq(Show(s, TargHop(t), x, Backward(r.phase), r.delay), t);
    } else if r.status.Completed? {
      ShowIs(s, TargHop(t), x, FwCompleted(true), r.delay);
      var s1 := NotifyEndReq(Show(s, TargHop(t), x, FwCompleted(true), r.delay), t);
      assert OnReply(s, t, x, r) == StopForward(s1, x);
    }
  }

  lemma SeesTwice(m: Monitor, m1: Monitor, m2: Monitor, h: Hop, x: Trans)
    requires SeesAt(m, m1, h, x) && FlagsAt(m, m1, h) && SeesAt(m1, m2, h, x) && FlagsAt(m1, m2, h)
    ensures SeesAt(m, m2, h, x) && FlagsAt(m, m2, h)
  {
  }

  // What the checkers know of x when it is about to be forwarded
  ghost predicate ReadyToForward(s: System, t: nat, i: nat, x: Trans, delay: nat) {
    && Tok(s, x) == Token(ReqReady, i, t) && Early(Mon(s), i, x, s.now + delay)
    && PhasesOk(s, Mon(s), x) && Flagged(Mon(s)) && TargHop(t) !in Mon(s).req && Lane(Targ(s, t).peq, x) == []
  }

  lemma AboutToForward(s: System, t: nat, i: nat, x: Trans, delay: nat)
    requires Good(s) && MayForward(s, t, i, x) && Early(Mon(s), i, x, s.now + delay)
    ensures ReadyToForward(s, t, i, x, delay) && Asked(s, i, x)
  {
    hide Inv, Watched, PhasesOk, Flagged;
    KnownOf(s, x, i);
    KnownFlags(s, i);
    ReqFree(s, t, i, x);
    NothingOpen(s, t, i, x);
    AskedNow(s, i, x);
  }

  // The checker of the target after BEGIN_REQ
  lemma SeesForwarded(s: System, t: nat, i: nat, x: Trans, delay: nat)
    requires ReadyToForward(s, t, i, x, delay)
    ensures var m, m1 := Mon(s), Observe(Mon(s), Event(TargHop(t), x, Forward(BeginReq), s.now + delay));
            && SeesAt(m, m1, TargHop(t), x) && FlagsAt(m, m1, TargHop(t)) && Flagged(m1) && m1.errors == m.errors
            && m1.rsp == m.rsp && Ph(m1, TargHop(t), x) == BeginReq && Time(m1, TargHop(t), x) == s.now + delay
            && PathOf(m1, x) == Path([InitHop(i), TargHop(t)], false)
  {
    hide Observe, Flagged, Watch, SeesAt, FlagsAt;
    var m := Mon(s);
    SeesBeginReq(m, TargHop(t), x, s.now + delay);
    assert m.errors + [] == m.errors;
    assert [InitHop(i)] + [TargHop(t)] == [InitHop(i), TargHop(t)];
  }

  lemma PostedSeen(s: System, t: nat, i: nat, x: Trans, delay: nat)
    requires Tok(s, x) == Token(ReqReady, i, t)
    ensures var s' := TargetPostReq(OpenReq(s, t, x, delay), t, x, delay).s;
            && Mon(s') == Observe(Mon(s), Event(TargHop(t), x, Forward(BeginReq), s.now + delay))
            && Tok(s', x) == Token(PeqReq, i, t) && s'.inits == s.inits && s'.now == s.now
            && s'.minLatency == s.minLatency
            && s'.ic.reqQueue == s.ic.reqQueue && s'.ic.rspQueue == s.ic.rspQueue
            && Targ(s', t) == Targ(s, t).(peq := Post(Targ(s, t).peq, x, s.now + delay, BeginReq))
  {
    hide Watch, Observe;
    var s1 := s.(ic := s.ic.(reqSlot := s.ic.reqSlot[t := x], endReq := s.ic.endReq - {t}),
        forwarded := List(s.forwarded, t, x));
    ShowIs(s1, TargHop(t), x, Forward(BeginReq), delay);
  }

  lemma PostedPhases(s: System, t: nat, i: nat, x: Trans, delay: nat)
    requires ReadyToForward(s, t, i, x, delay) && Targ(s, t).kind in {TypeA, TypeB, TypeC}
    ensures var s' := TargetPostReq(OpenReq(s, t, x, delay), t, x, delay).s;
            PhasesOk(s', Mon(s'), x) && TimesOk(s', Mon(s'), x)
  {
    hide TargetPostReq, Observe, Flagged, Watch, FlagsAt;
    PostedSeen(s, t, i, x, delay);
    SeesForwarded(s, t, i, x, delay);
  }

  lemma PostedKnown(s: System, t: nat, i: nat, x: Trans, delay: nat)
    requires ReadyToForward(s, t, i, x, delay) && Targ(s, t).kind in {TypeA, TypeB, TypeC}
    ensures Seen1(s, TargetPostReq(OpenReq(s, t, x, delay), t, x, delay).s, TargHop(t), x, t, i)
  {
    hide TargetPostReq, Observe, Flagged, Watch, SeesAt, FlagsAt, PhasesOk, TimesOk, Late;
    PostedSeen(s, t, i, x, delay);
    SeesForwarded(s, t, i, x, delay);
    PostedPhases(s, t, i, x, delay);
    PostedSeesNoMore(s, t, i, x, delay);
  }

  lemma PostedSeesNoMore(s: System, t: nat, i: nat, x: Trans, delay: nat)
    requires ReadyToForward(s, t, i, x, delay)
    ensures Beside(s, TargetPostReq(OpenReq(s, t, x, delay), t, x, delay).s, x, t, i)
  {
    hide TargetPostReq, Observe, Flagged, Watch, PhasesOk;
    PostedSeen(s, t, i, x, delay);
  }

  // ---------- BEGIN_REQ with an answer ----------

  lemma AcceptsReply(s: System, t: nat, i: nat, x: Trans, delay: nat, acc: nat, lat: nat)
    requires Tok(s, x) == Token(ReqReady, i, t) && Targ(s, t).kind.TypeB? && Targ(s, t).nTrans < 2
    ensures var o, g := ForwardReq(s, t, x, delay, acc, lat), Targ(s, t);
            && o.r == Reply(Updated, EndReq, delay + acc) && Tok(o.s, x) == Token(Executing, i, t)
            && Targ(o.s, t) == g.(peq := Post(g.peq, x, s.now + delay + acc + lat, Internal), nTrans := g.nTrans + 1)
  {
    hide OnReply;
    var s1 := OpenReq(s, t, x, delay);
    var o := TargetAccepts(s1, t, x, delay, acc, lat);
    assert TargetBeginReq(s1, t, x, delay, acc, lat) == o;
    OnReplyTarget(o.s, t, x, o.r);
  }

  lemma DefersReply(s: System, t: nat, i: nat, x: Trans, delay: nat, acc: nat, lat: nat)
    requires Tok(s, x) == Token(ReqReady, i, t) && Targ(s, t).kind.TypeD? && Targ(s, t).responding
    ensures var o, g := ForwardReq(s, t, x, delay, acc, lat), Targ(s, t);
            && o.r.status == Accepted && Tok(o.s, x) == Token(RspDeferred, i, t)
            && Targ(o.s, t) == g.(nextRsp := Some(x), nextTime := s.now + delay + lat)
  {
    hide OnReply;
    var s1 := OpenReq(s, t, x, delay);
    var o := TargetDefers(s1, t, x, delay, lat);
    assert TargetBeginReq(s1, t, x, delay, acc, lat) == o;
    OnReplyTarget(o.s, t, x, o.r);
  }

  lemma RespondsReply(s: System, t: nat, i: nat, x: Trans, delay: nat, acc: nat, lat: nat)
    requires Tok(s, x) == Token(ReqReady, i, t) && Targ(s, t).kind.TypeD? && !Targ(s, t).responding
    ensures var o := ForwardReq(s, t, x, delay, acc, lat);
            && o.r == Reply(Updated, BeginResp, delay + lat) && Tok(o.s, x) == Token(RspReady, i, t)
            && Targ(o.s, t) == Targ(s, t).(responding := true)
  {
    hide OnReply;
    var s1 := OpenReq(s, t, x, delay);
    var o := TargetResponds(s1, t, x, delay, lat);
    assert TargetBeginReq(s1, t, x, delay, acc, lat) == o;
    OnReplyTarget(o.s, t, x, o.r);
  }

  lemma CompletesReply(s: System, t: nat, i: nat, x: Trans, delay: nat, acc: nat, lat: nat)
    requires Tok(s, x) == Token(ReqReady, i, t) && Targ(s, t).kind.TypeE?
    ensures var o := ForwardReq(s, t, x, delay, acc, lat);
            && o.r == Reply(Completed, BeginReq, delay + lat) && Tok(o.s, x) == Token(RspReady, i, t)
            && Targ(o.s, t) == Targ(s, t)
  {
    hide OnReply;
    var s1 := OpenReq(s, t, x, delay);
    var o := Outcome(Move(s1, x, RspReady), Reply(Completed, BeginReq, delay + lat));
    assert TargetBeginReq(s1, t, x, delay, acc, lat) == o;
    OnReplyTarget(o.s, t, x, o.r);
  }

  // The checkers after BEGIN_REQ and the reply to it
  ghost predicate ForwardKnown(s: System, o: Outcome, t: nat, i: nat, x: Trans) {
    Seen1(s, o.s, TargHop(t), x, t, i) && (o.r.status != Accepted ==> Late(Mon(o.s), i, t, x, s.now + o.r.delay))
  }

  lemma AcceptsKnown(s: System, t: nat, i: nat, x: Trans, delay: nat, acc: nat, lat: nat)
    requires ReadyToForward(s, t, i, x, delay) && Targ(s, t).kind.TypeB? && Targ(s, t).nTrans < 2
    ensures ForwardKnown(s, ForwardReq(s, t, x, delay, acc, lat), t, i, x)
  {
    hide ForwardReq, Observe, Flagged, Watch, SeesAt, FlagsAt, PhasesOk, Ph, Time, PathOf, Beside, Mine;
    PhasesAre(s, Mon(s), x, ReqReady, i, t);
    var o, m := ForwardReq(s, t, x, delay, acc, lat), Mon(s);
    var m1 := Observe(m, Event(TargHop(t), x, Forward(BeginReq), s.now + delay));
    AcceptsReply(s, t, i, x, delay, acc, lat);
    ForwardSeen(s, t, x, delay, acc, lat);
    SeesForwarded(s, t, i, x, delay);
    SeesEndReq(m1, TargHop(t), x, s.now + delay + acc);
    SeesTwice(m, m1, Mon(o.s), TargHop(t), x);
    SeenElsewhere(s, o.s, t, i, x);
    PhasesAre(o.s, Mon(o.s), x, Executing, i, t);
  }

  // What a move at the target's hop leaves: other hops of x, and other transactions
  lemma SeenElsewhere(s: System, s': System, t: nat, i: nat, x: Trans)
    requires SeesAt(Mon(s), Mon(s'), TargHop(t), x) && PhasesOk(s, Mon(s), x) && Tok(s, x).init == i
    requires StageOf(s, x) !in {Free, Held} ==> Tok(s, x).target == t
    requires s'.inits == s.inits && s'.ic.reqQueue == s.ic.reqQueue && s'.ic.rspQueue == s.ic.rspQueue
    requires forall y :: y != x ==> Lane(Targ(s', t).peq, y) == Lane(Targ(s, t).peq, y)
    ensures Targ(s', t).nextTime == Targ(s, t).nextTime ==> Beside(s, s', x, t, i)
    ensures Ph(Mon(s'), InitHop(i), x) == Ph(Mon(s), InitHop(i), x)
    ensures Time(Mon(s'), InitHop(i), x) == Time(Mon(s), InitHop(i), x)
    ensures StageOf(s, x) !in {Free, Held} ==> forall h :: h != InitHop(i) && h != TargHop(t) ==>
            !Between(Ph(Mon(s'), h, x))
  {
  }

  lemma DefersKnown(s: System, t: nat, i: nat, x: Trans, delay: nat, acc: nat, lat: nat)
    requires ReadyToForward(s, t, i, x, delay) && Targ(s, t).kind.TypeD? && Targ(s, t).responding
    requires forall y :: !At(s, t, y, RspDeferred)
    ensures ForwardKnown(s, ForwardReq(s, t, x, delay, acc, lat), t, i, x)
  {
    hide ForwardReq, Observe, Flagged, Watch, FlagsAt;
    DefersReply(s, t, i, x, delay, acc, lat);
    ForwardSeen(s, t, x, delay, acc, lat);
    SeesForwarded(s, t, i, x, delay);
    SeenElsewhere(s, ForwardReq(s, t, x, delay, acc, lat).s, t, i, x);
  }

  lemma RespondsKnown(s: System, t: nat, i: nat, x: Trans, delay: nat, acc: nat, lat: nat)
    requires ReadyToForward(s, t, i, x, delay) && Targ(s, t).kind.TypeD? && !Targ(s, t).responding
    requires TargHop(t) !in Mon(s).rsp
    ensures ForwardKnown(s, ForwardReq(s, t, x, delay, acc, lat), t, i, x)
  {
    hide ForwardReq, Observe, Flagged, Watch, SeesAt, FlagsAt, PhasesOk, Ph, Time, PathOf, Beside, Mine;
    PhasesAre(s, Mon(s), x, ReqReady, i, t);
    var o, m := ForwardReq(s, t, x, delay, acc, lat), Mon(s);
    var m1 := Observe(m, Event(TargHop(t), x, Forward(BeginReq), s.now + delay));
    RespondsReply(s, t, i, x, delay, acc, lat);
    ForwardSeen(s, t, x, delay, acc, lat);
    SeesForwarded(s, t, i, x, delay);
    SeesBeginResp(m1, TargHop(t), x, s.now + delay + lat);
    SeesTwice(m, m1, Mon(o.s), TargHop(t), x);
    SeenElsewhere(s, o.s, t, i, x);
    PhasesAre(o.s, Mon(o.s), x, RspReady, i, t);
  }

  lemma CompletesKnown(s: System, t: nat, i: nat, x: Trans, delay: nat, acc: nat, lat: nat)
    requires ReadyToForward(s, t, i, x, delay) && Targ(s, t).kind.TypeE?
    ensures ForwardKnown(s, ForwardReq(s, t, x, delay, acc, lat), t, i, x)
  {
    hide ForwardReq, Observe, Flagged, Watch, SeesAt, FlagsAt, PhasesOk, Ph, Time, PathOf, Beside, Mine;
    PhasesAre(s, Mon(s), x, ReqReady, i, t);
    var o, m := ForwardReq(s, t, x, delay, acc, lat), Mon(s);
    var m1 := Observe(m, Event(TargHop(t), x, Forward(BeginReq), s.now + delay));
    CompletesReply(s, t, i, x, delay, acc, lat);
    ForwardSeen(s, t, x, delay, acc, lat);
    SeesForwarded(s, t, i, x, delay);
    SeesFwCompleted(m1, TargHop(t), x, s.now + delay + lat);
    SeesTwice(m, m1, Mon(o.s), TargHop(t), x);
    SeenElsewhere(s, o.s, t, i, x);
    PhasesAre(o.s, Mon(o.s), x, RspReady, i, t);
  }

  lemma NoneDeferredAt(s: System, t: nat)
    requires Inv(s) && Targ(s, t).nextRsp == None
    ensures forall y :: !At(s, t, y, RspDeferred)
  {
    forall y ensures !At(s, t, y, RspDeferred) { assert TransOk(s, y); }
  }

  // x's END_REQ is still ahead, and its target will respond later than that
  predicate RunsAfter(s: System, t: nat, x: Trans, time: nat) {
    var lane := Lane(Targ(s, t).peq, x);
    lane != [] && time + s.minLatency <= lane[0].time && Pipelined(Targ(s, t).kind)
  }

  lemma ForwardGood(s: System, t: nat, i: nat, x: Trans, delay: nat, acc: nat, lat: nat)
    requires Good(s) && MayForward(s, t, i, x) && Early(Mon(s), i, x, s.now + delay) && s.minLatency <= lat
    ensures var o := ForwardReq(s, t, x, delay, acc, lat);
            && Good(o.s) && Local(s, o.s, x, t, i) && Replied(o.s, t, x, o.r) && Asked(o.s, i, x)
            && (o.r.status != Accepted ==> Late(Mon(o.s), i, t, x, o.s.now + o.r.delay))
            && (o.r.status == Updated && o.r.phase == EndReq ==> RunsAfter(o.s, t, x, o.s.now + o.r.delay))
  {
    hide Inv, Watched, Local, ForwardReq, PhasesOk, TimesOk, Flagged, StrictOk, Seen1, Watch, Replied, Late, Early,
        SeesAt;
    var o := ForwardReq(s, t, x, delay, acc, lat);
    AboutToForward(s, t, i, x, delay);
    ForwardKeeps(s, t, i, x, delay, acc, lat);
    ForwardSeen(s, t, x, delay, acc, lat);
    ForwardIsKnown(s, t, i, x, delay, acc, lat);
    ForwardWatched(s, t, i, x, delay, acc, lat);
    HastyStays(s, o.s, x, t, i);
    SameNow(s, o.s, x, t, i);
    KnownAsked(s, o, t, i, x);
  }

  lemma KnownAsked(s: System, o: Outcome, t: nat, i: nat, x: Trans)
    requires ForwardKnown(s, o, t, i, x) && Asked(s, i, x) && o.s.inits == s.inits && Hasty(o.s) == Hasty(s)
    requires o.s.now == s.now
    ensures Asked(o.s, i, x) && (o.r.status != Accepted ==> Late(Mon(o.s), i, t, x, o.s.now + o.r.delay))
  {
    hide PhasesOk, TimesOk, Flagged, Watch;
    StillAsked(s, o.s, i, x, t);
  }

  lemma ForwardIsKnown(s: System, t: nat, i: nat, x: Trans, delay: nat, acc: nat, lat: nat)
    requires Good(s) && MayForward(s, t, i, x) && ReadyToForward(s, t, i, x, delay) && s.minLatency <= lat
    ensures var o := ForwardReq(s, t, x, delay, acc, lat);
            && ForwardKnown(s, o, t, i, x) && Tok(o.s, x) == Token(StageOf(o.s, x), i, t)
            && o.s.minLatency == s.minLatency
            && (Asking(StageOf(o.s, x)) || StageOf(o.s, x) in {Executing, RspDeferred, RspReady})
            && (o.r.status == Updated && o.r.phase == EndReq ==> RunsAfter(o.s, t, x, s.now + o.r.delay))
  {
    hide Inv, Watched, ForwardReq, ForwardKnown, ReadyToForward, TargetPostReq, OpenReq, Watch;
    NothingOpen(s, t, i, x);
    ForwardSeen(s, t, x, delay, acc, lat);
    if Targ(s, t).kind.TypeD? {
      if Targ(s, t).responding {
        NoneDeferredAt(s, t);
        DefersKnown(s, t, i, x, delay, acc, lat);
        DefersReply(s, t, i, x, delay, acc, lat);
      } else {
        RspFree(s, t);
        RespondsKnown(s, t, i, x, delay, acc, lat);
        RespondsReply(s, t, i, x, delay, acc, lat);
      }
    } else if Targ(s, t).kind.TypeE? {
      CompletesKnown(s, t, i, x, delay, acc, lat);
      CompletesReply(s, t, i, x, delay, acc, lat);
    } else if Targ(s, t).kind.TypeB? && Targ(s, t).nTrans < 2 {
      AcceptsKnown(s, t, i, x, delay, acc, lat);
      AcceptsReply(s, t, i, x, delay, acc, lat);
    } else {
      PostedIsKnown(s, t, i, x, delay, acc, lat);
    }
  }

  lemma PostedIsKnown(s: System, t: nat, i: nat, x: Trans, delay: nat, acc: nat, lat: nat)
    requires ReadyToForward(s, t, i, x, delay)
    requires Targ(s, t).kind in {TypeA, TypeB, TypeC} && (Targ(s, t).kind.TypeB? ==> Targ(s, t).nTrans >= 2)
    ensures var o := ForwardReq(s, t, x, delay, acc, lat);
            && ForwardKnown(s, o, t, i, x) && o.r.status == Accepted && Tok(o.s, x) == Token(PeqReq, i, t)
  {
    hide ForwardReq, TargetPostReq, OpenReq, Seen1, Watch;
    RepliedPosted(s, t, x, delay, acc, lat);
    PostedKnown(s, t, i, x, delay);
    PostedSeen(s, t, i, x, delay);
  }

  // The initiator is left alone, and nothing is on its way to it
  lemma ForwardWatched(s: System, t: nat, i: nat, x: Trans, delay: nat, acc: nat, lat: nat)
    requires Good(s) && MayForward(s, t, i, x) && Asked(s, i, x)
    requires var o := ForwardReq(s, t, x, delay, acc, lat);
             && Local(s, o.s, x, t, i) && ForwardKnown(s, o, t, i, x) && o.s.inits == s.inits
             && Tok(o.s, x) == Token(StageOf(o.s, x), i, t)
    ensures var o := ForwardReq(s, t, x, delay, acc, lat); Watched(o.s, Mon(o.s))
  {
    hide Inv, Watched, Local, ForwardReq, Seen1, Watch;
    TargetEventMoves(s, ForwardReq(s, t, x, delay, acc, lat).s, x, t, i);
  }
}
