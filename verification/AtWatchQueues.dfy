/** Moves through the queues of the interconnect, and the rest, keep what the checkers know in step. */
module AtWatchQueues {
  import opened Tlm
  import opened ProtocolChecker
  import opened AtSystem
  import opened AtInvariant
  import opened AtFrame
  import opened AtKeeps
  import opened AtCallbacks
  import opened AtInitMoves
  import opened AtWatch
  import opened AtWatchMoves
  import opened AtWatchInits

  // ---------- Nothing is seen and no transaction moves ----------

  ghost predicate SameToCheckers(s: System, s': System) {
    && s'.log == s.log && s'.tokens == s.tokens && s'.inits == s.inits && s'.targets == s.targets
    && s'.minLatency == s.minLatency && s.now <= s'.now
    && s'.ic.reqQueue == s.ic.reqQueue && s'.ic.rspQueue == s.ic.rspQueue
  }

  lemma UnseenLog(s: System, s': System)
    requires SameToCheckers(s, s')
    ensures Mon(s') == Mon(s)
  {
  }

  lemma UnseenStage(s: System, s': System, m: Monitor, x: Trans)
    requires PhasesOk(s, m, x) && TimesOk(s, m, x) && SameToCheckers(s, s')
    ensures PhasesOk(s', m, x) && TimesOk(s', m, x)
  {
    hide Ph, Time, PathOf, InitPhase, TargPhase, PathAt;
  }

  lemma UnseenExcused(s: System, s': System, v: Violation)
    requires Excused(s, v) && SameToCheckers(s, s')
    ensures Excused(s', v)
  {
  }

  lemma UnseenWatched(s: System, s': System)
    requires Watched(s, Mon(s)) && SameToCheckers(s, s')
    ensures Watched(s', Mon(s'))
  {
    hide Watch, Flagged, PhasesOk, TimesOk, StrictOk, Excused, SameToCheckers;
    var m := Mon(s);
    assert Mon(s') == m by { UnseenLog(s, s'); }
    forall x ensures PhasesOk(s', m, x) && TimesOk(s', m, x) { UnseenStage(s, s', m, x); }
    forall i ensures StrictOk(s', m, i) { UnseenStrict(s, s', m, i); }
    forall v | v in m.errors ensures Excused(s', v) { UnseenExcused(s, s', v); }
  }

  lemma UnseenStrict(s: System, s': System, m: Monitor, i: nat)
    requires StrictOk(s, m, i) && SameToCheckers(s, s')
    ensures StrictOk(s', m, i)
  {
    if Strict(s, i) {
      forall x ensures StrictLane(s', m, i, x) { assert StrictLane(s, m, i, x); }
    }
  }

  lemma ReadyGood(s: System, t: nat, i: nat, x: Trans)
    requires Good(s) && Tok(s, x) == Token(StageOf(s, x), i, t)
    ensures Good(Ready(s, i, x)) && Local(s, Ready(s, i, x), x, t, i) && Mon(Ready(s, i, x)) == Mon(s)
  {
    hide Inv, Watched, Local;
    ReadyKeeps(s, t, i, x);
    UnseenWatched(s, Ready(s, i, x));
  }

  lemma ReleaseGood(s: System, x: Trans)
    requires Good(s) && Spare(s, x) > 0
    ensures Good(Release(s, x)) && Local(s, Release(s, x), x, Tok(s, x).target, Tok(s, x).init)
  {
    hide Inv, Watched, Local;
    ReleaseKeeps(s, x);
    UnseenWatched(s, Release(s, x));
  }

  lemma ClearReqSlotGood(s: System, t: nat)
    requires Good(s) && t in s.ic.endReq && Queue(s.ic.reqQueue, t) == []
    ensures Good(ClearReqSlot(s, t))
  {
    hide Inv, Watched;
    ClearReqSlotKeeps(s, t);
    UnseenWatched(s, ClearReqSlot(s, t));
  }

  lemma ClearRspSlotGood(s: System, i: nat)
    requires Good(s) && i in s.ic.endRsp && Queue(s.ic.rspQueue, i) == []
    ensures Good(ClearRspSlot(s, i))
  {
    hide Inv, Watched;
    ClearRspSlotKeeps(s, i);
    UnseenWatched(s, ClearRspSlot(s, i));
  }

  // ---------- req_queue and rsp_queue ----------

  // A move that no checker sees, from or to a queue
  lemma QueueMoveWatched(s: System, s': System, x: Trans, t: nat, i: nat)
    requires Watched(s, Mon(s)) && Local(s, s', x, t, i) && Tok(s, x).init == Tok(s', x).init == i
    requires s'.log == s.log && s'.inits == s.inits && s'.targets == s.targets
    requires forall e :: e in Queue(s'.ic.reqQueue, t) && e.trans != x ==> e in Queue(s.ic.reqQueue, t)
    requires forall e :: e in Queue(s'.ic.rspQueue, i) && e.trans != x ==> e in Queue(s.ic.rspQueue, i)
    requires PhasesOk(s', Mon(s), x) && TimesOk(s', Mon(s), x) && EndReqSafe(s, s', x, i)
    ensures Watched(s', Mon(s'))
  {
    hide PhasesOk, TimesOk, Flagged, Local;
    var m := Mon(s);
    SeesNothing(m, x, t, i);
    assert StrictOk(s, m, i) && (Strict(s, i) ==> StrictLane(s, m, i, x));
    assert Strict(s, i) ==> StrictLane(s', m, i, x) by { LocalKinds(s, s', x, t, i); }
    StrictKeeps(s, s', m, m, x, t, i);
    ExcusedStay(s, s', m, x, t, i);
    WatchMoves(s, s', m, m, x, t, i);
  }

  lemma NotYetQueued(s: System, k: nat, x: Trans)
    requires Inv(s)
    ensures !At(s, k, x, ReqQueued) ==> forall e :: e in Queue(s.ic.reqQueue, k) ==> e.trans != x
    ensures !FromInit(s, k, x, RspQueued) ==> forall e :: e in Queue(s.ic.rspQueue, k) ==> e.trans != x
  {
    assert ReqSideOk(s, k) && RspSideOk(s, k);
    forall e | e in Queue(s.ic.reqQueue, k) ensures At(s, k, e.trans, ReqQueued) {
      var j :| 0 <= j < |Queue(s.ic.reqQueue, k)| && Queue(s.ic.reqQueue, k)[j] == e;
    }
    forall e | e in Queue(s.ic.rspQueue, k) ensures FromInit(s, k, e.trans, RspQueued) {
      var j :| 0 <= j < |Queue(s.ic.rspQueue, k)| && Queue(s.ic.rspQueue, k)[j] == e;
    }
  }

  lemma QueueReqKnown(s: System, t: nat, i: nat, x: Trans, delay: nat)
    requires Tok(s, x) == Token(ReqReady, i, t) && PhasesOk(s, Mon(s), x) && Early(Mon(s), i, x, s.now + delay)
    requires forall e :: e in Queue(s.ic.reqQueue, t) ==> e.trans != x
    ensures var s' := QueueReq(s, t, x, delay);
            && PhasesOk(s', Mon(s), x) && TimesOk(s', Mon(s), x) && Tok(s', x) == Token(ReqQueued, i, t)
            && (forall e :: e in Queue(s'.ic.reqQueue, t) && e.trans != x ==> e in Queue(s.ic.reqQueue, t))
            && s'.log == s.log && s'.inits == s.inits && s'.targets == s.targets && s'.ic.rspQueue == s.ic.rspQueue
  {
    hide Watch;
  }

  lemma QueueReqGood(s: System, t: nat, i: nat, x: Trans, delay: nat)
    requires Good(s) && Tok(s, x) == Token(ReqReady, i, t) && t in s.ic.reqSlot && Early(Mon(s), i, x, s.now + delay)
    ensures Good(QueueReq(s, t, x, delay)) && Local(s, QueueReq(s, t, x, delay), x, t, i)
  {
    hide Inv, Watched, Local, QueueReq, PhasesOk, TimesOk, Watch, Early;
    KnownOf(s, x, i);
    AskedNow(s, i, x);
    NotYetQueued(s, t, x);
    QueueReqKnown(s, t, i, x, delay);
    QueueReqKeeps(s, t, i, x, delay);
    QueueMoveWatched(s, QueueReq(s, t, x, delay), x, t, i);
  }

  lemma PopReqKnown(s: System, t: nat, i: nat, x: Trans)
    requires Tok(s, x) == Token(ReqQueued, i, t) && PhasesOk(s, Mon(s), x) && TimesOk(s, Mon(s), x)
    requires Queue(s.ic.reqQueue, t) != [] && Queue(s.ic.reqQueue, t)[0].trans == x
    ensures var s' := PopReq(s, t);
            && PhasesOk(s', Mon(s), x) && TimesOk(s', Mon(s), x) && Tok(s', x) == Token(ReqReady, i, t)
            && (forall e :: e in Queue(s'.ic.reqQueue, t) ==> e in Queue(s.ic.reqQueue, t))
            && s'.log == s.log && s'.inits == s.inits && s'.targets == s.targets && s'.ic.rspQueue == s.ic.rspQueue
            && Early(Mon(s), i, x, s.now + Since(Queue(s.ic.reqQueue, t)[0].time, s.now))
  {
    hide Watch;
    assert Queue(s.ic.reqQueue, t)[0] in Queue(s.ic.reqQueue, t);
  }

  lemma PopReqGood(s: System, t: nat, i: nat, x: Trans)
    requires Good(s) && Tok(s, x) == Token(ReqQueued, i, t)
    requires Queue(s.ic.reqQueue, t) != [] && Queue(s.ic.reqQueue, t)[0].trans == x
    ensures var s' := PopReq(s, t);
            && Good(s') && Local(s, s', x, t, i) && Spare(s', x) > 0
            && Early(Mon(s'), i, x, s'.now + Since(Queue(s.ic.reqQueue, t)[0].time, s.now))
  {
    hide Inv, Watched, Local, PopReq, PhasesOk, TimesOk, Watch, Early, Spare;
    KnownOf(s, x, i);
    AskedNow(s, i, x);
    PopReqKnown(s, t, i, x);
    PopReqKeeps(s, t, i, x);
    LocalNow(s, PopReq(s, t), x, t, i);
    QueueMoveWatched(s, PopReq(s, t), x, t, i);
  }

  lemma QueueRspKnown(s: System, t: nat, i: nat, x: Trans, delay: nat)
    requires Tok(s, x) == Token(RspReady, i, t) && PhasesOk(s, Mon(s), x) && Late(Mon(s), i, t, x, s.now + delay)
    requires forall e :: e in Queue(s.ic.rspQueue, i) ==> e.trans != x
    ensures var s' := QueueRsp(s, i, x, delay);
            && PhasesOk(s', Mon(s), x) && TimesOk(s', Mon(s), x) && Tok(s', x) == Token(RspQueued, i, t)
            && (forall e :: e in Queue(s'.ic.rspQueue, i) && e.trans != x ==> e in Queue(s.ic.rspQueue, i))
            && s'.log == s.log && s'.inits == s.inits && s'.targets == s.targets && s'.ic.reqQueue == s.ic.reqQueue
  {
    hide PhasesOk, Ph, Time, PathOf;
    PhasesAre(s, Mon(s), x, RspReady, i, t);
    hide Watch;
    PhasesAre(QueueRsp(s, i, x, delay), Mon(s), x, RspQueued, i, t);
  }

  lemma QueueRspGood(s: System, t: nat, i: nat, x: Trans, delay: nat)
    requires Good(s) && Tok(s, x) == Token(RspReady, i, t) && i in s.ic.rspSlot && Late(Mon(s), i, t, x, s.now + delay)
    ensures Good(QueueRsp(s, i, x, delay)) && Local(s, QueueRsp(s, i, x, delay), x, t, i)
  {
    hide Inv, Watched, Local, QueueRsp, PhasesOk, TimesOk, Watch, Late;
    KnownOf(s, x, i);
    NotYetQueued(s, i, x);
    if Strict(s, i) && Init(s, i).kind.InitB? { NotExecutingB(s, x, i); }
    QueueRspKnown(s, t, i, x, delay);
    QueueRspKeeps(s, t, i, x, delay);
    QueueMoveWatched(s, QueueRsp(s, i, x, delay), x, t, i);
  }

  lemma PopRspKnown(s: System, t: nat, i: nat, x: Trans)
    requires Tok(s, x) == Token(RspQueued, i, t) && PhasesOk(s, Mon(s), x) && TimesOk(s, Mon(s), x)
    requires Queue(s.ic.rspQueue, i) != [] && Queue(s.ic.rspQueue, i)[0].trans == x
    ensures var s' := PopRsp(s, i);
            && PhasesOk(s', Mon(s), x) && TimesOk(s', Mon(s), x) && Tok(s', x) == Token(RspReady, i, t)
            && (forall e :: e in Queue(s'.ic.rspQueue, i) ==> e in Queue(s.ic.rspQueue, i))
            && s'.log == s.log && s'.inits == s.inits && s'.targets == s.targets && s'.ic.reqQueue == s.ic.reqQueue
            && Late(Mon(s), i, t, x, s.now + Since(Queue(s.ic.rspQueue, i)[0].time, s.now))
  {
    hide Watch;
    assert Queue(s.ic.rspQueue, i)[0] in Queue(s.ic.rspQueue, i);
  }

  lemma PopRspGood(s: System, t: nat, i: nat, x: Trans)
    requires Good(s) && Tok(s, x) == Token(RspQueued, i, t)
    requires Queue(s.ic.rspQueue, i) != [] && Queue(s.ic.rspQueue, i)[0].trans == x
    ensures var s' := PopRsp(s, i);
            && Good(s') && Local(s, s', x, t, i) && Spare(s', x) > 0
            && Late(Mon(s'), i, t, x, s'.now + Since(Queue(s.ic.rspQueue, i)[0].time, s.now))
  {
    hide Inv, Watched, Local, PopRsp, PhasesOk, TimesOk, Watch, Late, Spare;
    KnownOf(s, x, i);
    if Strict(s, i) && Init(s, i).kind.InitB? { NotExecutingB(s, x, i); }
    PopRspKnown(s, t, i, x);
    PopRspKeeps(s, t, i, x);
    LocalNow(s, PopRsp(s, i), x, t, i);
    QueueMoveWatched(s, PopRsp(s, i), x, t, i);
  }

  // ---------- The end of a response, at the target's hop ----------

  lemma MarkClosedSeen(s: System, t: nat, i: nat, x: Trans, delay: nat)
    requires Tok(s, x) == Token(Closing, i, t)
    ensures var s' := Move(Show(s, TargHop(t), x, BwCompleted, delay), x, Closed);
            && Mon(s') == Observe(Mon(s), Event(TargHop(t), x, BwCompleted, s.now + delay))
            && Tok(s', x) == Token(Closed, i, t) && s'.inits == s.inits && s'.targets == s.targets && s'.ic == s.ic
  {
    hide Watch, Observe;
    ShowIs(s, TargHop(t), x, BwCompleted, delay);
  }

  lemma MarkClosedGood(s: System, t: nat, i: nat, x: Trans, delay: nat)
    requires Good(s) && Tok(s, x) == Token(Closing, i, t) && !Targ(s, t).kind.TypeE?
    ensures var s' := Move(Show(s, TargHop(t), x, BwCompleted, delay), x, Closed); Good(s') && Local(s, s', x, t, i)
  {
    hide Inv, Watched, Local, Show, PhasesOk, TimesOk, Flagged, Seen1, Watch;
    KnownOf(s, x, i);
    KnownFlags(s, i);
    MarkClosedSeen(s, t, i, x, delay);
    MarkClosedKnown(s, t, i, x, delay);
    MarkClosedKeeps(s, t, i, x, delay);
    if Strict(s, i) { ClosingHasNoEndReq(s, x, i); }
    TargetEventMoves(s, Move(Show(s, TargHop(t), x, BwCompleted, delay), x, Closed), x, t, i);
  }

  lemma MarkClosedKnown(s: System, t: nat, i: nat, x: Trans, delay: nat)
    requires Tok(s, x) == Token(Closing, i, t) && PhasesOk(s, Mon(s), x) && Flagged(Mon(s)) && !Targ(s, t).kind.TypeE?
    ensures Seen1(s, Move(Show(s, TargHop(t), x, BwCompleted, delay), x, Closed), TargHop(t), x, t, i)
  {
    hide Observe, Flagged, Watch, FlagsAt, Show, SeesAt, PhasesOk, Ph, Time, PathOf, Beside, Mine;
    PhasesAre(s, Mon(s), x, Closing, i, t);
    var s' := Move(Show(s, TargHop(t), x, BwCompleted, delay), x, Closed);
    MarkClosedSeen(s, t, i, x, delay);
    SeesBwCompleted(Mon(s), TargHop(t), x, s.now + delay);
    SeenElsewhere(s, s', t, i, x);
    PhasesAre(s', Mon(s'), x, Closed, i, t);
  }

  lemma ClosingHasNoEndReq(s: System, x: Trans, i: nat)
    requires Good(s) && Tok(s, x).init == i && StageOf(s, x).Closing? && Strict(s, i)
    ensures !EndReqDue(Lane(Init(s, i).peq, x))
  {
    assert StrictOk(s, Mon(s), i) && StrictLane(s, Mon(s), i, x);
  }

  lemma PassToQueueSeen(s: System, t: nat, i: nat, x: Trans, delay: nat)
    requires Tok(s, x) == Token(Closing, i, t) && Targ(s, t).kind in {TypeA, TypeB, TypeC}
    ensures var s' := PassEndResp(s, t, x, delay).s;
            && Mon(s') == Observe(Mon(s), Event(TargHop(t), x, Forward(EndResp), s.now + delay))
            && Tok(s', x) == Token(PeqEnd, i, t) && s'.inits == s.inits && s'.ic == s.ic
            && Targ(s', t) == Targ(s, t).(peq := Post(Targ(s, t).peq, x, s.now + delay, EndResp))
  {
    hide Watch, Observe;
    ShowIs(s, TargHop(t), x, Forward(EndResp), delay);
    var s1 := Show(s, TargHop(t), x, Forward(EndResp), delay);
    assert TargetEndResp(s1, t, x, delay) == TargetPostEnd(s1, t, x, delay);
  }

  lemma PostElsewhere(q: Peq, x: Trans, time: nat, phase: Phase)
    ensures forall y :: y != x ==> Lane(Post(q, x, time, phase), y) == Lane(q, y)
  {
  }

  lemma PassToQueueKnown(s: System, t: nat, i: nat, x: Trans, delay: nat)
    requires Tok(s, x) == Token(Closing, i, t) && PhasesOk(s, Mon(s), x) && Flagged(Mon(s))
    requires Targ(s, t).kind in {TypeA, TypeB, TypeC} && Late(Mon(s), i, t, x, s.now + delay)
    ensures Seen1(s, PassEndResp(s, t, x, delay).s, TargHop(t), x, t, i)
  {
    hide PassEndResp, Observe, Flagged, Watch, SeesAt, FlagsAt, PhasesOk, Ph, Time, PathOf, Beside, Mine, Post, KindOf;
    var s' := PassEndResp(s, t, x, delay).s;
    PhasesAre(s, Mon(s), x, Closing, i, t);
    PassToQueueSeen(s, t, i, x, delay);
    SeesEndResp(Mon(s), TargHop(t), x, s.now + delay);
    PostElsewhere(Targ(s, t).peq, x, s.now + delay, EndResp);
    SeenElsewhere(s, s', t, i, x);
    PhasesAre(s', Mon(s'), x, PeqEnd, i, t);
  }

  lemma PassToQueueGood(s: System, t: nat, i: nat, x: Trans, delay: nat)
    requires Good(s) && Tok(s, x) == Token(Closing, i, t) && Targ(s, t).kind in {TypeA, TypeB, TypeC}
    requires Late(Mon(s), i, t, x, s.now + delay)
    ensures Good(PassEndResp(s, t, x, delay).s) && Local(s, PassEndResp(s, t, x, delay).s, x, t, i)
  {
    hide Inv, Watched, Local, PassEndResp, PhasesOk, TimesOk, Flagged, Seen1, Watch, Late;
    KnownOf(s, x, i);
    KnownFlags(s, i);
    PassToQueueSeen(s, t, i, x, delay);
    PassToQueueKnown(s, t, i, x, delay);
    PassToQueueKeeps(s, t, i, x, delay);
    if Strict(s, i) { ClosingHasNoEndReq(s, x, i); }
    TargetEventMoves(s, PassEndResp(s, t, x, delay).s, x, t, i);
  }

  lemma PassToTypeDSeen(s: System, t: nat, i: nat, x: Trans, delay: nat)
    requires Tok(s, x) == Token(Closing, i, t) && Targ(s, t).kind.TypeD?
    ensures var s' := PassEndResp(s, t, x, delay).s;
            var m1 := Observe(Mon(s), Event(TargHop(t), x, Forward(EndResp), s.now + delay));
            && Mon(s') == Observe(m1, Event(TargHop(t), x, FwCompleted(false), s.now + delay))
            && Tok(s', x) == Token(Free, i, t) && s'.inits == s.inits && s'.ic == s.ic
            && Targ(s', t) == Targ(s, t).(responding := false, rspEvent := Targ(s', t).rspEvent)
  {
    hide Watch, Observe;
    ShowIs(s, TargHop(t), x, Forward(EndResp), delay);
    var s1 := Show(s, TargHop(t), x, Forward(EndResp), delay);
    var o := TargetClears(s1, t, x, delay);
    assert TargetEndResp(s1, t, x, delay) == o;
    ShowIs(o.s, TargHop(t), x, FwCompleted(false), delay);
  }

  lemma PassToTypeDKnown(s: System, t: nat, i: nat, x: Trans, delay: nat)
    requires Tok(s, x) == Token(Closing, i, t) && PhasesOk(s, Mon(s), x) && Flagged(Mon(s))
    requires Targ(s, t).kind.TypeD? && Late(Mon(s), i, t, x, s.now + delay)
    ensures Seen1(s, PassEndResp(s, t, x, delay).s, TargHop(t), x, t, i)
  {
    hide PassEndResp, Observe, Flagged, Watch, SeesAt, FlagsAt, PhasesOk, Ph, Time, PathOf, Beside, Mine;
    PhasesAre(s, Mon(s), x, Closing, i, t);
    var s', m := PassEndResp(s, t, x, delay).s, Mon(s);
    var m1 := Observe(m, Event(TargHop(t), x, Forward(EndResp), s.now + delay));
    PassToTypeDSeen(s, t, i, x, delay);
    SeesEndResp(m, TargHop(t), x, s.now + delay);
    SeesFwCompletedEnd(m1, TargHop(t), x, s.now + delay);
    SeesTwice(m, m1, Mon(s'), TargHop(t), x);
    SeenElsewhere(s, s', t, i, x);
    PhasesAre(s', Mon(s'), x, Free, i, t);
  }

  lemma PassToTypeDGood(s: System, t: nat, i: nat, x: Trans, delay: nat)
    requires Good(s) && Tok(s, x) == Token(Closing, i, t) && Targ(s, t).kind.TypeD?
    requires Late(Mon(s), i, t, x, s.now + delay)
    ensures Good(PassEndResp(s, t, x, delay).s) && Local(s, PassEndResp(s, t, x, delay).s, x, t, i)
  {
    hide Inv, Watched, Local, PassEndResp, PhasesOk, TimesOk, Flagged, Seen1, Watch, Late;
    KnownOf(s, x, i);
    KnownFlags(s, i);
    PassToTypeDSeen(s, t, i, x, delay);
    PassToTypeDKnown(s, t, i, x, delay);
    PassToTypeDKeeps(s, t, i, x, delay);
    if Strict(s, i) { ClosingHasNoEndReq(s, x, i); }
    TargetEventMoves(s, PassEndResp(s, t, x, delay).s, x, t, i);
  }

  lemma ForgetGood(s: System, t: nat, i: nat, x: Trans)
    requires Good(s) && Tok(s, x) == Token(Closing, i, t) && Targ(s, t).kind.TypeE?
    ensures Good(Move(s, x, Free)) && Local(s, Move(s, x, Free), x, t, i)
  {
    hide Inv, Watched, Local;
    KnownOf(s, x, i);
    ForgetKeeps(s, t, i, x);
    TargetMoveWatched(s, Move(s, x, Free), x, t, i);
  }

  lemma EndOnTargetGood(s: System, t: nat, i: nat, x: Trans, delay: nat)
    requires Good(s) && Tok(s, x) == Token(Closing, i, t) && Late(Mon(s), i, t, x, s.now + delay)
    ensures var o := EndOnTarget(s, x, delay);
            Good(o.s) && Local(s, o.s, x, t, i) && !Passing(StageOf(o.s, x)) && o.r.status != Updated
            && (o.r.status == Completed ==> StageOf(o.s, x) == Free) && Tok(o.s, x) == Token(StageOf(o.s, x), i, t)
  {
    hide Inv, Watched, Local, PassEndResp, Watch, Late;
    RouteIs(s, t, i, x);
    match Targ(s, t).kind
    case TypeD =>
      PassToTypeDGood(s, t, i, x, delay);
      PassToTypeDSeen(s, t, i, x, delay);
      PassedOn(s, t, x, delay);
    case TypeE => ForgetGood(s, t, i, x);
    case _ =>
      PassToQueueGood(s, t, i, x, delay);
      PassToQueueSeen(s, t, i, x, delay);
      PassedAccepts(s, t, x, delay);
      PassedOn(s, t, x, delay);
  }

  lemma PassedAccepts(s: System, t: nat, x: Trans, delay: nat)
    requires Targ(s, t).kind in {TypeA, TypeB, TypeC}
    ensures PassEndResp(s, t, x, delay).r.status == Accepted
  {
    var s1 := Show(s, TargHop(t), x, Forward(EndResp), delay);
    assert TargetEndResp(s1, t, x, delay) == TargetPostEnd(s1, t, x, delay);
  }

  // ---------- END_REQ from a target, through both hops ----------

  lemma SameLog(s: System, s': System)
    requires s'.log == s.log
    ensures Mon(s') == Mon(s)
  {
  }

  lemma IcEndReqSeen(s: System, t: nat, i: nat, x: Trans, acc: nat)
    requires Tok(s, x) == Token(ReqTaken, i, t) && RouteOf(s, x).init == i
    ensures var s' := IcEndReq(s, t, x, acc);
            var m1 := Observe(Mon(s), Event(TargHop(t), x, Backward(EndReq), s.now + acc));
            && Mon(s') == Observe(m1, Event(InitHop(i), x, Backward(EndReq), s.now + acc))
            && Tok(s', x) == Tok(s, x) && s'.minLatency == s.minLatency && s'.targets == s.targets && s'.now == s.now
            && Init(s', i) == Init(s, i).(peq := Post(Init(s, i).peq, x, s.now + acc, EndReq))
            && s'.ic.reqQueue == s.ic.reqQueue && s'.ic.rspQueue == s.ic.rspQueue
  {
    hide Watch, Observe;
    ShowIs(s, TargHop(t), x, Backward(EndReq), acc);
    var s1 := NotifyEndReq(Show(s, TargHop(t), x, Backward(EndReq), acc), t);
    ShowIs(Check(s1, x in s1.ic.ext), InitHop(i), x, Backward(EndReq), acc);
  }

  lemma SendEndReqSeen(s: System, t: nat, i: nat, x: Trans, acc: nat, lat: nat)
    requires Tok(s, x) == Token(ReqTaken, i, t) && RouteOf(s, x).init == i
    ensures var s' := SendEndReq(s, t, x, acc, lat);
            var m1 := Observe(Mon(s), Event(TargHop(t), x, Backward(EndReq), s.now + acc));
            && Mon(s') == Observe(m1, Event(InitHop(i), x, Backward(EndReq), s.now + acc))
            && Tok(s', x) == Token(Executing, i, t) && s'.minLatency == s.minLatency
            && Targ(s', t) == Targ(s, t).(peq := Post(Targ(s, t).peq, x, s.now + acc + lat, Internal),
                 nTrans := Targ(s, t).nTrans + 1)
            && Init(s', i) == Init(s, i).(peq := Post(Init(s, i).peq, x, s.now + acc, EndReq))
            && s'.ic.reqQueue == s.ic.reqQueue && s'.ic.rspQueue == s.ic.rspQueue
  {
    hide Watch, Observe, Mon, IcEndReq;
    var s1 := IcEndReq(s, t, x, acc);
    IcEndReqSeen(s, t, i, x, acc);
    assert SendEndReq(s, t, x, acc, lat).log == s1.log;
    SameLog(s1, SendEndReq(s, t, x, acc, lat));
  }

  lemma SeesBoth(m: Monitor, m1: Monitor, m2: Monitor, x: Trans, t: nat, i: nat)
    requires SeesAt(m, m1, TargHop(t), x) && FlagsAt(m, m1, TargHop(t)) && m1.errors == m.errors
    requires SeesAt(m1, m2, InitHop(i), x) && FlagsAt(m1, m2, InitHop(i)) && m2.errors == m1.errors
    ensures SeesOnly(m, m2, x, t, i) && m2.errors == m.errors
    ensures forall h :: h != InitHop(i) && h != TargHop(t) ==> Ph(m2, h, x) == Ph(m, h, x)
    ensures Ph(m2, TargHop(t), x) == Ph(m1, TargHop(t), x) && Time(m2, TargHop(t), x) == Time(m1, TargHop(t), x)
    ensures Ph(m1, InitHop(i), x) == Ph(m, InitHop(i), x) && Time(m1, InitHop(i), x) == Time(m, InitHop(i), x)
  {
  }

  lemma SendEndReqKnown(s: System, t: nat, i: nat, x: Trans, acc: nat, lat: nat)
    requires Tok(s, x) == Token(ReqTaken, i, t) && RouteOf(s, x).init == i && Pipelined(Targ(s, t).kind)
    requires PhasesOk(s, Mon(s), x) && TimesOk(s, Mon(s), x) && Flagged(Mon(s)) && Asked(s, i, x)
    requires s.minLatency <= lat && Lane(Targ(s, t).peq, x) == []
    ensures var s', m := SendEndReq(s, t, x, acc, lat), Mon(s);
            && SeesOnly(m, Mon(s'), x, t, i) && Mon(s').errors == m.errors && Flagged(Mon(s'))
            && InitHop(i) !in Mon(s').req
  {
    hide SendEndReq, Observe, Flagged, Watch, SeesAt, FlagsAt, SeesOnly;
    var s', m := SendEndReq(s, t, x, acc, lat), Mon(s);
    var m1 := Observe(m, Event(TargHop(t), x, Backward(EndReq), s.now + acc));
    SendEndReqSeen(s, t, i, x, acc, lat);
    SeesEndReq(m, TargHop(t), x, s.now + acc);
    SeesElsewhere(m, m1, TargHop(t), InitHop(i), x);
    SeesEndReq(m1, InitHop(i), x, s.now + acc);
    SeesBoth(m, m1, Mon(s'), x, t, i);
  }

  lemma SendEndReqStage(s: System, t: nat, i: nat, x: Trans, acc: nat, lat: nat)
    requires Tok(s, x) == Token(ReqTaken, i, t) && RouteOf(s, x).init == i && Pipelined(Targ(s, t).kind)
    requires PhasesOk(s, Mon(s), x) && TimesOk(s, Mon(s), x) && Flagged(Mon(s)) && Asked(s, i, x)
    requires s.minLatency <= lat && Lane(Targ(s, t).peq, x) == []
    ensures var s' := SendEndReq(s, t, x, acc, lat); PhasesOk(s', Mon(s'), x) && TimesOk(s', Mon(s'), x)
  {
    hide SendEndReq, Observe, Flagged, Watch, SeesAt, FlagsAt, SeesOnly, PhasesOk, Ph, Time, PathOf, Mine;
    PhasesAre(s, Mon(s), x, ReqTaken, i, t);
    var s', m := SendEndReq(s, t, x, acc, lat), Mon(s);
    var m1 := Observe(m, Event(TargHop(t), x, Backward(EndReq), s.now + acc));
    SendEndReqSeen(s, t, i, x, acc, lat);
    SeesEndReq(m, TargHop(t), x, s.now + acc);
    SeesElsewhere(m, m1, TargHop(t), InitHop(i), x);
    SeesEndReq(m1, InitHop(i), x, s.now + acc);
    SeesBoth(m, m1, Mon(s'), x, t, i);
    PhasesAre(s', Mon(s'), x, Executing, i, t);
  }

  lemma SendEndReqLane(s: System, t: nat, i: nat, x: Trans, acc: nat, lat: nat)
    requires Tok(s, x) == Token(ReqTaken, i, t) && RouteOf(s, x).init == i && Pipelined(Targ(s, t).kind)
    requires PhasesOk(s, Mon(s), x) && TimesOk(s, Mon(s), x) && Flagged(Mon(s)) && Asked(s, i, x)
    requires s.minLatency <= lat && Lane(Targ(s, t).peq, x) == []
    ensures var s' := SendEndReq(s, t, x, acc, lat);
            Beside(s, s', x, t, i) && (Strict(s, i) ==> StrictLane(s', Mon(s'), i, x))
  {
    hide SendEndReq, Observe, Flagged, Watch, SeesAt, FlagsAt, SeesOnly, PhasesOk, Ph, Time, PathOf, Mine;
    PhasesAre(s, Mon(s), x, ReqTaken, i, t);
    var s', m := SendEndReq(s, t, x, acc, lat), Mon(s);
    var m1 := Observe(m, Event(TargHop(t), x, Backward(EndReq), s.now + acc));
    SendEndReqSeen(s, t, i, x, acc, lat);
    SeesEndReq(m, TargHop(t), x, s.now + acc);
    SeesElsewhere(m, m1, TargHop(t), InitHop(i), x);
    SeesEndReq(m1, InitHop(i), x, s.now + acc);
    SeesBoth(m, m1, Mon(s'), x, t, i);
  }

  lemma SeesElsewhere(m: Monitor, m': Monitor, h: Hop, g: Hop, x: Trans)
    requires SeesAt(m, m', h, x) && g != h
    ensures Ph(m', g, x) == Ph(m, g, x) && Time(m', g, x) == Time(m, g, x)
  {
  }

  lemma ReqTakenIs(s: System, t: nat, i: nat, x: Trans)
    requires Inv(s) && Tok(s, x) == Token(ReqTaken, i, t)
    ensures RouteOf(s, x).init == i && Pipelined(Targ(s, t).kind) && Lane(Targ(s, t).peq, x) == []
  {
    assert TransOk(s, x) && TargOk(s, t) && TargLaneOk(s, t, Targ(s, t).peq, x);
  }

  lemma SendEndReqGood(s: System, t: nat, i: nat, x: Trans, acc: nat, lat: nat)
    requires Good(s) && Tok(s, x) == Token(ReqTaken, i, t) && Targ(s, t).nTrans <= 1 && s.minLatency <= lat
    ensures Good(SendEndReq(s, t, x, acc, lat)) && Local(s, SendEndReq(s, t, x, acc, lat), x, t, i)
  {
    hide Inv, Watched, Local, SendEndReq, PhasesOk, TimesOk, Flagged, Watch, StrictLane, SeesOnly, Beside, AllExcused,
        StrictOk;
    var s' := SendEndReq(s, t, x, acc, lat);
    KnownOf(s, x, i);
    KnownFlags(s, i);
    KnownExcused(s);
    AskedNow(s, i, x);
    ReqTakenIs(s, t, i, x);
    SendEndReqKnown(s, t, i, x, acc, lat);
    SendEndReqStage(s, t, i, x, acc, lat);
    SendEndReqLane(s, t, i, x, acc, lat);
    SendEndReqSeen(s, t, i, x, acc, lat);
    SendEndReqKeeps(s, t, i, x, acc, lat);
    SameExcused(s, s', x, t, i);
    StrictAgain(s, s', x, t, i);
    WatchMoves(s, s', Mon(s), Mon(s'), x, t, i);
  }

  lemma SameExcused(s: System, s': System, x: Trans, t: nat, i: nat)
    requires AllExcused(s, Mon(s)) && Mon(s').errors == Mon(s).errors && Local(s, s', x, t, i)
    ensures AllExcused(s', Mon(s'))
  {
    hide Watch, Local;
    ExcusedStay(s, s', Mon(s), x, t, i);
    forall v | v in Mon(s').errors ensures Excused(s', v) { assert Excused(s', v); }
  }

  // Initiator i has been asking for x only, and its flag is clear now
  lemma StrictAgain(s: System, s': System, x: Trans, t: nat, i: nat)
    requires Local(s, s', x, t, i) && SeesOnly(Mon(s), Mon(s'), x, t, i) && Beside(s, s', x, t, i)
    requires StrictOk(s, Mon(s), i)
    requires Asked(s, i, x) && InitHop(i) !in Mon(s').req && (Strict(s, i) ==> StrictLane(s', Mon(s'), i, x))
    ensures StrictOk(s', Mon(s'), i)
  {
    hide Local, SeesOnly, Beside, Watch, StrictLane;
    LocalKinds(s, s', x, t, i);
    if Strict(s, i) { StrictOthers(s, s', x, t, i); }
  }

  // ---------- END_REQ taken by an initiator ----------

  lemma TakeEndReqGood(s: System, i: nat, x: Trans)
    requires Good(s) && i in s.inits && EndReqDue(Lane(Init(s, i).peq, x))
    ensures Good(TakeEndReq(s, i, x))
  {
    hide Inv, Flagged, Watch, PhasesOk, TimesOk, StrictOk;
    var s', m := TakeEndReq(s, i, x), Mon(s);
    TakeEndReqKeeps(s, i, x);
    forall y ensures PhasesOk(s', m, y) { TakeEndReqPhases(s, i, x, y); }
    forall y ensures TimesOk(s', m, y) { TakeEndReqTimes(s, i, x, y); }
    forall j ensures StrictOk(s', m, j) { TakeEndReqStrict(s, i, x, j); }
    forall v | v in m.errors ensures Excused(s', v) { assert Excused(s, v); }
  }

  lemma TakeEndReqPhases(s: System, i: nat, x: Trans, y: Trans)
    requires PhasesOk(s, Mon(s), y)
    ensures PhasesOk(TakeEndReq(s, i, x), Mon(s), y)
  {
  }

  lemma TakeEndReqLanes(s: System, i: nat, x: Trans, y: Trans)
    ensures var s' := TakeEndReq(s, i, x);
            && s'.tokens == s.tokens && s'.targets == s.targets && s'.ic == s.ic && s'.now == s.now
            && (forall j :: j != i ==> Init(s', j) == Init(s, j))
            && (forall j :: var lane, lane' := Lane(Init(s, j).peq, y), Lane(Init(s', j).peq, y);
                            lane' != [] ==> lane != [] && lane'[|lane'| - 1] == lane[|lane| - 1])
  {
  }

  lemma TakeEndReqTimes(s: System, i: nat, x: Trans, y: Trans)
    requires TimesOk(s, Mon(s), y)
    ensures TimesOk(TakeEndReq(s, i, x), Mon(s), y)
  {
    hide Watch, Late, Early, TakeEndReq;
    TakeEndReqLanes(s, i, x, y);
  }

  lemma TakeEndReqStrict(s: System, i: nat, x: Trans, j: nat)
    requires Inv(s) && StrictOk(s, Mon(s), j) && EndReqDue(Lane(Init(s, i).peq, x))
    ensures StrictOk(TakeEndReq(s, i, x), Mon(s), j)
  {
    hide Watch, Inv;
    var s', m := TakeEndReq(s, i, x), Mon(s);
    assert Strict(s', j) == Strict(s, j);
    if Strict(s, j) {
      assert StrictLane(s, m, j, x);
      forall y ensures StrictLane(s', m, j, y) { assert StrictLane(s, m, j, y); }
    }
  }

  // ---------- Time, and the start ----------

  lemma InitialWatched(s: System)
    requires Initial(s)
    ensures Watched(s, Mon(s))
  {
  }
}
