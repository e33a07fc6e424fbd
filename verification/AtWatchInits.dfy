/** Moves that the checker of an initiator sees keep it in step with the stages. */
module AtWatchInits {
  import opened Tlm
  import opened ProtocolChecker
  import opened AtSystem
  import opened AtInvariant
  import opened AtFrame
  import opened AtKeeps
  import opened AtCallbacks
  import opened AtInitMoves
  import opened AtWatch
  import opened AtWatchMoves

  // Nothing is asked of initiator i but x, or it is as it was
  ghost predicate OnlyAsked(s: System, s': System, x: Trans, i: nat) {
    var n, n' := Init(s, i), Init(s', i);
    || n.reqInProgress == None || n.reqInProgress == Some(x)
    || (n'.reqInProgress == n.reqInProgress && (InitHop(i) in Mon(s').req ==> InitHop(i) in Mon(s).req))
  }

  lemma StrictOthers(s: System, s': System, x: Trans, t: nat, i: nat)
    requires Local(s, s', x, t, i) && SeesOnly(Mon(s), Mon(s'), x, t, i) && Beside(s, s', x, t, i)
    requires StrictOk(s, Mon(s), i) && Strict(s, i) && OnlyAsked(s, s', x, i)
    ensures forall y :: y != x ==> StrictLane(s', Mon(s'), i, y)
  {
    hide Watch;
    forall y | y != x ensures StrictLane(s', Mon(s'), i, y) {
      assert StrictLane(s, Mon(s), i, y) && SameTrans(s, s', y);
      if Tok(s, y).target != t { assert SameTarget(s, s', Tok(s, y).target); }
    }
  }

  // The flag of the checker still tells which request is asked
  ghost predicate FlagTells(s: System, i: nat) {
    InitHop(i) in Mon(s).req ==> Init(s, i).reqInProgress == Some(Mon(s).req[InitHop(i)])
  }

  // A move seen on the initiator's hop only
  lemma InitEventMoves(s: System, s': System, x: Trans, t: nat, i: nat)
    requires Good(s) && Local(s, s', x, t, i) && Seen1(s, s', InitHop(i), x, t, i)
    requires Strict(s, i) ==> OnlyAsked(s, s', x, i) && FlagTells(s', i) && StrictLane(s', Mon(s'), i, x)
    ensures Watched(s', Mon(s'))
  {
    hide Inv, PhasesOk, TimesOk, Flagged, Local, Watch, OnlyAsked, StrictLane;
    KnownFlags(s, i);
    LocalKinds(s, s', x, t, i);
    assert SeesOnly(Mon(s), Mon(s'), x, t, i);
    if Strict(s, i) { StrictOthers(s, s', x, t, i); }
    EventMoves(s, s', InitHop(i), x, t, i);
  }

  // What a move at the initiator's hop leaves
  lemma SeenAtInit(s: System, s': System, t: nat, i: nat, x: Trans)
    requires SeesAt(Mon(s), Mon(s'), InitHop(i), x) && PhasesOk(s, Mon(s), x) && Mine(s, x, t, i)
    requires s'.targets == s.targets && s'.ic.reqQueue == s.ic.reqQueue && s'.ic.rspQueue == s.ic.rspQueue
    requires forall y :: y != x ==> Lane(Init(s', i).peq, y) == Lane(Init(s, i).peq, y)
    ensures Beside(s, s', x, t, i)
    ensures Ph(Mon(s'), TargHop(t), x) == Ph(Mon(s), TargHop(t), x)
    ensures Time(Mon(s'), TargHop(t), x) == Time(Mon(s), TargHop(t), x)
    ensures StageOf(s, x) !in {Free, Held} ==> forall h :: h != InitHop(i) && h != TargHop(t) ==>
            !Between(Ph(Mon(s'), h, x))
  {
    hide Watch;
  }

  // What the checkers know of a response on its way
  lemma RspPhase(s: System, t: nat, i: nat, x: Trans)
    requires PhasesOk(s, Mon(s), x) && Tok(s, x) == Token(StageOf(s, x), i, t)
    ensures StageOf(s, x).RspReady? ==>
              (Ph(Mon(s), InitHop(i), x) == BeginReq || Ph(Mon(s), InitHop(i), x) == EndReq)
                  && PathOf(Mon(s), x).hops == [InitHop(i)]
    ensures StageOf(s, x).RspSent? ==> Ph(Mon(s), InitHop(i), x) == BeginResp && PathOf(Mon(s), x) == Path([], false)
  {
    hide Watch;
  }

  // Phases after a move at the initiator's hop that the target's checker does not see
  lemma PhasesMove(s: System, s': System, t: nat, i: nat, x: Trans)
    requires PhasesOk(s, Mon(s), x) && Tok(s, x) == Token(StageOf(s, x), i, t) && StageOf(s, x) in {RspReady, RspSent}
    requires Tok(s', x) == Token(StageOf(s', x), i, t) && StageOf(s', x) in {RspSent, Closing}
    requires s'.targets == s.targets
    requires SeesAt(Mon(s), Mon(s'), InitHop(i), x) && InitPhase(StageOf(s', x), Ph(Mon(s'), InitHop(i), x))
    requires PathOf(Mon(s'), x) == Path([], false)
    ensures PhasesOk(s', Mon(s'), x)
  {
    hide Watch;
  }

  // ---------- END_REQ ----------

  lemma PostsSeen(s: System, i: nat, x: Trans, phase: Phase, delay: nat)
    ensures var s' := InitPosts(s, i, x, phase, delay);
            && Mon(s') == Observe(Mon(s), Event(InitHop(i), x, Backward(phase), s.now + delay))
            && Init(s', i) == Init(s, i).(peq := Post(Init(s, i).peq, x, s.now + delay, phase))
            && s'.targets == s.targets && s'.ic == s.ic && s'.now == s.now && s'.minLatency == s.minLatency
            && Tok(s', x) == Tok(s, x)
  {
    hide Watch, Observe;
    ShowIs(s, InitHop(i), x, Backward(phase), delay);
  }

  lemma EndReqKnown(s: System, t: nat, i: nat, x: Trans, delay: nat)
    requires Tok(s, x) == Token(Executing, i, t) && PhasesOk(s, Mon(s), x) && TimesOk(s, Mon(s), x) && Flagged(Mon(s))
    requires Asked(s, i, x) && Early(Mon(s), i, x, s.now + delay) && RunsAfter(s, t, x, s.now + delay)
    ensures var s' := InitPosts(s, i, x, EndReq, delay);
            && Seen1(s, s', InitHop(i), x, t, i) && InitHop(i) !in Mon(s').req
            && (Strict(s, i) ==> StrictLane(s', Mon(s'), i, x))
  {
    hide InitPosts, Observe, Flagged, Watch, SeesAt, FlagsAt, PhasesOk, Ph, Time, PathOf, Beside;
    PhasesAre(s, Mon(s), x, Executing, i, t);
    PostsSeen(s, i, x, EndReq, delay);
    SeesEndReq(Mon(s), InitHop(i), x, s.now + delay);
    SeenAtInit(s, InitPosts(s, i, x, EndReq, delay), t, i, x);
    PhasesAre(InitPosts(s, i, x, EndReq, delay), Mon(InitPosts(s, i, x, EndReq, delay)), x, Executing, i, t);
  }

  lemma EndReqToInitGood(s: System, t: nat, i: nat, x: Trans, delay: nat)
    requires Good(s) && Tok(s, x) == Token(Executing, i, t)
    requires Asked(s, i, x) && Late(Mon(s), i, t, x, s.now + delay) && RunsAfter(s, t, x, s.now + delay)
    ensures Good(InitPosts(s, i, x, EndReq, delay)) && Local(s, InitPosts(s, i, x, EndReq, delay), x, t, i)
  {
    hide Inv, Watched, Local, InitPosts, PhasesOk, TimesOk, Flagged, StrictOk, Seen1, Watch, StrictLane, RunsAfter;
    KnownOf(s, x, i);
    KnownFlags(s, i);
    EndReqKnown(s, t, i, x, delay);
    EndReqToInitKeeps(s, t, i, x, delay);
    PostsSeen(s, i, x, EndReq, delay);
    InitEventMoves(s, InitPosts(s, i, x, EndReq, delay), x, t, i);
  }

  // ---------- BEGIN_RESP ----------

  // No response is with initiator i, so its checker's flag is clear
  lemma RspFreeAtInit(s: System, i: nat)
    requires Good(s) && (i in s.ic.rspSlot ==> i in s.ic.endRsp)
    ensures InitHop(i) !in Mon(s).rsp
  {
    var m := Mon(s);
    if InitHop(i) in m.rsp {
      FlagOfRsp(m, InitHop(i));
      BusyAtInit(s, i, m.rsp[InitHop(i)]);
    }
  }

  lemma BusyAtInit(s: System, i: nat, y: Trans)
    requires Good(s)
    ensures Ph(Mon(s), InitHop(i), y) == BeginResp ==> LiveRsp(s, i) == Some(y)
  {
    assert PhasesOk(s, Mon(s), y) && TransOk(s, y);
  }

  lemma DeliverToASeen(s: System, t: nat, i: nat, x: Trans, delay: nat)
    requires Tok(s, x) == Token(RspReady, i, t)
    ensures var s' := DeliverToA(s, i, x, delay);
            && Mon(s') == Observe(Mon(s), Event(InitHop(i), x, Backward(BeginResp), s.now + delay))
            && Tok(s', x) == Token(RspSent, i, t) && s'.minLatency == s.minLatency
            && Init(s', i) == Init(s, i).(peq := Post(Init(s, i).peq, x, s.now + delay, BeginResp))
            && s'.targets == s.targets && s'.ic.reqQueue == s.ic.reqQueue && s'.ic.rspQueue == s.ic.rspQueue
  {
    hide Watch, Observe;
    ShowIs(TakeRspSlot(s, i, x), InitHop(i), x, Backward(BeginResp), delay);
  }

  lemma DeliverToAPhases(s: System, t: nat, i: nat, x: Trans, delay: nat)
    requires Tok(s, x) == Token(RspReady, i, t) && PhasesOk(s, Mon(s), x) && Flagged(Mon(s))
    requires InitHop(i) !in Mon(s).rsp && Late(Mon(s), i, t, x, s.now + delay)
    requires Strict(s, i) ==> StrictLane(s, Mon(s), i, x) && FlagTells(s, i)
    requires Strict(s, i) && Init(s, i).kind.InitB? ==> !EndReqDue(Lane(Init(s, i).peq, x))
    ensures PhasesOk(DeliverToA(s, i, x, delay), Mon(DeliverToA(s, i, x, delay)), x)
  {
    hide PhasesOk, Beside, DeliverToA, Observe, Flagged, Watch, SeesAt, FlagsAt;
    RspPhase(s, t, i, x);
    DeliverToASeen(s, t, i, x, delay);
    SeesBeginResp(Mon(s), InitHop(i), x, s.now + delay);
    PhasesMove(s, DeliverToA(s, i, x, delay), t, i, x);
  }

  lemma DeliverToAKnown(s: System, t: nat, i: nat, x: Trans, delay: nat)
    requires Tok(s, x) == Token(RspReady, i, t) && PhasesOk(s, Mon(s), x) && Flagged(Mon(s))
    requires InitHop(i) !in Mon(s).rsp && Late(Mon(s), i, t, x, s.now + delay)
    requires Strict(s, i) ==> StrictLane(s, Mon(s), i, x) && FlagTells(s, i)
    requires Strict(s, i) && Init(s, i).kind.InitB? ==> !EndReqDue(Lane(Init(s, i).peq, x))
    ensures Seen1(s, DeliverToA(s, i, x, delay), InitHop(i), x, t, i)
  {
    hide Beside, PhasesOk, DeliverToA, Observe, Flagged, Watch, SeesAt, FlagsAt;
    RspPhase(s, t, i, x);
    DeliverToASeen(s, t, i, x, delay);
    SeesBeginResp(Mon(s), InitHop(i), x, s.now + delay);
    SeenAtInit(s, DeliverToA(s, i, x, delay), t, i, x);
    DeliverToAPhases(s, t, i, x, delay);
  }

  lemma DeliverToAStrict(s: System, t: nat, i: nat, x: Trans, delay: nat)
    requires Tok(s, x) == Token(RspReady, i, t) && PhasesOk(s, Mon(s), x) && Flagged(Mon(s))
    requires InitHop(i) !in Mon(s).rsp && Late(Mon(s), i, t, x, s.now + delay)
    requires Strict(s, i) ==> StrictLane(s, Mon(s), i, x) && FlagTells(s, i)
    requires Strict(s, i) && Init(s, i).kind.InitB? ==> !EndReqDue(Lane(Init(s, i).peq, x))
    ensures var s' := DeliverToA(s, i, x, delay);
            OnlyAsked(s, s', x, i) && (Strict(s, i) ==> StrictLane(s', Mon(s'), i, x) && FlagTells(s', i))
  {
    hide PhasesOk, DeliverToA, Observe, Flagged, Watch, SeesAt, FlagsAt;
    RspPhase(s, t, i, x);
    DeliverToASeen(s, t, i, x, delay);
    SeesBeginResp(Mon(s), InitHop(i), x, s.now + delay);
  }

  lemma DeliverToAGood(s: System, t: nat, i: nat, x: Trans, delay: nat)
    requires Good(s) && Tok(s, x) == Token(RspReady, i, t) && (i in s.ic.rspSlot ==> i in s.ic.endRsp)
    requires Late(Mon(s), i, t, x, s.now + delay)
    ensures Good(DeliverToA(s, i, x, delay)) && Local(s, DeliverToA(s, i, x, delay), x, t, i)
  {
    hide Inv, Watched, Local, DeliverToA, PhasesOk, TimesOk, Flagged, Seen1, Watch, StrictLane, Late, OnlyAsked,
        FlagTells;
    KnownOf(s, x, i);
    KnownFlags(s, i);
    FlagTellsNow(s, i);
    RspFreeAtInit(s, i);
    if Strict(s, i) && Init(s, i).kind.InitB? { NotExecutingB(s, x, i); }
    DeliverToAKnown(s, t, i, x, delay);
    DeliverToAStrict(s, t, i, x, delay);
    DeliverToAKeeps(s, t, i, x, delay);
    InitEventMoves(s, DeliverToA(s, i, x, delay), x, t, i);
  }

  lemma FlagTellsNow(s: System, i: nat)
    requires StrictOk(s, Mon(s), i)
    ensures Strict(s, i) ==> FlagTells(s, i)
  {
  }

  lemma DeliverToBSeen(s: System, t: nat, i: nat, x: Trans, delay: nat, rnd: nat)
    requires Tok(s, x) == Token(RspReady, i, t)
    ensures var s', n := DeliverToB(s, i, x, delay, rnd), Init(s, i);
            var m1 := Observe(Mon(s), Event(InitHop(i), x, Backward(BeginResp), s.now + delay));
            && Mon(s') == Observe(m1, Event(InitHop(i), x, BwCompleted, s.now + delay + rnd))
            && Tok(s', x) == Token(Closing, i, t) && s'.minLatency == s.minLatency
            && Init(s', i) == n.(reqInProgress := if n.reqInProgress == Some(x) then None else n.reqInProgress)
            && s'.targets == s.targets && s'.ic.reqQueue == s.ic.reqQueue && s'.ic.rspQueue == s.ic.rspQueue
  {
    hide Watch, Observe;
    var s1, n := TakeRspSlot(s, i, x), Init(s, i);
    ShowIs(s1, InitHop(i), x, Backward(BeginResp), delay);
    var s2 := Show(s1, InitHop(i), x, Backward(BeginResp), delay);
    var s3 := Move(Release(PutInit(s2, i, n.(reqInProgress :=
          if n.reqInProgress == Some(x) then None else n.reqInProgress)), x), x, Closing);
    ShowIs(s3, InitHop(i), x, BwCompleted, delay + rnd);
  }

  lemma DeliverToBPhases(s: System, t: nat, i: nat, x: Trans, delay: nat, rnd: nat)
    requires Tok(s, x) == Token(RspReady, i, t) && PhasesOk(s, Mon(s), x) && Flagged(Mon(s)) && Init(s, i).kind.InitB?
    requires InitHop(i) !in Mon(s).rsp && Late(Mon(s), i, t, x, s.now + delay)
    requires Strict(s, i) ==> FlagTells(s, i) && !EndReqDue(Lane(Init(s, i).peq, x))
    ensures PhasesOk(DeliverToB(s, i, x, delay, rnd), Mon(DeliverToB(s, i, x, delay, rnd)), x)
  {
    hide PhasesOk, Beside, DeliverToB, Observe, Flagged, Watch, SeesAt, FlagsAt, Ph, Time, PathOf;
    var s', m := DeliverToB(s, i, x, delay, rnd), Mon(s);
    var m1 := Observe(m, Event(InitHop(i), x, Backward(BeginResp), s.now + delay));
    RspPhase(s, t, i, x);
    DeliverToBSeen(s, t, i, x, delay, rnd);
    SeesBeginResp(m, InitHop(i), x, s.now + delay);
    SeesBwCompleted(m1, InitHop(i), x, s.now + delay + rnd);
    SeesTwice(m, m1, Mon(s'), InitHop(i), x);
    PhasesMove(s, DeliverToB(s, i, x, delay, rnd), t, i, x);
  }

  lemma DeliverToBKnown(s: System, t: nat, i: nat, x: Trans, delay: nat, rnd: nat)
    requires Tok(s, x) == Token(RspReady, i, t) && PhasesOk(s, Mon(s), x) && Flagged(Mon(s)) && Init(s, i).kind.InitB?
    requires InitHop(i) !in Mon(s).rsp && Late(Mon(s), i, t, x, s.now + delay)
    requires Strict(s, i) ==> FlagTells(s, i) && !EndReqDue(Lane(Init(s, i).peq, x))
    ensures var s' := DeliverToB(s, i, x, delay, rnd);
            Seen1(s, s', InitHop(i), x, t, i) && Late(Mon(s'), i, t, x, s.now + delay)
  {
    hide Beside, PhasesOk, DeliverToB, Observe, Flagged, Watch, SeesAt, FlagsAt, Ph, Time, PathOf;
    var s', m := DeliverToB(s, i, x, delay, rnd), Mon(s);
    var m1 := Observe(m, Event(InitHop(i), x, Backward(BeginResp), s.now + delay));
    RspPhase(s, t, i, x);
    DeliverToBSeen(s, t, i, x, delay, rnd);
    SeesBeginResp(m, InitHop(i), x, s.now + delay);
    SeesBwCompleted(m1, InitHop(i), x, s.now + delay + rnd);
    SeesTwice(m, m1, Mon(s'), InitHop(i), x);
    SeenAtInit(s, s', t, i, x);
    DeliverToBPhases(s, t, i, x, delay, rnd);
  }

  lemma DeliverToBStrict(s: System, t: nat, i: nat, x: Trans, delay: nat, rnd: nat)
    requires Tok(s, x) == Token(RspReady, i, t) && PhasesOk(s, Mon(s), x) && Flagged(Mon(s)) && Init(s, i).kind.InitB?
    requires InitHop(i) !in Mon(s).rsp && Late(Mon(s), i, t, x, s.now + delay)
    requires Strict(s, i) ==> FlagTells(s, i) && !EndReqDue(Lane(Init(s, i).peq, x))
    ensures var s' := DeliverToB(s, i, x, delay, rnd);
            OnlyAsked(s, s', x, i) && (Strict(s, i) ==> StrictLane(s', Mon(s'), i, x) && FlagTells(s', i))
  {
    hide PhasesOk, DeliverToB, Observe, Flagged, Watch, SeesAt, FlagsAt, Ph, Time, PathOf, Beside;
    var s', m := DeliverToB(s, i, x, delay, rnd), Mon(s);
    var m1 := Observe(m, Event(InitHop(i), x, Backward(BeginResp), s.now + delay));
    RspPhase(s, t, i, x);
    DeliverToBSeen(s, t, i, x, delay, rnd);
    SeesBeginResp(m, InitHop(i), x, s.now + delay);
    SeesBwCompleted(m1, InitHop(i), x, s.now + delay + rnd);
  }

  lemma DeliverToBGood(s: System, t: nat, i: nat, x: Trans, delay: nat, rnd: nat)
    requires Good(s) && Tok(s, x) == Token(RspReady, i, t) && (i in s.ic.rspSlot ==> i in s.ic.endRsp)
    requires Late(Mon(s), i, t, x, s.now + delay) && Init(s, i).kind.InitB?
    ensures var s' := DeliverToB(s, i, x, delay, rnd);
            Good(s') && Local(s, s', x, t, i) && Late(Mon(s'), i, t, x, s.now + delay)
  {
    hide Inv, Watched, Local, DeliverToB, PhasesOk, TimesOk, Flagged, Seen1, Watch, StrictLane, Late, OnlyAsked,
        FlagTells;
    KnownOf(s, x, i);
    KnownFlags(s, i);
    FlagTellsNow(s, i);
    RspFreeAtInit(s, i);
    if Strict(s, i) { NotExecutingB(s, x, i); }
    DeliverToBKnown(s, t, i, x, delay, rnd);
    DeliverToBStrict(s, t, i, x, delay, rnd);
    DeliverToBKeeps(s, t, i, x, delay, rnd);
    InitEventMoves(s, DeliverToB(s, i, x, delay, rnd), x, t, i);
  }

  // ---------- TLM_COMPLETED from a target of type E ----------

  lemma CompletedSeen(s: System, t: nat, i: nat, x: Trans, r: Reply)
    requires Tok(s, x) == Token(RspReady, i, t)
    ensures var s' := ReturnCompleted(s, i, x, r);
            && Mon(s') == Observe(Mon(s), Event(InitHop(i), x, FwCompleted(true), s.now + r.delay))
            && Tok(s', x) == Token(Free, i, t) && s'.minLatency == s.minLatency
            && Init(s', i) == Init(s, i).(reqInProgress := None)
            && s'.targets == s.targets && s'.ic.reqQueue == s.ic.reqQueue && s'.ic.rspQueue == s.ic.rspQueue
  {
    hide Watch, Observe;
    ShowIs(s.(delivered := List(s.delivered, i, x)), InitHop(i), x, FwCompleted(true), r.delay);
  }

  lemma CompletedKnown(s: System, t: nat, i: nat, x: Trans, r: Reply)
    requires Tok(s, x) == Token(RspReady, i, t) && PhasesOk(s, Mon(s), x) && Flagged(Mon(s)) && Targ(s, t).kind.TypeE?
    requires Asked(s, i, x)
    ensures var s' := ReturnCompleted(s, i, x, r);
            && Seen1(s, s', InitHop(i), x, t, i) && (Strict(s, i) ==> OnlyAsked(s, s', x, i))
            && (Strict(s, i) ==> StrictLane(s', Mon(s'), i, x) && FlagTells(s', i))
  {
    hide ReturnCompleted, Observe, Flagged, Watch, SeesAt, FlagsAt;
    CompletedSeen(s, t, i, x, r);
    SeesFwCompleted(Mon(s), InitHop(i), x, s.now + r.delay);
    SeenAtInit(s, ReturnCompleted(s, i, x, r), t, i, x);
  }

  lemma ReturnCompletedGood(s: System, t: nat, i: nat, x: Trans, r: Reply)
    requires Good(s) && Tok(s, x) == Token(RspReady, i, t) && Targ(s, t).kind.TypeE? && Asked(s, i, x)
    ensures Good(ReturnCompleted(s, i, x, r)) && Local(s, ReturnCompleted(s, i, x, r), x, t, i)
  {
    hide Inv, Watched, Local, ReturnCompleted, PhasesOk, TimesOk, Flagged, Seen1, Watch, StrictLane, OnlyAsked,
        FlagTells, Asked;
    KnownOf(s, x, i);
    KnownFlags(s, i);
    CompletedKnown(s, t, i, x, r);
    ReturnCompletedKeeps(s, t, i, x, r);
    InitEventMoves(s, ReturnCompleted(s, i, x, r), x, t, i);
  }

  // ---------- END_RESP from an initiator ----------

  lemma CloseRespSeen(s: System, t: nat, i: nat, x: Trans, rnd: nat)
    requires Tok(s, x) == Token(RspSent, i, t)
    ensures var s', n := CloseResp(s, i, x, rnd), Init(s, i);
            && Mon(s') == Observe(Mon(s), Event(InitHop(i), x, Forward(EndResp), s.now + rnd))
            && Tok(s', x) == Token(Closing, i, t) && s'.minLatency == s.minLatency
            && Init(s', i) == n.(peq := Take(n.peq, x), reqInProgress :=
                     if n.reqInProgress == Some(x) then None else n.reqInProgress)
            && s'.targets == s.targets && s'.ic.reqQueue == s.ic.reqQueue && s'.ic.rspQueue == s.ic.rspQueue
  {
    hide Watch, Observe;
    ShowIs(TakeBeginResp(s, i, x), InitHop(i), x, Forward(EndResp), rnd);
  }

  lemma CloseRespPhases(s: System, t: nat, i: nat, x: Trans, rnd: nat)
    requires Tok(s, x) == Token(RspSent, i, t) && PhasesOk(s, Mon(s), x) && TimesOk(s, Mon(s), x) && Flagged(Mon(s))
    requires var lane := Lane(Init(s, i).peq, x); |lane| == 1 && lane[0].time <= s.now
    requires Strict(s, i) ==> FlagTells(s, i)
    ensures PhasesOk(CloseResp(s, i, x, rnd), Mon(CloseResp(s, i, x, rnd)), x)
  {
    hide PhasesOk, Beside, CloseResp, Observe, Watch, SeesAt, FlagsAt;
    var s' := CloseResp(s, i, x, rnd);
    RspPhase(s, t, i, x);
    CloseRespSeen(s, t, i, x, rnd);
    SeesEndResp(Mon(s), InitHop(i), x, s.now + rnd);
    PhasesMove(s, CloseResp(s, i, x, rnd), t, i, x);
  }

  lemma CloseRespKnown(s: System, t: nat, i: nat, x: Trans, rnd: nat)
    requires Tok(s, x) == Token(RspSent, i, t) && PhasesOk(s, Mon(s), x) && TimesOk(s, Mon(s), x) && Flagged(Mon(s))
    requires var lane := Lane(Init(s, i).peq, x); |lane| == 1 && lane[0].time <= s.now
    requires Strict(s, i) ==> FlagTells(s, i)
    ensures var s' := CloseResp(s, i, x, rnd);
            Seen1(s, s', InitHop(i), x, t, i) && Late(Mon(s'), i, t, x, s.now + rnd)
  {
    hide Beside, PhasesOk, CloseResp, Observe, Watch, SeesAt, FlagsAt;
    var s' := CloseResp(s, i, x, rnd);
    RspPhase(s, t, i, x);
    CloseRespSeen(s, t, i, x, rnd);
    SeesEndResp(Mon(s), InitHop(i), x, s.now + rnd);
    SeenAtInit(s, s', t, i, x);
    CloseRespPhases(s, t, i, x, rnd);
  }

  lemma CloseRespStrict(s: System, t: nat, i: nat, x: Trans, rnd: nat)
    requires Tok(s, x) == Token(RspSent, i, t) && PhasesOk(s, Mon(s), x) && TimesOk(s, Mon(s), x) && Flagged(Mon(s))
    requires var lane := Lane(Init(s, i).peq, x); |lane| == 1 && lane[0].time <= s.now
    requires Strict(s, i) ==> FlagTells(s, i)
    ensures var s' := CloseResp(s, i, x, rnd);
            OnlyAsked(s, s', x, i) && (Strict(s, i) ==> StrictLane(s', Mon(s'), i, x) && FlagTells(s', i))
  {
    hide PhasesOk, CloseResp, Observe, Flagged, Watch, SeesAt, FlagsAt;
    RspPhase(s, t, i, x);
    CloseRespSeen(s, t, i, x, rnd);
    SeesEndResp(Mon(s), InitHop(i), x, s.now + rnd);
  }

  lemma CloseRespGood(s: System, i: nat, x: Trans, t: nat, rnd: nat)
    requires Good(s) && Tok(s, x) == Token(RspSent, i, t)
    requires var lane := Lane(Init(s, i).peq, x); |lane| == 1 && lane[0].time <= s.now
    ensures var s' := CloseResp(s, i, x, rnd);
            && Good(s') && Local(s, s', x, t, i) && Spare(s', x) > 0 && Late(Mon(s'), i, t, x, s.now + rnd)
            && Tok(s', x) == Token(Closing, i, t) && Targ(s', t) == Targ(s, t) && s'.now == s.now
  {
    hide Inv, Watched, Local, CloseResp, PhasesOk, TimesOk, Flagged, Seen1, Watch, StrictLane, Late, OnlyAsked,
        FlagTells, Spare;
    KnownOf(s, x, i);
    KnownFlags(s, i);
    FlagTellsNow(s, i);
    CloseRespKnown(s, t, i, x, rnd);
    CloseRespStrict(s, t, i, x, rnd);
    CloseRespSeen(s, t, i, x, rnd);
    CloseRespKeeps(s, i, x, t, rnd);
    LocalNow(s, CloseResp(s, i, x, rnd), x, t, i);
    InitEventMoves(s, CloseResp(s, i, x, rnd), x, t, i);
  }

  lemma LocalNow(s: System, s': System, x: Trans, t: nat, i: nat)
    requires Local(s, s', x, t, i)
    ensures s'.now == s.now && s'.minLatency == s.minLatency
  {
  }

  // TLM_COMPLETED to an initiator whose transaction is over
  lemma ShowDoneGood(s: System, i: nat, x: Trans, delay: nat)
    requires Good(s) && StageOf(s, x).Free? && Tok(s, x).init == i
    ensures var s' := Show(s, InitHop(i), x, FwCompleted(false), delay);
            Good(s') && Local(s, s', x, Tok(s, x).target, i)
  {
    hide Inv, Watched, Local, Show, PhasesOk, TimesOk, Flagged, Seen1, Watch, StrictLane, OnlyAsked, FlagTells;
    var s', t := Show(s, InitHop(i), x, FwCompleted(false), delay), Tok(s, x).target;
    KnownOf(s, x, i);
    KnownFlags(s, i);
    FlagTellsNow(s, i);
    ShowDoneKnown(s, t, i, x, delay);
    ShowDoneStrict(s, t, i, x, delay);
    ShowDoneInv(s, i, x, delay);
    InitEventMoves(s, s', x, t, i);
  }

  lemma ShowDoneKnown(s: System, t: nat, i: nat, x: Trans, delay: nat)
    requires Tok(s, x) == Token(Free, i, t) && PhasesOk(s, Mon(s), x) && Flagged(Mon(s))
    requires Strict(s, i) ==> StrictLane(s, Mon(s), i, x) && FlagTells(s, i)
    ensures Seen1(s, Show(s, InitHop(i), x, FwCompleted(false), delay), InitHop(i), x, t, i)
  {
    hide Observe, Flagged, Watch, FlagsAt, PhasesOk, Ph, Time, PathOf, Mine;
    PhasesAre(s, Mon(s), x, Free, i, t);
    ShowIs(s, InitHop(i), x, FwCompleted(false), delay);
    SeesFwCompletedEnd(Mon(s), InitHop(i), x, s.now + delay);
    PhasesAre(Show(s, InitHop(i), x, FwCompleted(false), delay), Mon(Show(s, InitHop(i), x, FwCompleted(false), delay)),
        x, Free, i, t);
  }

  lemma ShowDoneStrict(s: System, t: nat, i: nat, x: Trans, delay: nat)
    requires Tok(s, x) == Token(Free, i, t) && PhasesOk(s, Mon(s), x) && Flagged(Mon(s))
    requires Strict(s, i) ==> StrictLane(s, Mon(s), i, x) && FlagTells(s, i)
    ensures var s' := Show(s, InitHop(i), x, FwCompleted(false), delay);
            OnlyAsked(s, s', x, i) && (Strict(s, i) ==> StrictLane(s', Mon(s'), i, x) && FlagTells(s', i))
  {
    hide Observe, Flagged, Watch, FlagsAt;
    ShowIs(s, InitHop(i), x, FwCompleted(false), delay);
    SeesFwCompletedEnd(Mon(s), InitHop(i), x, s.now + delay);
  }

  lemma ShowDoneInv(s: System, i: nat, x: Trans, delay: nat)
    requires Inv(s) && StageOf(s, x).Free? && Tok(s, x).init == i
    ensures var s', t := Show(s, InitHop(i), x, FwCompleted(false), delay), Tok(s, x).target;
            Inv(s') && Local(s, s', x, t, i)
  {
    hide Inv, Local;
    var s', t := Show(s, InitHop(i), x, FwCompleted(false), delay), Tok(s, x).target;
    SpareOk(s, x);
    ShowLocal(s, t, i, x, InitHop(i), FwCompleted(false), delay);
    Unfailed(s);
    StandsStill(s, s', x, t, i);
  }

  // ---------- The thread ----------

  lemma AllocateGood(s: System, i: nat, x: Trans)
    requires Good(s) && i in s.inits && Init(s, i).held == None && Refs(s, x) == 0 && !Passing(StageOf(s, x))
    ensures Good(Allocate(s, i, x)) && Local(s, Allocate(s, i, x), x, 0, i)
    ensures StageOf(Allocate(s, i, x), x) == Held && (forall u :: Targ(Allocate(s, i, x), u) == Targ(s, u))
  {
    hide Inv, Watched, Local, TimesOk, Flagged, StrictOk, Watch, AllExcused;
    var s', m := Allocate(s, i, x), Mon(s);
    KnownOf(s, x, i);
    KnownFlags(s, i);
    AllocateKeeps(s, i, x);
    AllocateLocal(s, i, x);
    AllocateKnown(s, i, x);
    AllocateStrict(s, i, x);
    SeesNothing(m, x, 0, i);
    KnownExcused(s);
    ExcusedStay(s, s', m, x, 0, i);
    WatchMoves(s, s', m, m, x, 0, i);
  }

  lemma KnownExcused(s: System)
    requires Good(s)
    ensures AllExcused(s, Mon(s))
  {
  }

  lemma AllocateKnown(s: System, i: nat, x: Trans)
    requires StageOf(s, x).Free? && PhasesOk(s, Mon(s), x) && StrictOk(s, Mon(s), i)
    ensures var s' := Allocate(s, i, x);
            PhasesOk(s', Mon(s), x) && TimesOk(s', Mon(s), x) && Beside(s, s', x, 0, i)
  {
    hide Watch, PhasesOk, Ph, Time, PathOf;
    PhasesAre(s, Mon(s), x, Free, Tok(s, x).init, Tok(s, x).target);
    assert KindOf(Allocate(s, i, x), x) == Targ(s, 0).kind;
    PhasesAre(Allocate(s, i, x), Mon(s), x, Held, i, 0);
  }

  lemma AllocateStrict(s: System, i: nat, x: Trans)
    requires StageOf(s, x).Free? && PhasesOk(s, Mon(s), x) && StrictOk(s, Mon(s), i)
    ensures StrictOk(Allocate(s, i, x), Mon(s), i)
  {
    hide Watch;
    var s', m := Allocate(s, i, x), Mon(s);
    if Strict(s, i) {
      forall y ensures StrictLane(s', m, i, y) { assert StrictLane(s, m, i, y); }
    }
  }

  lemma SendReqSeen(s: System, i: nat, t: nat, x: Trans, delay: nat)
    ensures var s' := SendReq(s, i, t, x, delay);
            && Mon(s') == Observe(Mon(s), Event(InitHop(i), x, Forward(BeginReq), s.now + delay))
            && Tok(s', x) == Token(ReqReady, i, t) && s'.minLatency == s.minLatency
            && Init(s', i) == Init(s, i).(held := None, reqInProgress := Some(x))
            && s'.targets == s.targets && s'.ic.reqQueue == s.ic.reqQueue && s'.ic.rspQueue == s.ic.rspQueue
            && (forall y :: y != x ==> Tok(s', y) == Tok(s, y))
  {
    hide Watch, Observe;
    ShowIs(PutInit(s, i, Init(s, i).(held := None, reqInProgress := Some(x))), InitHop(i), x, Forward(BeginReq), delay);
  }

  // A strict initiator asks only when its checker's flag is clear
  lemma SendReqKnown(s: System, i: nat, t: nat, x: Trans, delay: nat)
    requires FromInit(s, i, x, Held) && PhasesOk(s, Mon(s), x) && Flagged(Mon(s)) && AllExcused(s, Mon(s))
    requires Init(s, i).reqInProgress == None && StrictOk(s, Mon(s), i) && i in s.inits
    ensures var s', m' := SendReq(s, i, t, x, delay), Mon(SendReq(s, i, t, x, delay));
            && SeesOnly(Mon(s), m', x, t, i) && Beside(s, s', x, t, i) && Flagged(m')
            && Time(m', InitHop(i), x) == s.now + delay
  {
    hide SendReq, Observe, Flagged, Watch, StrictOk, AllExcused, PhasesOk, Ph, Time, PathOf, Mine;
    PhasesAre(s, Mon(s), x, Held, i, Tok(s, x).target);
    SendReqSeen(s, i, t, x, delay);
    SeesBeginReq(Mon(s), InitHop(i), x, s.now + delay);
  }

  lemma SendReqReports(s: System, i: nat, t: nat, x: Trans, delay: nat)
    requires FromInit(s, i, x, Held) && PhasesOk(s, Mon(s), x) && Flagged(Mon(s)) && AllExcused(s, Mon(s))
    requires Init(s, i).reqInProgress == None && StrictOk(s, Mon(s), i) && i in s.inits
    ensures var s', m' := SendReq(s, i, t, x, delay), Mon(SendReq(s, i, t, x, delay)); AllExcused(s', m')
  {
    hide SendReq, Observe, Flagged, Watch;
    var s', m' := SendReq(s, i, t, x, delay), Mon(SendReq(s, i, t, x, delay));
    SendReqSeen(s, i, t, x, delay);
    SeesBeginReq(Mon(s), InitHop(i), x, s.now + delay);
    assert Strict(s, i) ==> StrictLane(s, Mon(s), i, x);
    SendReqExcused(s, i, t, x, delay);
    assert [] + [InitHop(i)] == [InitHop(i)];
  }

  lemma SendReqStage(s: System, i: nat, t: nat, x: Trans, delay: nat)
    requires FromInit(s, i, x, Held) && PhasesOk(s, Mon(s), x) && Flagged(Mon(s)) && AllExcused(s, Mon(s))
    requires Init(s, i).reqInProgress == None && StrictOk(s, Mon(s), i) && i in s.inits
    ensures var s', m' := SendReq(s, i, t, x, delay), Mon(SendReq(s, i, t, x, delay));
            PhasesOk(s', m', x) && TimesOk(s', m', x)
  {
    hide SendReq, Observe, Flagged, Watch, StrictOk, AllExcused, FlagsAt;
    SendReqSeen(s, i, t, x, delay);
    SeesBeginReq(Mon(s), InitHop(i), x, s.now + delay);
    assert [] + [InitHop(i)] == [InitHop(i)];
  }

  lemma SendReqLane(s: System, i: nat, t: nat, x: Trans, delay: nat)
    requires FromInit(s, i, x, Held) && PhasesOk(s, Mon(s), x) && Flagged(Mon(s)) && AllExcused(s, Mon(s))
    requires Init(s, i).reqInProgress == None && StrictOk(s, Mon(s), i) && i in s.inits
    ensures var s', m' := SendReq(s, i, t, x, delay), Mon(SendReq(s, i, t, x, delay));
            Strict(s, i) ==> FlagTells(s', i) && StrictLane(s', m', i, x)
  {
    hide AllExcused, FlagsAt, TimesOk, SendReq, Observe, Flagged, Watch;
    var s', m' := SendReq(s, i, t, x, delay), Mon(SendReq(s, i, t, x, delay));
    SendReqSeen(s, i, t, x, delay);
    SeesBeginReq(Mon(s), InitHop(i), x, s.now + delay);
    assert Strict(s, i) ==> StrictLane(s, Mon(s), i, x);
  }

  lemma SendReqExcused(s: System, i: nat, t: nat, x: Trans, delay: nat)
    requires AllExcused(s, Mon(s)) && Init(s, i).reqInProgress == None && StrictOk(s, Mon(s), i) && i in s.inits
    requires Mon(SendReq(s, i, t, x, delay)).errors
             == Mon(s).errors + if InitHop(i) in Mon(s).req then [Violation(RequestExclusion, InitHop(i), x)] else []
    ensures AllExcused(SendReq(s, i, t, x, delay), Mon(SendReq(s, i, t, x, delay)))
  {
    hide Watch;
    var s', m' := SendReq(s, i, t, x, delay), Mon(SendReq(s, i, t, x, delay));
    assert forall j :: Init(s', j).kind == Init(s, j).kind;
    forall v | v in m'.errors ensures Excused(s', v) {
      if v in Mon(s).errors { assert Excused(s, v); }
    }
  }

  lemma SendReqGood(s: System, i: nat, t: nat, x: Trans, delay: nat)
    requires Good(s) && i in s.inits && t in s.targets && Init(s, i).held == Some(x) && Init(s, i).reqInProgress == None
    ensures var s' := SendReq(s, i, t, x, delay);
            && Good(s') && Local(s, s', x, t, i) && Early(Mon(s'), i, x, s'.now + delay)
            && Tok(s', x) == Token(ReqReady, i, t) && Targ(s', t) == Targ(s, t) && s'.minLatency == s.minLatency
            && s'.ic.reqSlot == s.ic.reqSlot && s'.ic.endReq == s.ic.endReq
  {
    hide Inv, Watched, Local, PhasesOk, TimesOk, Flagged, Watch, AllExcused, StrictLane, FlagTells, SeesOnly, Beside;
    var s' := SendReq(s, i, t, x, delay);
    HeldIs(s, i, x);
    KnownOf(s, x, i);
    KnownFlags(s, i);
    KnownExcused(s);
    SendReqKeeps(s, i, t, x, delay);
    SendReqKnown(s, i, t, x, delay);
    SendReqReports(s, i, t, x, delay);
    SendReqStage(s, i, t, x, delay);
    SendReqLane(s, i, t, x, delay);
    SendReqStrict(s, i, t, x, delay);
    WatchMoves(s, s', Mon(s), Mon(s'), x, t, i);
  }

  lemma HeldIs(s: System, i: nat, x: Trans)
    requires Inv(s) && Init(s, i).held == Some(x)
    ensures FromInit(s, i, x, Held)
  {
    assert InitOk(s, i);
  }

  lemma SendReqStrict(s: System, i: nat, t: nat, x: Trans, delay: nat)
    requires var s' := SendReq(s, i, t, x, delay);
             && Local(s, s', x, t, i) && SeesOnly(Mon(s), Mon(s'), x, t, i) && Beside(s, s', x, t, i)
             && (Strict(s, i) ==> FlagTells(s', i) && StrictLane(s', Mon(s'), i, x))
    requires StrictOk(s, Mon(s), i) && Init(s, i).reqInProgress == None
    ensures var s' := SendReq(s, i, t, x, delay); StrictOk(s', Mon(s'), i)
  {
    hide Local, SeesOnly, Beside, Watch, StrictLane;
    var s' := SendReq(s, i, t, x, delay);
    LocalKinds(s, s', x, t, i);
    if Strict(s, i) { StrictOthers(s, s', x, t, i); }
  }
}
