/** Exactly when each phase takes effect: the annotated delays, the latencies and the delay of the interconnect. */
module AtDelays {
  import opened Tlm
  import opened AtSystem
  import opened AtInvariant
  import opened AtFrame
  import opened AtKeeps
  import opened AtCallbacks
  import opened AtInitMoves
  import opened AtSteps
  import opened AtTheorems
  import opened AtWatchMoves

  // ---------- Requests ----------

  // Target g has got BEGIN_REQ of x at the given time, and has become g'
  predicate RequestedAt(g: Target, g': Target, x: Trans, time: nat, acc: nat, lat: nat) {
    match g.kind
    case TypeB =>
      Lane(g'.peq, x) == [if g.nTrans < 2 then Timed(time + acc + lat, Internal) else Timed(time, BeginReq)]
    case TypeD => g.responding ==> g'.nextRsp == Some(x) && g'.nextTime == time + lat
    case TypeE => true
    case _ => Lane(g'.peq, x) == [Timed(time, BeginReq)]
  }

  // What the target answers at once, and when
  function AnswerAt(g: Target, time: nat, acc: nat, lat: nat): Option<Timed> {
    if g.kind.TypeB? && g.nTrans < 2 then Some(Timed(time + acc, EndReq))
    else if RespondsAtOnce(g) then Some(Timed(time + lat, BeginResp))
    else None
  }

  // The answer for x goes to the event queue of its initiator, or waits with its time
  predicate AnsweredAt(s: System, s': System, i: nat, x: Trans, answer: Option<Timed>) {
    match answer
    case None => Lane(Init(s', i).peq, x) == Lane(Init(s, i).peq, x)
    case Some(e) =>
      if e.phase == BeginResp && i in s.ic.rspSlot
      then Queue(s'.ic.rspQueue, i) == Queue(s.ic.rspQueue, i) + [Queued(x, e.time)]
      else Lane(Init(s', i).peq, x) == Lane(Init(s, i).peq, x) + [e]
  }

  // The reply r to a request says what the answer is
  predicate Says(g: Target, now: nat, r: Reply, answer: Option<Timed>) {
    match answer
    case None => r.status == Accepted
    case Some(e) =>
      && r.status == (if g.kind.TypeE? then Completed else Updated) && now + r.delay == e.time
      && (if r.status == Updated then r.phase == e.phase && e.phase in {EndReq, BeginResp} else e.phase == BeginResp)
  }

  lemma ReplySays(s: System, t: nat, x: Trans, delay: nat, acc: nat, lat: nat)
    ensures Says(Targ(s, t), s.now, ForwardReq(s, t, x, delay, acc, lat).r,
                 AnswerAt(Targ(s, t), s.now + delay, acc, lat))
  {
    var s1 := OpenReq(s, t, x, delay);
    assert Targ(s1, t) == Targ(s, t) && s1.now == s.now;
    assert ForwardReq(s, t, x, delay, acc, lat).r == TargetBeginReq(s1, t, x, delay, acc, lat).r;
  }

  // What a request that is forwarded leaves alone
  predicate Sideways(s: System, s': System) {
    s'.inits == s.inits && s'.now == s.now && s'.ic.rspSlot == s.ic.rspSlot && s'.ic.rspQueue == s.ic.rspQueue
  }

  lemma ForwardTimes(s: System, t: nat, i: nat, x: Trans, delay: nat, acc: nat, lat: nat)
    requires Inv(s) && MayForward(s, t, i, x)
    ensures var s' := ForwardReq(s, t, x, delay, acc, lat).s;
            RequestedAt(Targ(s, t), Targ(s', t), x, s.now + delay, acc, lat) && Sideways(s, s')
  {
    hide Inv, ForwardReq, TransOk, TargOk, TargetPostReq;
    NothingOpen(s, t, i, x);
    ReqReadyIs(s, t, i, x);
    match Targ(s, t).kind {
      case TypeD =>
        if Targ(s, t).responding { DefersIs(s, t, i, x, delay, acc, lat); }
        else { RespondsIs(s, t, i, x, delay, acc, lat); }
      case TypeE => CompletesIs(s, t, i, x, delay, acc, lat);
      case TypeB =>
        if Targ(s, t).nTrans < 2 { AcceptsIs(s, t, i, x, delay, acc, lat); }
        else { PostsIs(s, t, i, x, delay); RepliedPosted(s, t, x, delay, acc, lat); }
      case _ => PostsIs(s, t, i, x, delay); RepliedPosted(s, t, x, delay, acc, lat);
    }
  }

  lemma PostsAnswer(s: System, i: nat, x: Trans, r: Reply)
    ensures Lane(Init(ReturnUpdated(s, i, x, r), i).peq, x)
            == Lane(Init(s, i).peq, x) + [Timed(s.now + r.delay, r.phase)]
  {
  }

  lemma PostsResp(s: System, i: nat, x: Trans, r: Reply)
    ensures Lane(Init(ReturnResp(s, i, x, r), i).peq, x) == Lane(Init(s, i).peq, x) + [Timed(s.now + r.delay, r.phase)]
  {
    hide ReturnUpdated;
    PostsAnswer(TakeRspSlot(s, i, x), i, x, r);
  }

  lemma QueuesAnswer(s: System, i: nat, x: Trans, delay: nat)
    ensures Queue(QueueRsp(s, i, x, delay).ic.rspQueue, i)
            == Queue(s.ic.rspQueue, i) + [Queued(x, s.now + delay)]
  {
  }

  lemma ReturnTimes(s: System, i: nat, x: Trans, g: Target, r: Reply, answer: Option<Timed>)
    requires Says(g, s.now, r, answer) && (g.kind.TypeE? && answer.Some? ==> i in s.ic.rspSlot)
    ensures AnsweredAt(s, ReturnToInit(s, i, x, r), i, x, answer)
  {
    hide ReturnResp, ReturnUpdated, QueueRsp;
    if answer.Some? {
      if answer.value.phase == EndReq {
        PostsAnswer(s, i, x, r);
      } else if i in s.ic.rspSlot {
        QueuesAnswer(Ready(s, i, x), i, x, r.delay);
      } else {
        PostsResp(Ready(s, i, x), i, x, r);
      }
    }
  }

  lemma ReturnTarget(s: System, i: nat, x: Trans, r: Reply)
    ensures ReturnToInit(s, i, x, r).targets == s.targets
  {
    hide ReturnUpdated, Ready, QueueRsp, ReturnResp, ReturnCompleted;
    SameTargets(s, i, x, r);
    SameTargets(Ready(s, i, x), i, x, r);
  }

  lemma SameTargets(s: System, i: nat, x: Trans, r: Reply)
    ensures ReturnUpdated(s, i, x, r).targets == s.targets && Ready(s, i, x).targets == s.targets
    ensures QueueRsp(s, i, x, r.delay).targets == s.targets
    ensures ReturnResp(s, i, x, r).targets == s.targets
    ensures ReturnCompleted(s, i, x, r).targets == s.targets
  {
    hide List, Post;
  }

  // A thread sends BEGIN_REQ: the request waits with its time, or reaches the target at that time
  lemma IssueTimes(s0: System, actions: seq<Action>, s: System, i: nat, t: nat, delay: nat, acc: nat, lat: nat)
    requires Reaches(s0, actions, s) && Enabled(s, Issues(i, t, delay, acc, lat))
    ensures var s', x, g := Apply(s, Issues(i, t, delay, acc, lat)), Init(s, i).held.value, Targ(s, t);
            if t in s.ic.reqSlot
            then Queue(s'.ic.reqQueue, t) == Queue(s.ic.reqQueue, t) + [Queued(x, s.now + delay)]
            else
              && RequestedAt(g, Targ(s', t), x, s.now + delay, acc, lat)
              && (g.kind.TypeE? && i !in s.ic.rspSlot ==> StageOf(s', x) == Free)
              && (!(g.kind.TypeE? && i !in s.ic.rspSlot) ==>
                    AnsweredAt(s, s', i, x, AnswerAt(g, s.now + delay, acc, lat)))
  {
    hide Inv, Quiet, Good, SendReq, QueueReq, ForwardReq, ReturnToInit, RequestedAt, AnswerAt, Says, AnsweredAt;
    var x := Init(s, i).held.value;
    var s1 := SendReq(s, i, t, x, delay);
    ReachedIsSound(s0, actions, s);
    Sends(s, i, t, x, delay);
    if t in s.ic.reqSlot {
      QueueReqIs(s1, t, i, x, delay);
    } else {
      var o := ForwardReq(s1, t, x, delay, acc, lat);
      ForwardTimes(s1, t, i, x, delay, acc, lat);
      ReplySays(s1, t, x, delay, acc, lat);
      ReturnTarget(o.s, i, x, o.r);
      Answers(s, s1, o, i, x, Targ(s, t), AnswerAt(Targ(s, t), s.now + delay, acc, lat));
      var s' := ReturnToInit(o.s, i, x, o.r);
      assert Apply(s, Issues(i, t, delay, acc, lat)) == s';
      assert Targ(s', t) == Targ(o.s, t);
      assert RequestedAt(Targ(s, t), Targ(s', t), x, s.now + delay, acc, lat);
      AnswerTells(Targ(s, t), s.now + delay, acc, lat);
    }
  }

  lemma AnswerTells(g: Target, time: nat, acc: nat, lat: nat)
    ensures g.kind.TypeE? ==> AnswerAt(g, time, acc, lat) == Some(Timed(time + lat, BeginResp))
  {
  }

  lemma Answers(s: System, s1: System, o: Outcome, i: nat, x: Trans, g: Target, answer: Option<Timed>)
    requires Init(s1, i).peq == Init(s, i).peq && s1.ic.rspSlot == s.ic.rspSlot && s1.ic.rspQueue == s.ic.rspQueue
    requires Sideways(s1, o.s) && Says(g, s1.now, o.r, answer)
    ensures var s' := ReturnToInit(o.s, i, x, o.r);
            if g.kind.TypeE? && answer.Some? && i !in s.ic.rspSlot then StageOf(s', x) == Free
            else AnsweredAt(s, s', i, x, answer)
  {
    hide ReturnToInit;
    if g.kind.TypeE? && answer.Some? && i !in s.ic.rspSlot {
      CompletedIs(o.s, i, x, o.r);
    } else {
      ReturnTimes(o.s, i, x, g, o.r, answer);
    }
  }

  lemma CompletedIs(s: System, i: nat, x: Trans, r: Reply)
    requires r.status == Completed && i !in s.ic.rspSlot
    ensures StageOf(ReturnToInit(s, i, x, r), x) == Free
  {
  }

  // The request is on its way to target t
  lemma Sends(s: System, i: nat, t: nat, x: Trans, delay: nat)
    requires Good(s) && i in s.inits && t in s.targets && Init(s, i).held == Some(x)
    ensures var s1 := SendReq(s, i, t, x, delay);
            && Inv(s1) && Tok(s1, x) == Token(ReqReady, i, t) && s1.now == s.now && Targ(s1, t) == Targ(s, t)
            && Init(s1, i).peq == Init(s, i).peq && s1.ic.reqSlot == s.ic.reqSlot && s1.ic.reqQueue == s.ic.reqQueue
            && s1.ic.rspSlot == s.ic.rspSlot && s1.ic.rspQueue == s.ic.rspQueue
  {
    hide Inv, Local;
    SendReqKeeps(s, i, t, x, delay);
  }

  // ---------- The processes of the interconnect ----------

  function Later(time: nat, now: nat): nat { if time < now then now else time }

  // The initiator completes the response, if it is of type B and gets it now
  predicate CompletesNow(s: System, i: nat, answer: Option<Timed>) {
    answer.Some? && answer.value.phase == BeginResp && i !in s.ic.rspSlot && Init(s, i).kind.InitB?
  }

  lemma DeliversTo(s: System, i: nat, x: Trans, delay: nat, rnd: nat)
    requires Init(s, i).kind.InitA?
    ensures var s' := Release(SendRspBw(s, i, x, delay, rnd), x);
            && Lane(Init(s', i).peq, x) == Lane(Init(s, i).peq, x) + [Timed(s.now + delay, BeginResp)]
            && s'.targets == s.targets
  {
    hide DeliverToA;
    DeliverTargets(s, i, x, delay);
    PostsDelivery(s, i, x, delay);
    assert SendRspBw(s, i, x, delay, rnd) == DeliverToA(s, i, x, delay);
  }

  lemma PostsDelivery(s: System, i: nat, x: Trans, delay: nat)
    ensures Lane(Init(DeliverToA(s, i, x, delay), i).peq, x)
            == Lane(Init(s, i).peq, x) + [Timed(s.now + delay, BeginResp)]
  {
  }

  lemma DeliverTargets(s: System, i: nat, x: Trans, delay: nat)
    ensures DeliverToA(s, i, x, delay).targets == s.targets
  {
  }

  lemma ProcessAnswers(s: System, i: nat, x: Trans, g: Target, r: Reply, answer: Option<Timed>, rnd: nat)
    requires Says(g, s.now, r, answer) && !CompletesNow(s, i, answer)
    ensures var s' := SendBwAfterRequest(s, i, x, r, rnd);
            AnsweredAt(s, s', i, x, answer) && s'.targets == s.targets
  {
    hide QueueRsp, SendRspBw, InitPosts, Ready, Release, ReturnUpdated, ReturnResp, ReturnCompleted;
    if answer.Some? {
      if answer.value.phase == EndReq {
        PostsAnswer(s, i, x, r);
        SameTargets(s, i, x, r);
        ReturnUpdatedIs(s, i, x, r);
        ReleaseIs(InitPosts(s, i, x, EndReq, r.delay), x);
      } else {
        ReadyIs(s, i, x);
        ResponseAnswers(Ready(s, i, x), i, x, r, rnd);
        Carries(s, Ready(s, i, x), SendBwAfterRequest(s, i, x, r, rnd), i, x, answer);
      }
    } else {
      ReleaseIs(s, x);
    }
  }

  lemma ResponseAnswers(s: System, i: nat, x: Trans, r: Reply, rnd: nat)
    requires i in s.ic.rspSlot || Init(s, i).kind.InitA?
    ensures var s' := if i in s.ic.rspSlot then QueueRsp(s, i, x, r.delay)
                      else Release(SendRspBw(s, i, x, r.delay, rnd), x);
            AnsweredAt(s, s', i, x, Some(Timed(s.now + r.delay, BeginResp))) && s'.targets == s.targets
  {
    hide QueueRsp, SendRspBw, Release, ReturnUpdated, ReturnResp, ReturnCompleted, Ready;
    if i in s.ic.rspSlot {
      QueuesAnswer(s, i, x, r.delay);
      SameTargets(s, i, x, r);
    } else {
      DeliversTo(s, i, x, r.delay, rnd);
    }
  }

  lemma ReleaseIs(s: System, x: Trans)
    ensures Release(s, x).inits == s.inits && Release(s, x).targets == s.targets
  {
  }

  lemma ReadyIs(s: System, i: nat, x: Trans)
    ensures var s' := Ready(s, i, x);
            s'.inits == s.inits && s'.targets == s.targets && s'.ic == s.ic && s'.now == s.now
  {
  }

  // The head of a request queue reaches its target at the time it was queued with, or now if that is over
  lemma QueuedRequestTimes(s0: System, actions: seq<Action>, s: System, t: nat, acc: nat, lat: nat, rnd: nat)
    requires Reaches(s0, actions, s) && Enabled(s, RunsEndReq(t, acc, lat, rnd)) && Queue(s.ic.reqQueue, t) != []
    ensures var s', e, g := Apply(s, RunsEndReq(t, acc, lat, rnd)), Queue(s.ic.reqQueue, t)[0], Targ(s, t);
            var i, answer := RouteOf(s, e.trans).init, AnswerAt(g, Later(e.time, s.now), acc, lat);
            !CompletesNow(s, i, answer) ==>
              && RequestedAt(g, Targ(s', t), e.trans, Later(e.time, s.now), acc, lat)
              && AnsweredAt(s, s', i, e.trans, answer)
  {
    hide Inv, Quiet, Good, ForwardReq, PopReq, SendBwAfterRequest, RequestedAt, AnswerAt, Says, AnsweredAt;
    var e := Queue(s.ic.reqQueue, t)[0];
    var x, delay := e.trans, Since(e.time, s.now);
    var s1, i := PopReq(s, t), RouteOf(s, x).init;
    var o := ForwardReq(s1, t, x, delay, acc, lat);
    ReachedIsSound(s0, actions, s);
    Pops(s, t);
    ForwardTimes(s1, t, i, x, delay, acc, lat);
    ReplySays(s1, t, x, delay, acc, lat);
    var answer := AnswerAt(Targ(s, t), Later(e.time, s.now), acc, lat);
    if !CompletesNow(s, i, answer) {
      ProcessAnswers(o.s, i, x, Targ(s, t), o.r, answer, rnd);
      Carries(s, o.s, SendBwAfterRequest(o.s, i, x, o.r, rnd), i, x, answer);
      ProcessIs(s, t, acc, lat, rnd);
    }
  }

  lemma Carries(s: System, s1: System, s': System, i: nat, x: Trans, answer: Option<Timed>)
    requires s1.inits == s.inits && s1.ic.rspSlot == s.ic.rspSlot && s1.ic.rspQueue == s.ic.rspQueue
    requires AnsweredAt(s1, s', i, x, answer)
    ensures AnsweredAt(s, s', i, x, answer)
  {
  }

  lemma Pops(s: System, t: nat)
    requires Good(s) && Quiet(s) && t in s.ic.endReq && Queue(s.ic.reqQueue, t) != []
    ensures var s1, x := PopReq(s, t), Queue(s.ic.reqQueue, t)[0].trans;
            && Inv(s1) && MayForward(s1, t, RouteOf(s, x).init, x) && Targ(s1, t) == Targ(s, t) && s1.now == s.now
            && s1.inits == s.inits && s1.ic.rspSlot == s.ic.rspSlot && s1.ic.rspQueue == s.ic.rspQueue
            && x in s.ic.ext && RouteOf(s, x).target == t && t in s.ic.reqSlot
  {
    hide Inv;
    PopReqNext(s, t);
    SlotTaken(s, t);
  }

  lemma ProcessIs(s: System, t: nat, acc: nat, lat: nat, rnd: nat)
    requires Queue(s.ic.reqQueue, t) != [] && t in s.ic.reqSlot
    requires var x := Queue(s.ic.reqQueue, t)[0].trans; x in s.ic.ext && RouteOf(s, x).target == t
    ensures var e := Queue(s.ic.reqQueue, t)[0];
            var o := ForwardReq(PopReq(s, t), t, e.trans, Since(e.time, s.now), acc, lat);
            EndReqProcess(s, t, acc, lat, rnd) == SendBwAfterRequest(o.s, RouteOf(s, e.trans).init, e.trans, o.r, rnd)
  {
    hide ForwardReq, PopReq, SendBwAfterRequest;
    assert Check(s, true) == s;
  }

  // The head of a response queue reaches an initiator of type A at the time it was queued with, or now
  lemma QueuedResponseTimes(s0: System, actions: seq<Action>, s: System, i: nat, rnd: nat)
    requires Reaches(s0, actions, s) && Enabled(s, RunsEndRsp(i, rnd)) && Queue(s.ic.rspQueue, i) != []
    requires Init(s, i).kind.InitA?
    ensures var s', e := Apply(s, RunsEndRsp(i, rnd)), Queue(s.ic.rspQueue, i)[0];
            Lane(Init(s', i).peq, e.trans)
            == Lane(Init(s, i).peq, e.trans) + [Timed(Later(e.time, s.now), BeginResp)]
  {
    hide SendRspBw, DeliverToA, PopRsp, Release;
    var e, s1 := Queue(s.ic.rspQueue, i)[0], Check(s, i in s.ic.rspSlot);
    PopInits(s1, i);
    DeliversTo(PopRsp(s1, i), i, e.trans, Since(e.time, s.now), rnd);
  }

  lemma PopInits(s: System, i: nat)
    ensures PopRsp(s, i).inits == s.inits && PopRsp(s, i).now == s.now
  {
  }

  // ---------- Targets ----------

  lemma TakeIs(s: System, t: nat, x: Trans, rnd: nat, acc: nat, lat: nat)
    requires OneEvent(Lane(Targ(s, t).peq, x), s.now, BeginReq)
    ensures TargetCallback(s, t, x, rnd, acc, lat) == TakeReq(s, t, x, acc, lat)
  {
    hide TakeReq;
  }

  lemma TakenLane(s: System, t: nat, x: Trans, lat: nat)
    requires |Lane(Targ(s, t).peq, x)| == 1
    ensures var q := Take(Targ(s, t).peq, x);
            Lane(q, x) == [] && Lane(Post(q, x, s.now + lat, Internal), x) == [Timed(s.now + lat, Internal)]
  {
  }

  lemma KeepIs(s: System, t: nat, x: Trans, acc: nat, lat: nat)
    requires |Lane(Targ(s, t).peq, x)| == 1 && (Targ(s, t).kind.TypeC? || Targ(s, t).nTrans == 2)
    ensures var s', c := TakeReq(s, t, x, acc, lat), Targ(s, t).kind.TypeC?;
            && s'.inits == s.inits && (!c ==> Targ(s', t).endReqPending == Some(x))
            && Lane(Targ(s', t).peq, x) == if c then [Timed(s.now + lat, Internal)] else []
  {
    hide SendEndReq, Post, Take;
    TakenLane(s, t, x, lat);
    var g1 := Taken(s, t, x);
    var g', stage := if g1.kind.TypeC? then g1.(peq := Post(g1.peq, x, s.now + lat, Internal))
        else g1.(endReqPending := Some(x)),
                     if g1.kind.TypeC? then Executing else ReqDeferred;
    assert TakeReq(s, t, x, acc, lat) == Move(PutTarg(Acquire(s, x), t, g'), x, stage);
  }

  lemma AcceptTimes(s: System, t: nat, x: Trans, acc: nat, lat: nat)
    requires |Lane(Targ(s, t).peq, x)| == 1 && !Targ(s, t).kind.TypeC? && Targ(s, t).nTrans != 2
    requires Tok(s, x).target == t && RouteOf(s, x).init == Tok(s, x).init
    ensures var s', i := TakeReq(s, t, x, acc, lat), Tok(s, x).init;
            && Lane(Targ(s', t).peq, x) == [Timed(s.now + acc + lat, Internal)]
            && Lane(Init(s', i).peq, x) == Lane(Init(s, i).peq, x) + [Timed(s.now + acc, EndReq)]
  {
    hide SendEndReq, AcceptReq;
    AcceptIs(s, t, x);
    SendEndReqIs(AcceptReq(s, t, x), t, Tok(s, x).init, x, acc, lat);
    assert TakeReq(s, t, x, acc, lat) == SendEndReq(AcceptReq(s, t, x), t, x, acc, lat);
  }

  // A request that comes out of a target's queue is ended after the accept delay and executed a latency later
  lemma TakenRequestTimes(s0: System, actions: seq<Action>, s: System, t: nat, x: Trans, rnd: nat, acc: nat, lat: nat)
    requires Reaches(s0, actions, s) && Enabled(s, TargPeq(t, x, rnd, acc, lat)) && At(s, t, x, PeqReq)
    ensures var s', g, i := Apply(s, TargPeq(t, x, rnd, acc, lat)), Targ(s, t), Tok(s, x).init;
            var lane, sent := Lane(Targ(s', t).peq, x), Lane(Init(s', i).peq, x);
            if g.kind.TypeC? then lane == [Timed(s.now + lat, Internal)] && s'.inits == s.inits
            else if g.nTrans == 2 then lane == [] && Targ(s', t).endReqPending == Some(x) && s'.inits == s.inits
            else lane == [Timed(s.now + acc + lat, Internal)]
                 && sent == Lane(Init(s, i).peq, x) + [Timed(s.now + acc, EndReq)]
  {
    hide Inv, Quiet, Good, TakeReq, TargetCallback;
    ReachedIsSound(s0, actions, s);
    RequestIs(s, t, x);
    TakeIs(s, t, x, rnd, acc, lat);
    if Targ(s, t).kind.TypeC? || Targ(s, t).nTrans == 2 {
      KeepIs(s, t, x, acc, lat);
    } else {
      AcceptTimes(s, t, x, acc, lat);
    }
  }

  lemma RequestIs(s: System, t: nat, x: Trans)
    requires Good(s) && At(s, t, x, PeqReq)
    ensures OneEvent(Lane(Targ(s, t).peq, x), s.now, BeginReq) && RouteOf(s, x).init == Tok(s, x).init
  {
    assert TransOk(s, x) && TargOk(s, t) && TargLaneOk(s, t, Targ(s, t).peq, x);
  }

  lemma AcceptIs(s: System, t: nat, x: Trans)
    requires |Lane(Targ(s, t).peq, x)| == 1
    ensures var s' := AcceptReq(s, t, x);
            && Tok(s', x) == Tok(s, x).(stage := ReqTaken) && s'.ic == s.ic && s'.inits == s.inits && s'.now == s.now
            && Lane(Targ(s', t).peq, x) == []
  {
  }

  // When a response that its target sends after a delay comes to the initiator, or is queued for it
  function ResponseAt(s: System, i: nat, delay: nat): Option<Timed> {
    Some(Timed(s.now + delay + (if i in s.ic.rspSlot then 0 else EXTRA_RESPONSE_DELAY), BeginResp))
  }

  lemma RouteTimes(s: System, t: nat, i: nat, x: Trans, delay: nat, rnd: nat)
    requires i in s.ic.rspSlot || Init(s, i).kind.InitA?
    ensures var o := RouteResponse(s, t, i, x, delay, rnd);
            AnsweredAt(s, o.s, i, x, ResponseAt(s, i, delay)) && o.r.status == Accepted
  {
    hide QueueRsp;
    if i in s.ic.rspSlot { QueuesAnswer(s, i, x, delay); }
  }

  // A target begins its response
  lemma BeginTimes(s: System, t: nat, i: nat, x: Trans, delay: nat, rnd: nat)
    requires Tok(s, x) == Token(Executed, i, t) && RouteOf(s, x).init == i
    requires i in s.ic.rspSlot || Init(s, i).kind.InitA?
    ensures var o := IcBeginResp(StartResponse(s, t, x), t, x, delay, rnd);
            AnsweredAt(s, o.s, i, x, ResponseAt(s, i, delay)) && o.r.status == Accepted
  {
    hide IcBeginResp, RouteResponse, Enter, AnsweredAt, SameRspSide;
    var s1 := Enter(s, t, x, delay);
    IcBeginRespIs(s, t, x, delay, rnd);
    EnterIs(s, t, i, x, delay);
    EnterHolds(s, t, i, x, delay);
    RouteTimes(s1, t, i, x, delay, rnd);
    Carries(s, s1, RouteResponse(s1, t, i, x, delay, rnd).s, i, x, ResponseAt(s, i, delay));
  }

  lemma InternalIs(s: System, t: nat, x: Trans, rnd: nat, acc: nat, lat: nat)
    requires OneEvent(Lane(Targ(s, t).peq, x), s.now, Internal) && !Targ(s, t).responding
    ensures var s1 := Execute(s, t, x);
            var o := IcBeginResp(StartResponse(s1, t, x), t, x, 0, rnd);
            o.r.status == Accepted ==> TargetCallback(s, t, x, rnd, acc, lat) == o.s
  {
    hide IcBeginResp, Execute, StartResponse, Unblock, Finish;
  }

  // The internal event: the response goes out now, and the interconnect delays it if it need not wait
  lemma ResponseTimes(s0: System, actions: seq<Action>, s: System, t: nat, x: Trans, rnd: nat, acc: nat, lat: nat)
    requires Reaches(s0, actions, s) && Enabled(s, TargPeq(t, x, rnd, acc, lat)) && At(s, t, x, Executing)
    requires !Targ(s, t).responding
    ensures var s', i := Apply(s, TargPeq(t, x, rnd, acc, lat)), Tok(s, x).init;
            i in s.ic.rspSlot || Init(s, i).kind.InitA? ==> AnsweredAt(s, s', i, x, ResponseAt(s, i, 0))
  {
    hide Inv, Quiet, Good, Execute, IcBeginResp, StartResponse, AnsweredAt, TargetCallback;
    ReachedIsSound(s0, actions, s);
    var i, s1 := Tok(s, x).init, Execute(s, t, x);
    RunIs(s, t, x);
    if i in s.ic.rspSlot || Init(s, i).kind.InitA? {
      BeginTimes(s1, t, i, x, 0, rnd);
      InternalIs(s, t, x, rnd, acc, lat);
      Carries(s, s1, IcBeginResp(StartResponse(s1, t, x), t, x, 0, rnd).s, i, x, ResponseAt(s, i, 0));
    }
  }

  lemma RunIs(s: System, t: nat, x: Trans)
    requires Good(s) && At(s, t, x, Executing)
    ensures OneEvent(Lane(Targ(s, t).peq, x), s.now, Internal) && RouteOf(s, x).init == Tok(s, x).init
    ensures var s' := Execute(s, t, x);
            && Tok(s', x) == Tok(s, x).(stage := Executed) && s'.ic == s.ic && s'.inits == s.inits && s'.now == s.now
  {
    assert TransOk(s, x) && TargOk(s, t) && TargLaneOk(s, t, Targ(s, t).peq, x);
  }

  // send_rsp_process of type D: at the time the deferred response was due, or now if that is over
  lemma DeferredResponseTimes(s0: System, actions: seq<Action>, s: System, t: nat, rnd: nat)
    requires Reaches(s0, actions, s) && Enabled(s, RunsSendRsp(t, rnd))
    ensures Targ(s, t).nextRsp.Some?
    ensures var s', x := Apply(s, RunsSendRsp(t, rnd)), Targ(s, t).nextRsp.value;
            var i := Tok(s, x).init;
            i in s.ic.rspSlot || Init(s, i).kind.InitA? ==>
              AnsweredAt(s, s', i, x, ResponseAt(s, i, Since(Targ(s, t).nextTime, s.now)))
  {
    hide Inv, Quiet, Good, Resume, IcBeginResp, StartResponse, AnsweredAt, Finish;
    ReachedIsSound(s0, actions, s);
    DeferralIs(s, t);
    var x := Targ(s, t).nextRsp.value;
    var i, s1, delay := Tok(s, x).init, Resume(s, t, x), Since(Targ(s, t).nextTime, s.now);
    if i in s.ic.rspSlot || Init(s, i).kind.InitA? {
      BeginTimes(s1, t, i, x, delay, rnd);
      Carries(s, s1, IcBeginResp(StartResponse(s1, t, x), t, x, delay, rnd).s, i, x, ResponseAt(s, i, delay));
    }
  }

  lemma DeferralIs(s: System, t: nat)
    requires Good(s) && Targ(s, t).rspEvent
    ensures Targ(s, t).nextRsp.Some?
    ensures var x := Targ(s, t).nextRsp.value;
            var s' := Resume(s, t, x);
            && RouteOf(s, x).init == Tok(s, x).init
            && Tok(s', x) == Tok(s, x).(stage := Executed) && Tok(s', x).target == t
            && s'.ic == s.ic && s'.inits == s.inits && s'.now == s.now
  {
    DueIsTypeD(s, t);
    assert TransOk(s, Targ(s, t).nextRsp.value);
  }

  // ---------- END_RESP ----------

  // The initiator answers a response after its delay, and a target of type A, B or C queues the END_RESP until then
  lemma EndRespTimes(s0: System, actions: seq<Action>, s: System, i: nat, x: Trans, rnd: nat)
    requires Reaches(s0, actions, s) && Enabled(s, InitPeq(i, x, rnd))
    requires Lane(Init(s, i).peq, x)[0].phase == BeginResp
    ensures var s', t := Apply(s, InitPeq(i, x, rnd)), Tok(s, x).target;
            if Targ(s, t).kind in {TypeA, TypeB, TypeC}
            then Lane(Targ(s', t).peq, x) == [Timed(s.now + rnd, EndResp)]
            else StageOf(s', x) == Free
  {
    hide Inv, Quiet, Good, EndOnTarget, CloseResp, InitCallback;
    ReachedIsSound(s0, actions, s);
    var t, s1 := Tok(s, x).target, CloseResp(s, i, x, rnd);
    SentTo(s, i, x);
    CloseRespIs(s, i, x, t, rnd);
    ClosesNow(s, i, x, rnd);
    Ends(s1, t, i, x, rnd);
    CallbackIs(s, i, x, rnd);
  }

  lemma ClosesNow(s: System, i: nat, x: Trans, delay: nat)
    ensures CloseResp(s, i, x, delay).now == s.now
  {
  }

  lemma CallbackIs(s: System, i: nat, x: Trans, rnd: nat)
    requires |Lane(Init(s, i).peq, x)| > 0 && Lane(Init(s, i).peq, x)[0].phase == BeginResp
    ensures var s', o := InitCallback(s, i, x, rnd), EndOnTarget(CloseResp(s, i, x, rnd), x, rnd);
            s'.targets == o.s.targets && StageOf(s', x) == StageOf(o.s, x)
  {
    hide EndOnTarget, CloseResp, IcEndResp, TakeBeginResp;
    CompleteIs(s, i, x, rnd);
  }

  lemma SentTo(s: System, i: nat, x: Trans)
    requires Good(s) && i in s.inits && |Lane(Init(s, i).peq, x)| > 0 && Lane(Init(s, i).peq, x)[0].phase == BeginResp
    ensures Tok(s, x) == Token(RspSent, i, Tok(s, x).target) && Lane(Targ(s, Tok(s, x).target).peq, x) == []
    ensures RouteOf(s, x) == Route(i, Tok(s, x).target, Targ(s, Tok(s, x).target).kind.TypeE?)
  {
    var t := Tok(s, x).target;
    assert InitOk(s, i) && InitLaneOk(s, i, Init(s, i).peq, x) && TransOk(s, x);
    assert TargOk(s, t) && TargLaneOk(s, t, Targ(s, t).peq, x);
  }

  lemma Ends(s: System, t: nat, i: nat, x: Trans, delay: nat)
    requires Tok(s, x) == Token(Closing, i, t) && RouteOf(s, x) == Route(i, t, Targ(s, t).kind.TypeE?)
    requires Lane(Targ(s, t).peq, x) == []
    ensures var o := EndOnTarget(s, x, delay);
            if Targ(s, t).kind in {TypeA, TypeB, TypeC}
            then Lane(Targ(o.s, t).peq, x) == [Timed(s.now + delay, EndResp)]
            else StageOf(o.s, x) == Free
  {
    match Targ(s, t).kind {
      case TypeD =>
      case TypeE =>
      case _ => PassToQueueIs(s, t, x, delay);
    }
  }
}
