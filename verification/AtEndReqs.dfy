/** A target of type A or B sends END_REQ before each response: what the hop of such a target sees over any run. */
module AtEndReqs {
  import opened Tlm
  import opened ProtocolChecker
  import opened PhaseGrammar
  import opened AtSystem
  import opened AtInvariant
  import opened AtWatch
  import opened AtWatchMoves
  import opened AtCallbacks
  import opened AtSteps
  import opened AtTheorems
  import opened AtCheckers

  ghost predicate Ended(log: seq<Event>, t: nat) {
    forall x :: EndedFor(log, TargHop(t), x)
  }

  // From s to s' target t sends no BEGIN_RESP
  ghost predicate NoResp(s: System, s': System, t: nat) {
    && s.log <= s'.log && Targ(s', t).kind == Targ(s, t).kind
    && forall k :: |s.log| <= k < |s'.log| ==> !IsResp(s'.log[k], TargHop(t))
  }

  // Between s and s' nothing is seen, and target t stays of its kind
  predicate Unseen(s: System, s': System, t: nat) {
    s'.log == s.log && Targ(s', t).kind == Targ(s, t).kind
  }

  lemma Then(s: System, s1: System, s2: System, t: nat)
    requires NoResp(s, s1, t) && NoResp(s1, s2, t)
    ensures NoResp(s, s2, t)
  {
    forall k | |s.log| <= k < |s2.log| ensures !IsResp(s2.log[k], TargHop(t)) {
      if k < |s1.log| { assert s2.log[k] == s1.log[k]; }
    }
  }

  // ---------- What sends no BEGIN_RESP ----------

  lemma ShowNoResp(s: System, hop: Hop, x: Trans, signal: Signal, delay: nat, t: nat)
    requires !(hop == TargHop(t) && signal == Backward(BeginResp))
    ensures NoResp(s, Show(s, hop, x, signal, delay), t)
  {
  }

  // Nothing is seen on any hop
  lemma UnseenNoResp(s: System, s': System, t: nat)
    requires Unseen(s, s', t)
    ensures NoResp(s, s', t)
  {
  }

  lemma StillNoResp(s: System, s': System, t: nat)
    requires s'.log == s.log && s'.targets == s.targets
    ensures NoResp(s, s', t)
  {
  }

  lemma InitPostsNoResp(s: System, i: nat, x: Trans, phase: Phase, delay: nat, t: nat)
    ensures NoResp(s, InitPosts(s, i, x, phase, delay), t)
  {
  }

  lemma NotifiedNoResp(s: System, u: nat, t: nat)
    ensures NoResp(s, NotifyEndReq(s, u), t)
  {
    hide NoResp;
    StillNoResp(s, NotifyEndReq(s, u), t);
  }

  lemma SendEndReqNoResp(s: System, u: nat, x: Trans, acc: nat, lat: nat, t: nat)
    ensures NoResp(s, SendEndReq(s, u, x, acc, lat), t)
  {
    hide NoResp, InitPosts, NotifyEndReq;
    var s1 := Show(s, TargHop(u), x, Backward(EndReq), acc);
    var s2 := NotifyEndReq(s1, u);
    var s3 := Check(s2, x in s2.ic.ext);
    var s4 := InitPosts(s3, RouteOf(s, x).init, x, EndReq, acc);
    var s' := SendEndReq(s, u, x, acc, lat);
    ShowNoResp(s, TargHop(u), x, Backward(EndReq), acc, t);
    NotifiedNoResp(s1, u, t);
    Then(s, s1, s2, t);
    StillNoResp(s2, s3, t);
    Then(s, s2, s3, t);
    InitPostsNoResp(s3, RouteOf(s, x).init, x, EndReq, acc, t);
    Then(s, s3, s4, t);
    assert IcEndReq(s, u, x, acc) == s4;
    UnseenNoResp(s4, s', t);
    Then(s, s4, s', t);
  }

  lemma UnblockNoResp(s: System, u: nat, acc: nat, lat: nat, t: nat)
    ensures NoResp(s, Unblock(s, u, acc, lat), t)
  {
    hide SendEndReq, NoResp;
    match Targ(s, u).endReqPending {
      case None => UnseenNoResp(s, s, t);
      case Some(y) =>
        UnseenNoResp(s, Undefer(s, u, y), t);
        SendEndReqNoResp(Undefer(s, u, y), u, y, acc, lat, t);
        Then(s, Undefer(s, u, y), SendEndReq(Undefer(s, u, y), u, y, acc, lat), t);
    }
  }

  lemma ForwardNoResp(s: System, u: nat, x: Trans, delay: nat, acc: nat, lat: nat, t: nat)
    requires Pipelined(Targ(s, t).kind)
    ensures NoResp(s, ForwardReq(s, u, x, delay, acc, lat).s, t)
  {
    hide NoResp;
    var s1 := OpenReq(s, u, x, delay);
    var o := TargetBeginReq(s1, u, x, delay, acc, lat);
    assert s1 == Show(s1.(log := s.log), TargHop(u), x, Forward(BeginReq), delay);
    UnseenNoResp(s, s1.(log := s.log), t);
    ShowNoResp(s1.(log := s.log), TargHop(u), x, Forward(BeginReq), delay, t);
    Then(s, s1.(log := s.log), s1, t);
    BeginNoResp(s1, u, x, delay, acc, lat, t);
    Then(s, s1, o.s, t);
    ReplyNoResp(o.s, u, x, o.r, t);
    Then(s, o.s, OnReply(o.s, u, x, o.r), t);
  }

  lemma PutUnseen(s: System, u: nat, g: Target, t: nat)
    requires g.kind == Targ(s, u).kind
    ensures Unseen(s, PutTarg(s, u, g), t)
  {
  }

  lemma PostReqUnseen(s: System, u: nat, x: Trans, delay: nat, t: nat)
    ensures var o := TargetPostReq(s, u, x, delay); Unseen(s, o.s, t) && o.r.status == Accepted
  {
    hide Unseen;
    var g := Targ(s, u);
    PutUnseen(s, u, g.(peq := Post(g.peq, x, s.now + delay, BeginReq)), t);
    RestUnseen(s, PutTarg(s, u, g.(peq := Post(g.peq, x, s.now + delay, BeginReq))),
               TargetPostReq(s, u, x, delay).s, t);
  }

  lemma RestUnseen(s: System, s1: System, s': System, t: nat)
    requires Unseen(s, s1, t) && s'.log == s1.log && s'.targets == s1.targets
    ensures Unseen(s, s', t)
  {
  }

  lemma BeginNoResp(s: System, u: nat, x: Trans, delay: nat, acc: nat, lat: nat, t: nat)
    requires Pipelined(Targ(s, t).kind)
    ensures var o := TargetBeginReq(s, u, x, delay, acc, lat);
            NoResp(s, o.s, t) && (u == t && o.r.status == Updated ==> o.r.phase == EndReq)
  {
    hide NoResp, TargetPostReq, TargetAccepts, TargetDefers, TargetResponds;
    var o := TargetBeginReq(s, u, x, delay, acc, lat);
    PostReqUnseen(s, u, x, delay, t);
    AcceptsUnseen(s, u, x, delay, acc, lat, t);
    DefersUnseen(s, u, x, delay, lat, t);
    RespondsUnseen(s, u, x, delay, lat, t);
    RestUnseen(s, s, Move(s, x, RspReady), t);
    UnseenNoResp(s, o.s, t);
  }

  lemma AcceptsUnseen(s: System, u: nat, x: Trans, delay: nat, acc: nat, lat: nat, t: nat)
    ensures var o := TargetAccepts(s, u, x, delay, acc, lat);
            Unseen(s, o.s, t) && o.r == Reply(Updated, EndReq, delay + acc)
  {
    hide Unseen;
    var g, s1 := Targ(s, u), Acquire(s, x);
    var g' := g.(peq := Post(g.peq, x, s.now + delay + acc + lat, Internal), nTrans := g.nTrans + 1);
    PutUnseen(s, u, g', t);
    RestUnseen(s, PutTarg(s, u, g'), TargetAccepts(s, u, x, delay, acc, lat).s, t);
  }

  lemma DefersUnseen(s: System, u: nat, x: Trans, delay: nat, lat: nat, t: nat)
    ensures var o := TargetDefers(s, u, x, delay, lat); Unseen(s, o.s, t) && o.r.status == Accepted
  {
    hide Unseen;
    var g' := Targ(s, u).(nextRsp := Some(x), nextTime := s.now + delay + lat);
    PutUnseen(s, u, g', t);
    RestUnseen(s, PutTarg(s, u, g'), TargetDefers(s, u, x, delay, lat).s, t);
  }

  lemma RespondsUnseen(s: System, u: nat, x: Trans, delay: nat, lat: nat, t: nat)
    ensures Unseen(s, TargetResponds(s, u, x, delay, lat).s, t)
  {
    hide Unseen;
    var g' := Targ(s, u).(responding := true);
    PutUnseen(s, u, g', t);
    RestUnseen(s, PutTarg(s, u, g'), TargetResponds(s, u, x, delay, lat).s, t);
  }

  lemma ReplyNoResp(s: System, u: nat, x: Trans, r: Reply, t: nat)
    requires u == t && r.status == Updated ==> r.phase == EndReq
    ensures NoResp(s, OnReply(s, u, x, r), t)
  {
    hide NoResp;
    var signal := if r.status == Updated then Backward(r.phase) else FwCompleted(true);
    var s1 := Show(s, TargHop(u), x, signal, r.delay);
    ShowNoResp(s, TargHop(u), x, signal, r.delay, t);
    UnseenNoResp(s, s, t);
    if r.status != Accepted {
      UnseenNoResp(s1, OnReply(s, u, x, r), t);
      Then(s, s1, OnReply(s, u, x, r), t);
    }
  }

  lemma DeliverNoResp(s: System, i: nat, x: Trans, delay: nat, rnd: nat, t: nat)
    ensures NoResp(s, DeliverRsp(s, i, x, delay, rnd).s, t)
  {
    hide NoResp;
    var s1 := TakeRspSlot(s, i, x);
    UnseenNoResp(s, s1, t);
    if Init(s, i).kind.InitB? {
      var s2 := Show(s1, InitHop(i), x, Backward(BeginResp), delay);
      ShowNoResp(s1, InitHop(i), x, Backward(BeginResp), delay, t);
      Then(s, s1, s2, t);
      CompletesNoResp(s1, i, x, delay, rnd, t);
      Then(s, s2, DeliverToB(s, i, x, delay, rnd), t);
    } else {
      var s2 := InitPosts(s1, i, x, BeginResp, delay);
      InitPostsNoResp(s1, i, x, BeginResp, delay, t);
      Then(s, s1, s2, t);
      UnseenNoResp(s2, DeliverToA(s, i, x, delay), t);
      Then(s, s2, DeliverToA(s, i, x, delay), t);
    }
  }

  lemma CompletesNoResp(s: System, i: nat, x: Trans, delay: nat, rnd: nat, t: nat)
    ensures var s1 := Show(s, InitHop(i), x, Backward(BeginResp), delay);
            NoResp(s1, NotifyEndRsp(InitCompletes(s, i, x, delay, rnd), i), t)
  {
    hide NoResp;
    var s1, s3 := Show(s, InitHop(i), x, Backward(BeginResp), delay), InitCompletes(s, i, x, delay, rnd);
    var s2 := s3.(log := s1.log);
    UnseenNoResp(s1, s2, t);
    assert s3 == Show(s2, InitHop(i), x, BwCompleted, delay + rnd);
    ShowNoResp(s2, InitHop(i), x, BwCompleted, delay + rnd, t);
    Then(s1, s2, s3, t);
    UnseenNoResp(s3, NotifyEndRsp(s3, i), t);
    Then(s1, s3, NotifyEndRsp(s3, i), t);
  }

  lemma EndNoResp(s: System, x: Trans, delay: nat, t: nat)
    ensures NoResp(s, EndOnTarget(s, x, delay).s, t)
  {
    hide NoResp, TargetEndResp;
    if RouteOf(s, x).dontPropagateFw {
      UnseenNoResp(s, Move(s, x, Free), t);
    } else {
      var u := RouteOf(s, x).target;
      var s1 := Show(s, TargHop(u), x, Forward(EndResp), delay);
      var o := TargetEndResp(s1, u, x, delay);
      ShowNoResp(s, TargHop(u), x, Forward(EndResp), delay, t);
      TargetEndUnseen(s1, u, x, delay, t);
      UnseenNoResp(s1, o.s, t);
      Then(s, s1, o.s, t);
      ShowNoResp(o.s, TargHop(u), x, FwCompleted(false), o.r.delay, t);
      Then(s, o.s, Show(o.s, TargHop(u), x, FwCompleted(false), o.r.delay), t);
    }
  }

  lemma ClearsUnseen(s: System, u: nat, x: Trans, delay: nat, t: nat)
    ensures Unseen(s, TargetClears(s, u, x, delay).s, t)
  {
    hide Unseen;
    var g := Targ(s, u);
    var g' := g.(responding := false, rspEvent := g.rspEvent || g.nextRsp.Some?);
    PutUnseen(s, u, g', t);
    RestUnseen(s, PutTarg(s, u, g'), TargetClears(s, u, x, delay).s, t);
  }

  lemma PostEndUnseen(s: System, u: nat, x: Trans, delay: nat, t: nat)
    ensures Unseen(s, TargetPostEnd(s, u, x, delay).s, t)
  {
    hide Unseen;
    var g := Targ(s, u);
    var g' := g.(peq := Post(g.peq, x, s.now + delay, EndResp));
    PutUnseen(s, u, g', t);
    RestUnseen(s, PutTarg(s, u, g'), TargetPostEnd(s, u, x, delay).s, t);
  }

  lemma TargetEndUnseen(s: System, u: nat, x: Trans, delay: nat, t: nat)
    ensures Unseen(s, TargetEndResp(s, u, x, delay).s, t)
  {
    hide TargetClears, TargetPostEnd;
    ClearsUnseen(s, u, x, delay, t);
    PostEndUnseen(s, u, x, delay, t);
  }

  lemma SendRspBwNoResp(s: System, i: nat, x: Trans, delay: nat, rnd: nat, t: nat)
    ensures NoResp(s, SendRspBw(s, i, x, delay, rnd), t)
  {
    hide NoResp, DeliverRsp, EndOnTarget;
    var o := DeliverRsp(s, i, x, delay, rnd);
    DeliverNoResp(s, i, x, delay, rnd, t);
    if o.r.status == Completed {
      var p := EndOnTarget(o.s, x, o.r.delay);
      EndNoResp(o.s, x, o.r.delay, t);
      Then(s, o.s, p.s, t);
      UnseenNoResp(p.s, RelayEnd(o.s, x, o.r.delay), t);
      Then(s, p.s, RelayEnd(o.s, x, o.r.delay), t);
    }
  }

  // ---------- Responses of targets ----------

  // A response of target u has gone out on its hop
  function Out(s: System, u: nat, x: Trans, delay: nat): System {
    Show(StartResponse(s, u, x), TargHop(u), x, Backward(BeginResp), delay)
  }

  lemma RouteNoResp(s: System, u: nat, i: nat, x: Trans, delay: nat, rnd: nat, t: nat)
    ensures NoResp(s, RouteResponse(s, u, i, x, delay, rnd).s, t)
  {
    hide NoResp, DeliverRsp;
    if i in s.ic.rspSlot {
      UnseenNoResp(s, QueueRsp(s, i, x, delay), t);
    } else {
      var o := DeliverRsp(s, i, x, delay + EXTRA_RESPONSE_DELAY, rnd);
      DeliverNoResp(s, i, x, delay + EXTRA_RESPONSE_DELAY, rnd, t);
      if o.r.status == Completed {
        var s1 := Show(o.s, TargHop(u), x, BwCompleted, o.r.delay);
        ShowNoResp(o.s, TargHop(u), x, BwCompleted, o.r.delay, t);
        Then(s, o.s, s1, t);
        UnseenNoResp(s1, Move(s1, x, Closed), t);
        Then(s, s1, Move(s1, x, Closed), t);
      }
    }
  }

  lemma IcNoResp(s: System, u: nat, x: Trans, delay: nat, rnd: nat, t: nat)
    ensures NoResp(Out(s, u, x, delay), IcBeginResp(StartResponse(s, u, x), u, x, delay, rnd).s, t)
  {
    hide NoResp, RouteResponse;
    var s0 := StartResponse(s, u, x);
    var s1 := EnterResponse(s0, u, x, delay);
    UnseenNoResp(Out(s, u, x, delay), s1, t);
    RouteNoResp(s1, u, RouteOf(s0, x).init, x, delay, rnd, t);
    Then(Out(s, u, x, delay), s1, IcBeginResp(s0, u, x, delay, rnd).s, t);
  }

  lemma SendResponseNoResp(s: System, u: nat, x: Trans, rnd: nat, acc: nat, lat: nat, t: nat)
    ensures NoResp(Out(s, u, x, 0), SendResponse(s, u, x, rnd, acc, lat), t)
  {
    hide NoResp, IcBeginResp, Unblock;
    var s1, o := Out(s, u, x, 0), IcBeginResp(StartResponse(s, u, x), u, x, 0, rnd);
    IcNoResp(s, u, x, 0, rnd, t);
    if o.r.status == Completed {
      UnseenNoResp(o.s, Finish(o.s, u, x), t);
      Then(s1, o.s, Finish(o.s, u, x), t);
      UnblockNoResp(Finish(o.s, u, x), u, acc, lat, t);
      Then(s1, Finish(o.s, u, x), Unblock(Finish(o.s, u, x), u, acc, lat), t);
    }
  }

  // ---------- Steps ----------

  // s' follows s with at most one BEGIN_RESP of target t, as the first thing seen, for a transaction it has ended
  ghost predicate Answers(s: System, s': System, t: nat) {
    NoResp(s, s', t)
    || exists x: Trans, delay: nat ::
         Ph(Mon(s), TargHop(t), x) == EndReq && NoResp(Show(s, TargHop(t), x, Backward(BeginResp), delay), s', t)
  }

  lemma OutKeeps(s: System, x: Trans, delay: nat, t: nat)
    requires Ended(s.log, t) && Ph(Mon(s), TargHop(t), x) == EndReq
    ensures Ended(Show(s, TargHop(t), x, Backward(BeginResp), delay).log, t)
  {
    hide Watch;
    var log := Show(s, TargHop(t), x, Backward(BeginResp), delay).log;
    forall y, k | 0 <= k < |log| && IsResp(log[k], TargHop(t)) && log[k].trans == y
      ensures Ph(Watch(log[..k]), TargHop(t), y) == EndReq
    {
      assert EndedFor(s.log, TargHop(t), y);
      if k < |s.log| { assert log[..k] == s.log[..k]; } else { assert log[..k] == s.log; }
    }
  }

  lemma AnswersKeeps(s: System, s': System, t: nat)
    requires Ended(s.log, t) && Answers(s, s', t)
    ensures Ended(s'.log, t) && Targ(s', t).kind == Targ(s, t).kind
  {
    hide Watch, NoResp, Ended;
    if NoResp(s, s', t) {
      NoRespKeeps(s, s', t);
    } else {
      var x: Trans, delay: nat :|
        Ph(Mon(s), TargHop(t), x) == EndReq && NoResp(Show(s, TargHop(t), x, Backward(BeginResp), delay), s', t);
      OutKeeps(s, x, delay, t);
      NoRespKeeps(Show(s, TargHop(t), x, Backward(BeginResp), delay), s', t);
    }
  }

  lemma NoRespKeeps(s: System, s': System, t: nat)
    requires Ended(s.log, t) && NoResp(s, s', t)
    ensures Ended(s'.log, t) && Targ(s', t).kind == Targ(s, t).kind
  {
    hide Watch;
    forall y, k | 0 <= k < |s'.log| && IsResp(s'.log[k], TargHop(t)) && s'.log[k].trans == y
      ensures Ph(Watch(s'.log[..k]), TargHop(t), y) == EndReq
    {
      assert EndedFor(s.log, TargHop(t), y) && k < |s.log|;
      assert s'.log[..k] == s.log[..k];
    }
  }

  // The response of target u to x, for which it has sent END_REQ if it is to send one
  lemma SendResponseAnswers(s: System, s0: System, u: nat, x: Trans, rnd: nat, acc: nat, lat: nat, t: nat)
    requires s0.log == s.log && Targ(s0, t).kind == Targ(s, t).kind && s0.now == s.now
    requires u == t ==> Ph(Mon(s), TargHop(t), x) == EndReq
    ensures Answers(s, SendResponse(s0, u, x, rnd, acc, lat), t)
  {
    hide NoResp, SendResponse, Watch;
    var s1 := Show(s, TargHop(u), x, Backward(BeginResp), 0);
    SendResponseNoResp(s0, u, x, rnd, acc, lat, t);
    UnseenNoResp(s1, Out(s0, u, x, 0), t);
    Then(s1, Out(s0, u, x, 0), SendResponse(s0, u, x, rnd, acc, lat), t);
    if u != t {
      ShowNoResp(s, TargHop(u), x, Backward(BeginResp), 0, t);
      Then(s, s1, SendResponse(s0, u, x, rnd, acc, lat), t);
    }
  }

  lemma TargetCallbackAnswers(s: System, u: nat, x: Trans, rnd: nat, acc: nat, lat: nat, t: nat)
    requires Good(s) && Pipelined(Targ(s, t).kind)
    ensures Answers(s, TargetCallback(s, u, x, rnd, acc, lat), t)
  {
    hide NoResp, TakeReq, TakeEndResp, TakeInternal, Inv, Watched, Watch;
    var lane := Lane(Targ(s, u).peq, x);
    StillNoResp(s, s, t);
    StillNoResp(s, Check(s, false), t);
    TakeReqNoResp(s, u, x, acc, lat, t);
    TakeEndRespAnswers(s, u, x, rnd, acc, lat, t);
    if lane != [] && lane[0].phase == Internal { TakeInternalAnswers(s, u, x, rnd, acc, lat, t); }
  }

  lemma TakeReqNoResp(s: System, u: nat, x: Trans, acc: nat, lat: nat, t: nat)
    ensures NoResp(s, TakeReq(s, u, x, acc, lat), t)
  {
    hide NoResp, SendEndReq;
    var g := Targ(s, u);
    if !g.kind.TypeC? && g.nTrans != 2 {
      UnseenNoResp(s, AcceptReq(s, u, x), t);
      SendEndReqNoResp(AcceptReq(s, u, x), u, x, acc, lat, t);
      Then(s, AcceptReq(s, u, x), TakeReq(s, u, x, acc, lat), t);
    } else {
      UnseenNoResp(s, TakeReq(s, u, x, acc, lat), t);
    }
  }

  lemma DefersAnswers(s: System, u: nat, x: Trans, rnd: nat, acc: nat, lat: nat, t: nat)
    requires Targ(s, u).responding
    ensures Answers(s, TakeInternal(s, u, x, rnd, acc, lat), t)
  {
    hide NoResp, SendResponse, Watch;
    UnseenNoResp(s, TakeInternal(s, u, x, rnd, acc, lat), t);
  }

  lemma ExecutesAnswers(s: System, u: nat, x: Trans, rnd: nat, acc: nat, lat: nat, t: nat)
    requires !Targ(s, u).responding && (u == t ==> Ph(Mon(s), TargHop(t), x) == EndReq)
    ensures Answers(s, TakeInternal(s, u, x, rnd, acc, lat), t)
  {
    hide SendResponse, Watch, Answers, Mon, Ph;
    SendResponseAnswers(s, Execute(s, u, x), u, x, rnd, acc, lat, t);
  }

  lemma TakeInternalAnswers(s: System, u: nat, x: Trans, rnd: nat, acc: nat, lat: nat, t: nat)
    requires Good(s) && Pipelined(Targ(s, t).kind)
    requires Lane(Targ(s, u).peq, x) != [] && Lane(Targ(s, u).peq, x)[0].phase == Internal
    ensures Answers(s, TakeInternal(s, u, x, rnd, acc, lat), t)
  {
    hide NoResp, SendResponse, Watch, Inv, Watched, Answers, TakeInternal, Execute;
    if Targ(s, u).responding {
      DefersAnswers(s, u, x, rnd, acc, lat, t);
    } else {
      if u == t { PhaseAtTarget(s, t, x); }
      ExecutesAnswers(s, u, x, rnd, acc, lat, t);
    }
  }

  lemma TakeEndRespAnswers(s: System, u: nat, x: Trans, rnd: nat, acc: nat, lat: nat, t: nat)
    requires Good(s) && Pipelined(Targ(s, t).kind)
    ensures Answers(s, TakeEndResp(s, u, x, rnd, acc, lat), t)
  {
    hide NoResp, SendResponse, Watch, Inv, Watched, Unblock;
    var g := Targ(s, u);
    var s1 := Finish(PutTarg(Check(s, g.responding), u, g.(peq := Take(g.peq, x))), u, x);
    var s2 := SendDeferred(s1, u, rnd, acc, lat);
    assert Targ(s1, u).nextRsp == g.nextRsp;
    match g.nextRsp {
      case None =>
        UnseenNoResp(s, s1, t);
        UnblockNoResp(s1, u, acc, lat, t);
        Then(s, s1, Unblock(s1, u, acc, lat), t);
      case Some(y) =>
        if u == t { PhaseAtTarget(s, t, y); }
        SendResponseAnswers(s, Resume(s1, u, y), u, y, rnd, acc, lat, t);
        UnblockNoResp(s2, u, acc, lat, t);
        AnswersThen(s, s2, Unblock(s2, u, acc, lat), t);
    }
  }

  lemma AnswersThen(s: System, s1: System, s': System, t: nat)
    requires Answers(s, s1, t) && NoResp(s1, s', t)
    ensures Answers(s, s', t)
  {
    hide NoResp;
    if NoResp(s, s1, t) {
      Then(s, s1, s', t);
    } else {
      var x: Trans, delay: nat :|
        Ph(Mon(s), TargHop(t), x) == EndReq && NoResp(Show(s, TargHop(t), x, Backward(BeginResp), delay), s1, t);
      Then(Show(s, TargHop(t), x, Backward(BeginResp), delay), s1, s', t);
    }
  }

  // The response of a target of another type
  lemma DeferredNoResp(s: System, u: nat, rnd: nat, t: nat)
    requires u != t
    ensures NoResp(s, DeferredResponse(s, u, rnd), t)
  {
    hide NoResp, IcBeginResp;
    var g, s' := Targ(s, u), DeferredResponse(s, u, rnd);
    match g.nextRsp {
      case None => UnseenNoResp(s, s', t);
      case Some(x) =>
        var s1 := Resume(s, u, x);
        var delay := Since(g.nextTime, s.now);
        var s2 := StartResponse(s1, u, x);
        var o := IcBeginResp(s2, u, x, delay, rnd);
        UnseenNoResp(s, s2, t);
        ShowNoResp(s2, TargHop(u), x, Backward(BeginResp), delay, t);
        Then(s, s2, Out(s1, u, x, delay), t);
        IcNoResp(s1, u, x, delay, rnd, t);
        Then(s, Out(s1, u, x, delay), o.s, t);
        UnseenNoResp(o.s, Finish(o.s, u, x), t);
        Then(s, o.s, Finish(o.s, u, x), t);
    }
  }

  lemma SendReqNoResp(s: System, i: nat, u: nat, x: Trans, delay: nat, t: nat)
    ensures NoResp(s, SendReq(s, i, u, x, delay), t)
  {
  }

  lemma IssueNoResp(s: System, i: nat, u: nat, delay: nat, acc: nat, lat: nat, t: nat)
    requires Pipelined(Targ(s, t).kind)
    ensures NoResp(s, Issue(s, i, u, delay, acc, lat), t)
  {
    hide NoResp, SendReq, ForwardReq, ReturnToInit;
    match Init(s, i).held {
      case None => UnseenNoResp(s, s, t);
      case Some(x) =>
        var s1 := SendReq(s, i, u, x, delay);
        SendReqNoResp(s, i, u, x, delay, t);
        if u in s1.ic.reqSlot {
          UnseenNoResp(s1, QueueReq(s1, u, x, delay), t);
          Then(s, s1, QueueReq(s1, u, x, delay), t);
        } else {
          var o := ForwardReq(s1, u, x, delay, acc, lat);
          NoRespKind(s, s1, t);
          ForwardNoResp(s1, u, x, delay, acc, lat, t);
          Then(s, s1, o.s, t);
          ReturnNoResp(o.s, i, x, o.r, t);
          Then(s, o.s, ReturnToInit(o.s, i, x, o.r), t);
        }
    }
  }

  lemma NoRespKind(s: System, s': System, t: nat)
    requires NoResp(s, s', t)
    ensures Targ(s', t).kind == Targ(s, t).kind
  {
  }

  lemma CompletedNoResp(s: System, i: nat, x: Trans, r: Reply, t: nat)
    ensures NoResp(s, ReturnCompleted(s, i, x, r), t)
  {
    hide NoResp;
    var s1 := s.(delivered := List(s.delivered, i, x));
    var s2 := Show(s1, InitHop(i), x, FwCompleted(true), r.delay);
    StillNoResp(s, s1, t);
    ShowNoResp(s1, InitHop(i), x, FwCompleted(true), r.delay, t);
    Then(s, s1, s2, t);
    StillNoResp(s2, ReturnCompleted(s, i, x, r), t);
    Then(s, s2, ReturnCompleted(s, i, x, r), t);
  }

  lemma QueueNoResp(s: System, i: nat, x: Trans, delay: nat, t: nat)
    ensures NoResp(s, QueueRsp(s, i, x, delay), t)
  {
    hide NoResp;
    StillNoResp(s, QueueRsp(s, i, x, delay), t);
  }

  lemma ReturnRespNoResp(s: System, i: nat, x: Trans, r: Reply, t: nat)
    ensures NoResp(s, ReturnResp(s, i, x, r), t)
  {
    hide NoResp, InitPosts;
    var s1 := TakeRspSlot(s, i, x);
    var s2 := InitPosts(s1, i, x, r.phase, r.delay);
    StillNoResp(s, s1, t);
    InitPostsNoResp(s1, i, x, r.phase, r.delay, t);
    Then(s, s1, s2, t);
    StillNoResp(s2, Move(s2, x, RspSent), t);
    Then(s, s2, Move(s2, x, RspSent), t);
  }

  lemma ReturnNoResp(s: System, i: nat, x: Trans, r: Reply, t: nat)
    ensures NoResp(s, ReturnToInit(s, i, x, r), t)
  {
    hide NoResp, InitPosts, QueueRsp, ReturnResp, ReturnCompleted;
    var s1 := Ready(s, i, x);
    StillNoResp(s, s, t);
    StillNoResp(s, s1, t);
    InitPostsNoResp(s, i, x, r.phase, r.delay, t);
    QueueNoResp(s1, i, x, r.delay, t);
    Then(s, s1, QueueRsp(s1, i, x, r.delay), t);
    ReturnRespNoResp(s1, i, x, r, t);
    Then(s, s1, ReturnResp(s1, i, x, r), t);
    CompletedNoResp(s1, i, x, r, t);
    Then(s, s1, ReturnCompleted(s1, i, x, r), t);
  }

  lemma CompleteRespNoResp(s: System, i: nat, x: Trans, rnd: nat, t: nat)
    ensures NoResp(s, CompleteResp(s, i, x, rnd), t)
  {
    hide NoResp, EndOnTarget, TakeBeginResp;
    var s1 := TakeBeginResp(s, i, x);
    var s2 := Show(s1, InitHop(i), x, Forward(EndResp), rnd);
    var s3 := EndRsp(s1, i, x, rnd);
    var o := EndOnTarget(s3, x, rnd);
    assert s1.log == s.log && s1.targets == s.targets by { TakeIs(s, i, x); }
    StillNoResp(s, s1, t);
    ShowNoResp(s1, InitHop(i), x, Forward(EndResp), rnd, t);
    Then(s, s1, s2, t);
    StillNoResp(s2, s3, t);
    Then(s, s2, s3, t);
    EndNoResp(s3, x, rnd, t);
    Then(s, s3, o.s, t);
    var s4 := IcEndResp(s1, i, x, rnd);
    if o.r.status == Completed {
      ShowNoResp(o.s, InitHop(i), x, FwCompleted(false), o.r.delay, t);
      Then(s, o.s, s4, t);
    }
    StillNoResp(s4, Release(s4, x), t);
    Then(s, s4, Release(s4, x), t);
  }

  lemma TakeIs(s: System, i: nat, x: Trans)
    ensures TakeBeginResp(s, i, x).log == s.log && TakeBeginResp(s, i, x).targets == s.targets
  {
  }

  lemma InitCallbackNoResp(s: System, i: nat, x: Trans, rnd: nat, t: nat)
    ensures NoResp(s, InitCallback(s, i, x, rnd), t)
  {
    hide NoResp, CompleteResp;
    var lane := Lane(Init(s, i).peq, x);
    StillNoResp(s, s, t);
    StillNoResp(s, TakeEndReq(s, i, x), t);
    StillNoResp(s, Check(s, false), t);
    CompleteRespNoResp(s, i, x, rnd, t);
  }

  lemma SlotNoResp(s: System, u: nat, t: nat)
    ensures NoResp(s, ClearReqSlot(Check(s, u in s.ic.reqSlot), u), t)
  {
    hide NoResp;
    StillNoResp(s, ClearReqSlot(Check(s, u in s.ic.reqSlot), u), t);
  }

  lemma PopNoResp(s: System, found: bool, routed: bool, u: nat, t: nat)
    ensures NoResp(s, PopReq(Check(Check(s, found), routed), u), t)
  {
    hide NoResp;
    StillNoResp(s, PopReq(Check(Check(s, found), routed), u), t);
  }

  lemma EndReqProcessNoResp(s: System, u: nat, acc: nat, lat: nat, rnd: nat, t: nat)
    requires Pipelined(Targ(s, t).kind)
    ensures NoResp(s, EndReqProcess(s, u, acc, lat, rnd), t)
  {
    hide NoResp, ForwardReq, SendBwAfterRequest, PopReq, ClearReqSlot;
    var q, s1 := Queue(s.ic.reqQueue, u), Check(s, u in s.ic.reqSlot);
    if |q| == 0 {
      SlotNoResp(s, u, t);
    } else {
      var x, delay := q[0].trans, Since(q[0].time, s.now);
      var i := RouteOf(s1, x).init;
      var s2 := PopReq(Check(s1, x in s1.ic.ext && RouteOf(s1, x).target == u), u);
      var o := ForwardReq(s2, u, x, delay, acc, lat);
      PopNoResp(s, u in s.ic.reqSlot, x in s1.ic.ext && RouteOf(s1, x).target == u, u, t);
      NoRespKind(s, s2, t);
      ForwardNoResp(s2, u, x, delay, acc, lat, t);
      Then(s, s2, o.s, t);
      AfterRequestNoResp(o.s, i, x, o.r, rnd, t);
      Then(s, o.s, SendBwAfterRequest(o.s, i, x, o.r, rnd), t);
      assert EndReqProcess(s, u, acc, lat, rnd) == SendBwAfterRequest(o.s, i, x, o.r, rnd);
    }
  }

  lemma ReleaseNoResp(s: System, s1: System, x: Trans, t: nat)
    requires s1 == s || NoResp(s, s1, t)
    ensures NoResp(s, Release(s1, x), t)
  {
    hide NoResp;
    StillNoResp(s1, Release(s1, x), t);
    if s1 != s { Then(s, s1, Release(s1, x), t); }
  }

  lemma AfterRequestNoResp(s: System, i: nat, x: Trans, r: Reply, rnd: nat, t: nat)
    ensures NoResp(s, SendBwAfterRequest(s, i, x, r, rnd), t)
  {
    hide NoResp, SendRspBw, InitPosts, QueueRsp, Release;
    var s1 := Ready(s, i, x);
    StillNoResp(s, s1, t);
    if r.status == Accepted {
      ReleaseNoResp(s, s, x, t);
    } else if r.status == Updated && r.phase == EndReq {
      InitPostsNoResp(s, i, x, EndReq, r.delay, t);
      ReleaseNoResp(s, InitPosts(s, i, x, EndReq, r.delay), x, t);
    } else if i in s1.ic.rspSlot {
      QueueNoResp(s1, i, x, r.delay, t);
      Then(s, s1, QueueRsp(s1, i, x, r.delay), t);
    } else {
      SendRspBwNoResp(s1, i, x, r.delay, rnd, t);
      Then(s, s1, SendRspBw(s1, i, x, r.delay, rnd), t);
      ReleaseNoResp(s, SendRspBw(s1, i, x, r.delay, rnd), x, t);
    }
  }

  lemma EndRspProcessNoResp(s: System, i: nat, rnd: nat, t: nat)
    ensures NoResp(s, EndRspProcess(s, i, rnd), t)
  {
    hide NoResp, SendRspBw;
    var q, s1, s' := Queue(s.ic.rspQueue, i), Check(s, i in s.ic.rspSlot), EndRspProcess(s, i, rnd);
    if |q| == 0 {
      StillNoResp(s, s', t);
    } else {
      var x, delay := q[0].trans, Since(q[0].time, s.now);
      var s2 := SendRspBw(PopRsp(s1, i), i, x, delay, rnd);
      StillNoResp(s, PopRsp(s1, i), t);
      SendRspBwNoResp(PopRsp(s1, i), i, x, delay, rnd, t);
      Then(s, PopRsp(s1, i), s2, t);
      StillNoResp(s2, s', t);
      Then(s, s2, s', t);
    }
  }

  lemma StepAnswers(s: System, a: Action, t: nat)
    requires Good(s) && Enabled(s, a) && Pipelined(Targ(s, t).kind)
    ensures Answers(s, Apply(s, a), t)
  {
    hide NoResp, Watched, Watch;
    match a
    case Allocates(i, x) => UnseenNoResp(s, Apply(s, a), t);
    case Issues(i, u, delay, acc, lat) => IssueNoResp(s, i, u, delay, acc, lat, t);
    case InitPeq(i, x, rnd) => InitCallbackNoResp(s, i, x, rnd, t);
    case TargPeq(u, x, rnd, acc, lat) => TargetCallbackAnswers(s, u, x, rnd, acc, lat, t);
    case RunsSendRsp(u, rnd) =>
      assert TargOk(s, u);
      DeferredNoResp(s, u, rnd, t);
    case RunsEndReq(u, acc, lat, rnd) => EndReqProcessNoResp(s, u, acc, lat, rnd, t);
    case RunsEndRsp(i, rnd) => EndRspProcessNoResp(s, i, rnd, t);
    case Tick(time) => UnseenNoResp(s, Apply(s, a), t);
  }

  lemma {:induction false} RunEnded(s: System, actions: seq<Action>, t: nat)
    requires Good(s) && Quiet(s) && Runs(s, actions) && Pipelined(Targ(s, t).kind) && Ended(s.log, t)
    ensures Ended(After(s, actions).log, t) && Targ(After(s, actions), t).kind == Targ(s, t).kind
    decreases |actions|
  {
    hide Watched, Watch, Ended, Answers, Inv, Quiet, Apply;
    if |actions| > 0 {
      StepKeeps(s, actions[0]);
      StepAnswers(s, actions[0], t);
      AnswersKeeps(s, Apply(s, actions[0]), t);
      RunEnded(Apply(s, actions[0]), actions[1..], t);
    }
  }

  // ---------- What the end of a response releases ----------

  // END_RESP from a target's queue: a deferred response goes out, before any END_REQ that has been held back;
  // without one the END_REQ goes out at once. Nothing is left deferred
  lemma EndRespReleases(s0: System, actions: seq<Action>, s: System, t: nat, x: Trans, rnd: nat, acc: nat, lat: nat)
    requires Reaches(s0, actions, s) && Enabled(s, TargPeq(t, x, rnd, acc, lat)) && At(s, t, x, PeqEnd)
    ensures var s', g := Apply(s, TargPeq(t, x, rnd, acc, lat)), Targ(s, t);
            && Targ(s', t).nextRsp == None && Targ(s', t).endReqPending == None
            && if g.nextRsp.Some?
               then s.log + [Event(TargHop(t), g.nextRsp.value, Backward(BeginResp), s.now)] <= s'.log
               else if g.endReqPending.Some?
               then s.log + [Event(TargHop(t), g.endReqPending.value, Backward(EndReq), s.now + acc)] <= s'.log
               else s'.log == s.log
  {
    hide Inv, Good, Quiet, Unblock, SendDeferred, TakeEnd, TargetCallback;
    ReachedIsSound(s0, actions, s);
    CallbackReleases(s, t, x, rnd, acc, lat);
    TakeEndLeaves(s, t, x);
    ReleasesFirst(TakeEnd(s, t, x), t, rnd, acc, lat);
    NothingDeferred(s, t, x, rnd, acc, lat);
  }

  lemma CallbackReleases(s: System, t: nat, x: Trans, rnd: nat, acc: nat, lat: nat)
    requires Good(s) && At(s, t, x, PeqEnd)
    ensures TargetCallback(s, t, x, rnd, acc, lat)
            == Unblock(SendDeferred(TakeEnd(s, t, x), t, rnd, acc, lat), t, acc, lat)
  {
    hide Good, TakeEndResp, SendDeferred, Unblock, TakeEnd, TargetCallback;
    TargetCallbackIs(s, t, x, rnd, acc, lat);
    TakeEndRespIs(s, t, x, rnd, acc, lat);
  }

  lemma NothingDeferred(s: System, t: nat, x: Trans, rnd: nat, acc: nat, lat: nat)
    requires Good(s) && Quiet(s) && At(s, t, x, PeqEnd) && s.minLatency <= lat
    ensures var s' := Unblock(SendDeferred(TakeEnd(s, t, x), t, rnd, acc, lat), t, acc, lat);
            Targ(s', t).nextRsp == None && Targ(s', t).endReqPending == None
  {
    hide Good, Quiet, SendDeferred, Unblock, TakeEnd, NonePasses, Even;
    TakeEndNext(s, t, Tok(s, x).init, x);
    SendDeferredKeeps(TakeEnd(s, t, x), t, rnd, acc, lat);
    UnblockKeeps(SendDeferred(TakeEnd(s, t, x), t, rnd, acc, lat), t, acc, lat);
  }

  lemma TakeEndLeaves(s: System, t: nat, x: Trans)
    ensures var s', g, g' := TakeEnd(s, t, x), Targ(s, t), Targ(TakeEnd(s, t, x), t);
            s'.log == s.log && s'.now == s.now && g'.nextRsp == g.nextRsp && g'.endReqPending == g.endReqPending
  {
  }

  lemma ReleasesFirst(s: System, t: nat, rnd: nat, acc: nat, lat: nat)
    ensures var s', g := Unblock(SendDeferred(s, t, rnd, acc, lat), t, acc, lat), Targ(s, t);
            if g.nextRsp.Some?
            then s.log + [Event(TargHop(t), g.nextRsp.value, Backward(BeginResp), s.now)] <= s'.log
            else if g.endReqPending.Some?
            then s.log + [Event(TargHop(t), g.endReqPending.value, Backward(EndReq), s.now + acc)] <= s'.log
            else s'.log == s.log
  {
    hide SendResponse, Unblock, SendEndReq;
    var g := Targ(s, t);
    if g.nextRsp.Some? {
      var y, s1 := g.nextRsp.value, SendDeferred(s, t, rnd, acc, lat);
      SendResponseNoResp(Resume(s, t, y), t, y, rnd, acc, lat, t);
      UnblockNoResp(s1, t, acc, lat, t);
      assert Out(Resume(s, t, y), t, y, 0).log <= s1.log <= Unblock(s1, t, acc, lat).log;
    } else {
      UnblockSends(s, t, acc, lat);
    }
  }

  lemma UnblockSends(s: System, t: nat, acc: nat, lat: nat)
    ensures var s', g := Unblock(s, t, acc, lat), Targ(s, t);
            if g.endReqPending.Some?
            then s.log + [Event(TargHop(t), g.endReqPending.value, Backward(EndReq), s.now + acc)] <= s'.log
            else s' == s
  {
  }

  // ---------- Traces ----------

  // On the hop of a target of type A or B, every response of every transaction comes right after its BEGIN_REQ and
  // END_REQ, and the trace is made of lifetimes
  lemma EndReqBeforeEveryResponse(s0: System, actions: seq<Action>, s: System, t: nat, x: Trans)
    requires Reaches(s0, actions, s) && Pipelined(Targ(s0, t).kind)
    ensures var trace := Trace(s.log, TargHop(t), x); Conforms(trace) && Explicit(trace)
  {
    hide Watch, Inv, Watched;
    InitialKeeps(s0);
    RunEnded(s0, actions, t);
    TracesConform(s0, actions, s, TargHop(t), x);
    EndedIsExplicit(s.log, TargHop(t), x);
  }
}
