/** Requests and responses pass through the interconnect in the order in which they came. */
module AtOrder {
  import opened Tlm
  import opened AtSystem
  import opened AtInvariant
  import opened AtKeeps

  type Lists = map<nat, seq<Trans>>
  type Queues = map<nat, seq<Queued>>

  // What came to the sockets of one side, what went on, what still waits, and which sockets have their slot taken
  datatype Flow = Flow(came: Lists, went: Lists, waiting: Queues, busy: set<nat>)

  function Requests(s: System): Flow {
    Flow(s.arrived, s.forwarded, s.ic.reqQueue, s.ic.reqSlot.Keys)
  }

  function Responses(s: System): Flow {
    Flow(s.ready, s.delivered, s.ic.rspQueue, s.ic.rspSlot.Keys)
  }

  // Everything that came, in order, is everything that went and then everything that waits;
  // nothing waits for a free slot
  ghost predicate InOrder(f: Flow) {
    forall k :: && Listed(f.came, k) == Listed(f.went, k) + TransOf(Queue(f.waiting, k))
                && (Queue(f.waiting, k) != [] ==> k in f.busy)
  }

  function Waits(f: Flow, k: nat, e: Queued): Flow {
    f.(came := List(f.came, k, e.trans), waiting := f.waiting[k := Queue(f.waiting, k) + [e]])
  }

  function Passes(f: Flow, k: nat, x: Trans, busy: set<nat>): Flow {
    f.(came := List(f.came, k, x), went := List(f.went, k, x), busy := busy)
  }

  function Leaves(f: Flow, k: nat): Flow
    requires Queue(f.waiting, k) != []
  {
    var q := Queue(f.waiting, k);
    f.(went := List(f.went, k, q[0].trans), waiting := f.waiting[k := q[1..]], busy := f.busy + {k})
  }

  lemma WaitsKeeps(f: Flow, k: nat, e: Queued)
    requires InOrder(f) && k in f.busy
    ensures InOrder(Waits(f, k, e))
  {
    var q := Queue(f.waiting, k);
    forall j ensures Listed(Waits(f, k, e).came, j) == Listed(f.went, j) + TransOf(Queue(Waits(f, k, e).waiting, j)) {
      assert Listed(f.came, j) == Listed(f.went, j) + TransOf(Queue(f.waiting, j));
      if j == k { TransOfPush(Listed(f.went, k), q, e); }
    }
  }

  lemma PassesKeeps(f: Flow, k: nat, x: Trans, busy: set<nat>)
    requires InOrder(f) && k !in f.busy && f.busy <= busy
    ensures InOrder(Passes(f, k, x, busy))
  {
    var f' := Passes(f, k, x, busy);
    forall j ensures Listed(f'.came, j) == Listed(f'.went, j) + TransOf(Queue(f.waiting, j)) {
      assert Listed(f.came, j) == Listed(f.went, j) + TransOf(Queue(f.waiting, j));
    }
  }

  lemma LeavesKeeps(f: Flow, k: nat)
    requires InOrder(f) && Queue(f.waiting, k) != []
    ensures InOrder(Leaves(f, k))
  {
    var f' := Leaves(f, k);
    forall j ensures Listed(f'.came, j) == Listed(f'.went, j) + TransOf(Queue(f'.waiting, j)) {
      assert Listed(f.came, j) == Listed(f.went, j) + TransOf(Queue(f.waiting, j));
      if j == k { TransOfPop(Listed(f.went, k), Queue(f.waiting, k)); }
    }
    forall j | Queue(f'.waiting, j) != [] ensures j in f'.busy {
      if j != k { assert Queue(f.waiting, j) != []; }
    }
  }

  lemma TransOfPush(a: seq<Trans>, q: seq<Queued>, e: Queued)
    ensures a + TransOf(q + [e]) == (a + TransOf(q)) + [e.trans]
  {
    assert TransOf(q + [e]) == TransOf(q) + [e.trans];
  }

  lemma TransOfPop(a: seq<Trans>, q: seq<Queued>)
    requires q != []
    ensures a + TransOf(q) == (a + [q[0].trans]) + TransOf(q[1..])
  {
    assert TransOf(q) == [q[0].trans] + TransOf(q[1..]);
  }

  // ---------- Parts of steps ----------

  predicate SameFlow(s: System, s': System) {
    Requests(s') == Requests(s) && Responses(s') == Responses(s)
  }

  lemma ForwardFlow(s: System, t: nat, x: Trans, delay: nat, acc: nat, lat: nat)
    ensures var s' := ForwardReq(s, t, x, delay, acc, lat).s;
            && Requests(s') == Requests(s).(went := List(s.forwarded, t, x), busy := s.ic.reqSlot.Keys + {t})
            && Responses(s') == Responses(s)
  {
    var s1 := OpenReq(s, t, x, delay);
    var o := TargetBeginReq(s1, t, x, delay, acc, lat);
    TargetBeginReqEffect(s1, t, x, delay, acc, lat);
    OnReplyFlow(o.s, t, x, o.r);
  }

  lemma OnReplyFlow(s: System, t: nat, x: Trans, r: Reply)
    ensures SameFlow(s, OnReply(s, t, x, r))
  {
    if r.status.Updated? {
      assert OnReply(s, t, x, r) == NotifyEndReq(Show(s, TargHop(t), x, Backward(r.phase), r.delay), t);
    } else if r.status.Completed? {
      var s1 := NotifyEndReq(Show(s, TargHop(t), x, FwCompleted(true), r.delay), t);
      assert OnReply(s, t, x, r) == StopForward(s1, x);
    }
  }

  lemma EndOnTargetFlow(s: System, x: Trans, delay: nat)
    ensures SameFlow(s, EndOnTarget(s, x, delay).s)
  {
    if !RouteOf(s, x).dontPropagateFw { PassEndRespFlow(s, RouteOf(s, x).target, x, delay); }
  }

  lemma PassEndRespFlow(s: System, t: nat, x: Trans, delay: nat)
    ensures SameFlow(s, PassEndResp(s, t, x, delay).s)
  {
    var s1 := Show(s, TargHop(t), x, Forward(EndResp), delay);
    var o := TargetEndResp(s1, t, x, delay);
    TargetEndRespFlow(s1, t, x, delay);
    hide TargetEndResp;
    assert SameFlow(s, o.s);
  }

  lemma TargetEndRespFlow(s: System, t: nat, x: Trans, delay: nat)
    ensures SameFlow(s, TargetEndResp(s, t, x, delay).s)
  {
    assert SameFlow(s, TargetClears(s, t, x, delay).s);
    assert SameFlow(s, TargetPostEnd(s, t, x, delay).s);
    hide TargetClears, TargetPostEnd;
  }

  // BEGIN_RESP goes to initiator i
  predicate Delivered(s: System, s': System, i: nat, x: Trans) {
    && Requests(s') == Requests(s)
    && Responses(s') == Responses(s).(went := List(s.delivered, i, x), busy := s.ic.rspSlot.Keys + {i})
  }

  lemma DeliverFlow(s: System, i: nat, x: Trans, delay: nat, rnd: nat)
    ensures Delivered(s, DeliverRsp(s, i, x, delay, rnd).s, i, x)
  {
    assert Delivered(s, DeliverToA(s, i, x, delay), i, x);
    assert Delivered(s, DeliverToB(s, i, x, delay, rnd), i, x);
  }

  lemma SendRspBwFlow(s: System, i: nat, x: Trans, delay: nat, rnd: nat)
    ensures Delivered(s, SendRspBw(s, i, x, delay, rnd), i, x)
  {
    var o := DeliverRsp(s, i, x, delay, rnd);
    DeliverFlow(s, i, x, delay, rnd);
    if o.r.status == Completed {
      EndOnTargetFlow(o.s, x, o.r.delay);
      assert SameFlow(o.s, RelayEnd(o.s, x, o.r.delay));
    }
  }

  // Response x comes for initiator i: it waits or passes
  ghost predicate Routes(s: System, s': System, i: nat, x: Trans) {
    && Requests(s') == Requests(s)
    && if i in s.ic.rspSlot then exists time: nat :: Responses(s') == Waits(Responses(s), i, Queued(x, time))
       else exists busy :: s.ic.rspSlot.Keys <= busy && Responses(s') == Passes(Responses(s), i, x, busy)
  }

  ghost predicate Responds(s: System, s': System) {
    SameFlow(s, s') || exists i, x :: Routes(s, s', i, x)
  }

  lemma RespondsKeeps(s: System, s': System)
    requires Responds(s, s') && InOrder(Requests(s)) && InOrder(Responses(s))
    ensures InOrder(Requests(s')) && InOrder(Responses(s'))
  {
    if !SameFlow(s, s') {
      var i, x :| Routes(s, s', i, x);
      if i in s.ic.rspSlot {
        var time: nat :| Responses(s') == Waits(Responses(s), i, Queued(x, time));
        WaitsKeeps(Responses(s), i, Queued(x, time));
      } else {
        var busy :| s.ic.rspSlot.Keys <= busy && Responses(s') == Passes(Responses(s), i, x, busy);
        PassesKeeps(Responses(s), i, x, busy);
      }
    }
  }

  lemma SameResponds(s: System, s': System)
    requires SameFlow(s, s')
    ensures Responds(s, s')
  {
  }

  lemma RespondsAround(s: System, s1: System, s2: System, s': System)
    requires SameFlow(s, s1) && Responds(s1, s2) && SameFlow(s2, s')
    ensures Responds(s, s')
  {
    if !SameFlow(s1, s2) {
      var i, x :| Routes(s1, s2, i, x);
      assert i in s1.ic.rspSlot <==> i in s.ic.rspSlot by { assert Responses(s).busy == Responses(s1).busy; }
      assert Routes(s, s', i, x);
    }
  }

  // Ready, then queue or deliver
  lemma QueuesFlow(s: System, i: nat, x: Trans, delay: nat)
    requires i in s.ic.rspSlot
    ensures Routes(s, QueueRsp(Ready(s, i, x), i, x, delay), i, x)
  {
    var s' := QueueRsp(Ready(s, i, x), i, x, delay);
    assert Responses(s') == Waits(Responses(s), i, Queued(x, s.now + delay));
  }

  lemma PassesFlow(s: System, s': System, i: nat, x: Trans)
    requires i !in s.ic.rspSlot && Delivered(Ready(s, i, x), s', i, x)
    ensures Routes(s, s', i, x)
  {
    assert Responses(s') == Passes(Responses(s), i, x, s.ic.rspSlot.Keys + {i});
  }

  lemma RouteResponseFlow(s: System, t: nat, i: nat, x: Trans, delay: nat, rnd: nat)
    ensures Routes(s, RouteResponse(Ready(s, i, x), t, i, x, delay, rnd).s, i, x)
  {
    var s1 := Ready(s, i, x);
    if i in s.ic.rspSlot {
      QueuesFlow(s, i, x, delay);
    } else {
      var o := DeliverRsp(s1, i, x, delay + EXTRA_RESPONSE_DELAY, rnd);
      DeliverFlow(s1, i, x, delay + EXTRA_RESPONSE_DELAY, rnd);
      var s' := Move(Show(o.s, TargHop(t), x, BwCompleted, o.r.delay), x, Closed);
      assert SameFlow(o.s, s');
      PassesFlow(s, if o.r.status == Completed then s' else o.s, i, x);
    }
  }

  lemma IcBeginRespFlow(s: System, t: nat, x: Trans, delay: nat, rnd: nat)
    ensures Responds(s, IcBeginResp(s, t, x, delay, rnd).s)
  {
    var i := RouteOf(s, x).init;
    var s1 := Move(Show(s, TargHop(t), x, Backward(BeginResp), delay), x, RspReady);
    var s2 := if t in s1.ic.reqSlot && s1.ic.reqSlot[t] == x then NotifyEndReq(s1, t) else s1;
    var s3 := Check(s2, x in s2.ic.ext);
    var o := IcBeginResp(s, t, x, delay, rnd);
    assert SameFlow(s, s3);
    assert EnterResponse(s, t, x, delay) == Ready(s3, i, x);
    RouteResponseFlow(s3, t, i, x, delay, rnd);
    RespondsAround(s, s3, o.s, o.s);
  }

  // ---------- The targets' callbacks ----------

  lemma SendEndReqFlow(s: System, t: nat, x: Trans, acc: nat, lat: nat)
    ensures SameFlow(s, SendEndReq(s, t, x, acc, lat))
  {
    var s1 := NotifyEndReq(Show(s, TargHop(t), x, Backward(EndReq), acc), t);
    assert SameFlow(s, s1);
    assert SameFlow(s1, IcEndReq(s, t, x, acc));
  }

  lemma UnblockFlow(s: System, t: nat, acc: nat, lat: nat)
    ensures SameFlow(s, Unblock(s, t, acc, lat))
  {
    if Targ(s, t).endReqPending.Some? {
      var y := Targ(s, t).endReqPending.value;
      assert SameFlow(s, Undefer(s, t, y));
      SendEndReqFlow(Undefer(s, t, y), t, y, acc, lat);
    }
  }

  lemma FinishFlow(s: System, t: nat, x: Trans)
    ensures SameFlow(s, Finish(s, t, x))
  {
  }

  lemma SendResponseFlow(s: System, t: nat, x: Trans, rnd: nat, acc: nat, lat: nat)
    ensures Responds(s, SendResponse(s, t, x, rnd, acc, lat))
  {
    var s1 := StartResponse(s, t, x);
    var o := IcBeginResp(s1, t, x, 0, rnd);
    assert SameFlow(s, s1);
    IcBeginRespFlow(s1, t, x, 0, rnd);
    FinishFlow(o.s, t, x);
    UnblockFlow(Finish(o.s, t, x), t, acc, lat);
    RespondsAround(s, s1, o.s, SendResponse(s, t, x, rnd, acc, lat));
  }

  lemma TakeReqFlow(s: System, t: nat, x: Trans, acc: nat, lat: nat)
    ensures SameFlow(s, TakeReq(s, t, x, acc, lat))
  {
    var g := Targ(s, t);
    if !g.kind.TypeC? && g.nTrans != 2 {
      assert SameFlow(s, AcceptReq(s, t, x));
      SendEndReqFlow(AcceptReq(s, t, x), t, x, acc, lat);
      assert TakeReq(s, t, x, acc, lat) == SendEndReq(AcceptReq(s, t, x), t, x, acc, lat);
    }
  }

  lemma TakeInternalFlow(s: System, t: nat, x: Trans, rnd: nat, acc: nat, lat: nat)
    ensures Responds(s, TakeInternal(s, t, x, rnd, acc, lat))
  {
    var s1, s' := Execute(s, t, x), TakeInternal(s, t, x, rnd, acc, lat);
    assert SameFlow(s, s1);
    SendResponseFlow(s1, t, x, rnd, acc, lat);
    if !Targ(s, t).responding { RespondsAround(s, s1, s', s'); }
  }

  lemma TakeEndRespFlow(s: System, t: nat, x: Trans, rnd: nat, acc: nat, lat: nat)
    ensures Responds(s, TakeEndResp(s, t, x, rnd, acc, lat))
  {
    var g := Targ(s, t);
    var s0 := PutTarg(Check(s, g.responding), t, g.(peq := Take(g.peq, x)));
    var s1 := Finish(s0, t, x);
    var s2 := SendDeferred(s1, t, rnd, acc, lat);
    assert SameFlow(s, s0);
    FinishFlow(s0, t, x);
    SendDeferredFlow(s1, t, rnd, acc, lat);
    UnblockFlow(s2, t, acc, lat);
    RespondsAround(s, s1, s2, TakeEndResp(s, t, x, rnd, acc, lat));
  }

  lemma SendDeferredFlow(s: System, t: nat, rnd: nat, acc: nat, lat: nat)
    ensures Responds(s, SendDeferred(s, t, rnd, acc, lat))
  {
    if Targ(s, t).nextRsp.Some? {
      var y := Targ(s, t).nextRsp.value;
      var s1, s' := Resume(s, t, y), SendDeferred(s, t, rnd, acc, lat);
      assert SameFlow(s, s1);
      SendResponseFlow(s1, t, y, rnd, acc, lat);
      RespondsAround(s, s1, s', s');
    }
  }

  lemma TargetCallbackFlow(s: System, t: nat, x: Trans, rnd: nat, acc: nat, lat: nat)
    ensures Responds(s, TargetCallback(s, t, x, rnd, acc, lat))
  {
    hide TakeReq, TakeEndResp, TakeInternal;
    var s' := TargetCallback(s, t, x, rnd, acc, lat);
    var lane := Lane(Targ(s, t).peq, x);
    if lane == [] {
      assert s' == s;
    } else if lane[0].phase == BeginReq {
      assert s' == TakeReq(s, t, x, acc, lat);
      TakeReqFlow(s, t, x, acc, lat);
    } else if lane[0].phase == EndResp {
      assert s' == TakeEndResp(s, t, x, rnd, acc, lat);
      TakeEndRespFlow(s, t, x, rnd, acc, lat);
    } else if lane[0].phase == Internal {
      assert s' == TakeInternal(s, t, x, rnd, acc, lat);
      TakeInternalFlow(s, t, x, rnd, acc, lat);
    } else {
      assert s' == Check(s, false);
    }
  }

  lemma DeferredResponseFlow(s: System, t: nat, rnd: nat)
    ensures Responds(s, DeferredResponse(s, t, rnd))
  {
    hide Finish, IcBeginResp, Responds, InOrder;
    var g := Targ(s, t);
    if g.nextRsp.Some? {
      var x := g.nextRsp.value;
      var s1 := StartResponse(Resume(s, t, x), t, x);
      var o := IcBeginResp(s1, t, x, Since(g.nextTime, s.now), rnd);
      assert SameFlow(s, s1);
      IcBeginRespFlow(s1, t, x, Since(g.nextTime, s.now), rnd);
      FinishFlow(o.s, t, x);
      RespondsAround(s, s1, o.s, DeferredResponse(s, t, rnd));
    } else {
      SameResponds(s, DeferredResponse(s, t, rnd));
    }
  }

  // ---------- The initiators ----------

  lemma InitCallbackFlow(s: System, i: nat, x: Trans, rnd: nat)
    ensures SameFlow(s, InitCallback(s, i, x, rnd))
  {
    hide TakeEndReq, CompleteResp;
    var lane := Lane(Init(s, i).peq, x);
    if lane == [] {
      assert InitCallback(s, i, x, rnd) == s;
    } else if lane[0].phase == EndReq {
      TakeEndReqFlow(s, i, x);
      assert InitCallback(s, i, x, rnd) == TakeEndReq(s, i, x);
    } else if lane[0].phase == BeginResp {
      CompleteRespFlow(s, i, x, rnd);
      assert InitCallback(s, i, x, rnd) == CompleteResp(s, i, x, rnd);
    } else {
      assert InitCallback(s, i, x, rnd) == Check(s, false);
    }
  }

  lemma TakeEndReqFlow(s: System, i: nat, x: Trans)
    ensures SameFlow(s, TakeEndReq(s, i, x))
  {
  }

  lemma CompleteRespFlow(s: System, i: nat, x: Trans, rnd: nat)
    ensures SameFlow(s, CompleteResp(s, i, x, rnd))
  {
    var s1 := TakeBeginResp(s, i, x);
    assert SameFlow(s, s1);
    IcEndRespFlow(s1, i, x, rnd);
    hide IcEndResp, TakeBeginResp;
  }

  lemma IcEndRespFlow(s: System, i: nat, x: Trans, delay: nat)
    ensures SameFlow(s, IcEndResp(s, i, x, delay))
  {
    var s1 := EndRsp(s, i, x, delay);
    var o := EndOnTarget(s1, x, delay);
    EndRspFlow(s, i, x, delay);
    EndOnTargetFlow(s1, x, delay);
    var s' := Show(o.s, InitHop(i), x, FwCompleted(false), o.r.delay);
    assert IcEndResp(s, i, x, delay) == if o.r.status == Completed then s' else o.s;
  }

  lemma EndRspFlow(s: System, i: nat, x: Trans, delay: nat)
    ensures SameFlow(s, EndRsp(s, i, x, delay))
  {
    assert SameFlow(s, Move(Show(s, InitHop(i), x, Forward(EndResp), delay), x, Closing));
  }

  lemma ReturnToInitFlow(s: System, i: nat, x: Trans, r: Reply)
    ensures Responds(s, ReturnToInit(s, i, x, r))
  {
    hide ReturnUpdated, ReturnResp, ReturnCompleted, QueueRsp, Ready, Routes;
    var s', s1 := ReturnToInit(s, i, x, r), Ready(s, i, x);
    ReadySlots(s, i, x);
    if r.status == Accepted {
      assert s' == s;
    } else if r.status == Updated && r.phase == EndReq {
      ReturnUpdatedFlow(s, i, x, r);
      assert s' == ReturnUpdated(s, i, x, r);
    } else if i in s.ic.rspSlot {
      QueuesFlow(s, i, x, r.delay);
      assert s' == QueueRsp(s1, i, x, r.delay);
    } else if r.status == Updated {
      ReturnRespFlow(s1, i, x, r);
      PassesFlow(s, ReturnResp(s1, i, x, r), i, x);
      assert s' == ReturnResp(s1, i, x, r);
    } else {
      ReturnCompletedFlow(s, i, x, r);
      assert s' == ReturnCompleted(s1, i, x, r);
    }
  }

  lemma ReadySlots(s: System, i: nat, x: Trans)
    ensures Ready(s, i, x).ic == s.ic
  {
  }

  lemma ReturnUpdatedFlow(s: System, i: nat, x: Trans, r: Reply)
    ensures SameFlow(s, ReturnUpdated(s, i, x, r))
  {
  }

  lemma ReturnRespFlow(s: System, i: nat, x: Trans, r: Reply)
    ensures Delivered(s, ReturnResp(s, i, x, r), i, x)
  {
  }

  lemma ReturnCompletedFlow(s: System, i: nat, x: Trans, r: Reply)
    requires i !in s.ic.rspSlot
    ensures Routes(s, ReturnCompleted(Ready(s, i, x), i, x, r), i, x)
  {
    assert Responses(ReturnCompleted(Ready(s, i, x), i, x, r)) == Passes(Responses(s), i, x, s.ic.rspSlot.Keys);
  }

  lemma IssueOrder(s: System, i: nat, t: nat, delay: nat, acc: nat, lat: nat)
    requires InOrder(Requests(s)) && InOrder(Responses(s))
    ensures var s' := Issue(s, i, t, delay, acc, lat); InOrder(Requests(s')) && InOrder(Responses(s'))
  {
    hide SendReq, QueueReq, ForwardReq, ReturnToInit, InOrder;
    if Init(s, i).held.Some? {
      var x := Init(s, i).held.value;
      var s1 := SendReq(s, i, t, x, delay);
      SendReqFlow(s, i, t, x, delay);
      if t in s.ic.reqSlot {
        IssueWaits(s, i, t, x, delay);
        assert Issue(s, i, t, delay, acc, lat) == QueueReq(s1, t, x, delay);
      } else {
        var o := ForwardReq(s1, t, x, delay, acc, lat);
        IssuePasses(s, i, t, x, delay, acc, lat);
        ReturnToInitFlow(o.s, i, x, o.r);
        RespondsKeeps(o.s, ReturnToInit(o.s, i, x, o.r));
        assert Issue(s, i, t, delay, acc, lat) == ReturnToInit(o.s, i, x, o.r);
      }
    }
  }

  lemma SendReqFlow(s: System, i: nat, t: nat, x: Trans, delay: nat)
    ensures SendReq(s, i, t, x, delay).ic.reqSlot == s.ic.reqSlot
  {
  }

  lemma IssueWaits(s: System, i: nat, t: nat, x: Trans, delay: nat)
    requires InOrder(Requests(s)) && InOrder(Responses(s)) && t in s.ic.reqSlot
    ensures var s' := QueueReq(SendReq(s, i, t, x, delay), t, x, delay); InOrder(Requests(s')) && InOrder(Responses(s'))
  {
    hide InOrder;
    var s' := QueueReq(SendReq(s, i, t, x, delay), t, x, delay);
    assert Requests(s') == Waits(Requests(s), t, Queued(x, s.now + delay)) && Responses(s') == Responses(s);
    WaitsKeeps(Requests(s), t, Queued(x, s.now + delay));
  }

  lemma IssuePasses(s: System, i: nat, t: nat, x: Trans, delay: nat, acc: nat, lat: nat)
    requires InOrder(Requests(s)) && InOrder(Responses(s)) && t !in s.ic.reqSlot
    ensures var s' := ForwardReq(SendReq(s, i, t, x, delay), t, x, delay, acc, lat).s;
            InOrder(Requests(s')) && InOrder(Responses(s'))
  {
    hide InOrder, ForwardReq;
    var s1 := SendReq(s, i, t, x, delay);
    var o := ForwardReq(s1, t, x, delay, acc, lat);
    ForwardFlow(s1, t, x, delay, acc, lat);
    assert Requests(o.s) == Passes(Requests(s), t, x, s.ic.reqSlot.Keys + {t}) && Responses(o.s) == Responses(s);
    PassesKeeps(Requests(s), t, x, s.ic.reqSlot.Keys + {t});
  }

  // ---------- The processes of the interconnect ----------

  // A run of end_rsp_process takes the head of the queue, or ends the response
  lemma EndRspProcessFlow(s: System, i: nat, rnd: nat)
    ensures var s', q := EndRspProcess(s, i, rnd), Queue(s.ic.rspQueue, i);
            && Requests(s') == Requests(s)
            && Responses(s') == if q == [] then Responses(s).(busy := s.ic.rspSlot.Keys - {i})
                 else Leaves(Responses(s), i)
  {
    hide DeliverNext;
    var q := Queue(s.ic.rspQueue, i);
    if q != [] {
      var s1 := Check(s, i in s.ic.rspSlot);
      DeliverNextFlow(s1, i, Since(q[0].time, s.now), rnd);
    }
  }

  lemma DeliverNextFlow(s: System, i: nat, delay: nat, rnd: nat)
    requires Queue(s.ic.rspQueue, i) != []
    ensures var s' := DeliverNext(s, i, Queue(s.ic.rspQueue, i)[0].trans, delay, rnd);
            Requests(s') == Requests(s) && Responses(s') == Leaves(Responses(s), i)
  {
    hide SendRspBw;
    SendRspBwFlow(PopRsp(s, i), i, Queue(s.ic.rspQueue, i)[0].trans, delay, rnd);
  }

  // A run of end_req_process takes the head of the queue, or ends the request
  lemma EndReqProcessFlow(s: System, t: nat, acc: nat, lat: nat, rnd: nat) returns (mid: System)
    ensures var s', q := EndReqProcess(s, t, acc, lat, rnd), Queue(s.ic.reqQueue, t);
            && Requests(s') == (if q == [] then Requests(s).(busy := s.ic.reqSlot.Keys - {t})
                 else Leaves(Requests(s), t))
            && Requests(mid) == Requests(s') && Responds(mid, s')
    ensures Responses(mid) == Responses(s)
  {
    hide ForwardNext, Responds;
    var q := Queue(s.ic.reqQueue, t);
    var s1 := Check(s, t in s.ic.reqSlot);
    if q == [] {
      mid := ClearReqSlot(s1, t);
      RespondsNothing(mid);
    } else {
      mid := ForwardNextFlow(s1, t, Since(q[0].time, s.now), acc, lat, rnd);
    }
  }

  lemma ForwardNextFlow(s: System, t: nat, delay: nat, acc: nat, lat: nat, rnd: nat) returns (mid: System)
    requires Queue(s.ic.reqQueue, t) != []
    ensures var s' := ForwardNext(s, t, Queue(s.ic.reqQueue, t)[0].trans, delay, acc, lat, rnd);
            Requests(s') == Leaves(Requests(s), t) && Responds(mid, s')
    ensures Responses(mid) == Responses(s) && Requests(mid) == Leaves(Requests(s), t)
  {
    hide PopReq, ForwardReq, AfterForward, Responds, Leaves, Check, Requests, Responses, RouteOf;
    var x := Queue(s.ic.reqQueue, t)[0].trans;
    var s1 := Check(s, x in s.ic.ext && RouteOf(s, x).target == t);
    var o := ForwardReq(PopReq(s1, t), t, x, delay, acc, lat);
    mid := o.s;
    CheckFlow(s, x in s.ic.ext && RouteOf(s, x).target == t);
    PopAndForwardFlow(s1, t, delay, acc, lat);
    AfterForwardFlow(o, RouteOf(s, x).init, x, rnd);
  }

  lemma CheckFlow(s: System, ok: bool)
    ensures Requests(Check(s, ok)) == Requests(s) && Responses(Check(s, ok)) == Responses(s) && Check(s, ok).ic == s.ic
  {
  }

  lemma PopAndForwardFlow(s: System, t: nat, delay: nat, acc: nat, lat: nat)
    requires Queue(s.ic.reqQueue, t) != []
    ensures var s' := ForwardReq(PopReq(s, t), t, Queue(s.ic.reqQueue, t)[0].trans, delay, acc, lat).s;
            Requests(s') == Leaves(Requests(s), t) && Responses(s') == Responses(s)
  {
    hide PopReq, ForwardReq;
    PopReqFlow(s, t);
    ForwardFlow(PopReq(s, t), t, Queue(s.ic.reqQueue, t)[0].trans, delay, acc, lat);
  }

  lemma AfterForwardFlow(o: Outcome, i: nat, x: Trans, rnd: nat)
    ensures Responds(o.s, AfterForward(o, i, x, rnd)) && Requests(AfterForward(o, i, x, rnd)) == Requests(o.s)
  {
    hide SendBwAfterRequest;
    SendBwAfterRequestFlow(o.s, i, x, o.r, rnd);
  }

  lemma RespondsNothing(s: System)
    ensures Responds(s, s)
  {
  }

  lemma PopReqFlow(s: System, t: nat)
    requires Queue(s.ic.reqQueue, t) != []
    ensures var s' := PopReq(s, t);
            && Requests(s') == Requests(s).(waiting := s.ic.reqQueue[t := Queue(s.ic.reqQueue, t)[1..]])
            && s'.forwarded == s.forwarded && s'.ic.reqSlot == s.ic.reqSlot && Responses(s') == Responses(s)
  {
  }

  lemma SendBwAfterRequestFlow(s: System, i: nat, x: Trans, r: Reply, rnd: nat)
    ensures Responds(s, SendBwAfterRequest(s, i, x, r, rnd))
    ensures Requests(SendBwAfterRequest(s, i, x, r, rnd)) == Requests(s)
  {
    var s', s1 := SendBwAfterRequest(s, i, x, r, rnd), Ready(s, i, x);
    if r.status == Accepted {
    } else if r.status == Updated && r.phase == EndReq {
    } else if i in s.ic.rspSlot {
      QueuesFlow(s, i, x, r.delay);
      assert Routes(s, s', i, x);
    } else {
      SendRspBwFlow(s1, i, x, r.delay, rnd);
      PassesFlow(s, s', i, x);
    }
  }

  // ---------- Every step ----------

  lemma ClearsKeeps(f: Flow, k: nat)
    requires InOrder(f) && Queue(f.waiting, k) == []
    ensures InOrder(f.(busy := f.busy - {k}))
  {
    forall j ensures Listed(f.came, j) == Listed(f.went, j) + TransOf(Queue(f.waiting, j)) {
      assert Listed(f.came, j) == Listed(f.went, j) + TransOf(Queue(f.waiting, j));
    }
  }

  lemma EndRspProcessOrder(s: System, i: nat, rnd: nat)
    requires InOrder(Requests(s)) && InOrder(Responses(s))
    ensures var s' := EndRspProcess(s, i, rnd); InOrder(Requests(s')) && InOrder(Responses(s'))
  {
    EndRspProcessFlow(s, i, rnd);
    if Queue(s.ic.rspQueue, i) == [] { ClearsKeeps(Responses(s), i); } else { LeavesKeeps(Responses(s), i); }
  }

  lemma EndReqProcessOrder(s: System, t: nat, acc: nat, lat: nat, rnd: nat)
    requires InOrder(Requests(s)) && InOrder(Responses(s))
    ensures var s' := EndReqProcess(s, t, acc, lat, rnd); InOrder(Requests(s')) && InOrder(Responses(s'))
  {
    var s' := EndReqProcess(s, t, acc, lat, rnd);
    var mid := EndReqProcessFlow(s, t, acc, lat, rnd);
    if Queue(s.ic.reqQueue, t) == [] { ClearsKeeps(Requests(s), t); } else { LeavesKeeps(Requests(s), t); }
    RespondsKeeps(mid, s');
  }

  lemma StepInOrder(s: System, a: Action)
    requires InOrder(Requests(s)) && InOrder(Responses(s))
    ensures InOrder(Requests(Apply(s, a))) && InOrder(Responses(Apply(s, a)))
  {
    match a
    case Allocates(i, x) => assert SameFlow(s, Allocate(s, i, x));
    case Issues(i, t, delay, acc, lat) => IssueOrder(s, i, t, delay, acc, lat);
    case InitPeq(i, x, rnd) => InitCallbackFlow(s, i, x, rnd);
    case TargPeq(t, x, rnd, acc, lat) =>
      TargetCallbackFlow(s, t, x, rnd, acc, lat);
      RespondsKeeps(s, TargetCallback(s, t, x, rnd, acc, lat));
    case RunsSendRsp(t, rnd) =>
      DeferredResponseFlow(s, t, rnd);
      RespondsKeeps(s, DeferredResponse(s, t, rnd));
    case RunsEndReq(t, acc, lat, rnd) => EndReqProcessOrder(s, t, acc, lat, rnd);
    case RunsEndRsp(i, rnd) => EndRspProcessOrder(s, i, rnd);
    case Tick(time) => assert SameFlow(s, s.(now := time));
  }

  lemma {:induction false} RunInOrder(s: System, actions: seq<Action>)
    requires InOrder(Requests(s)) && InOrder(Responses(s))
    ensures InOrder(Requests(After(s, actions))) && InOrder(Responses(After(s, actions)))
    decreases |actions|
  {
    if |actions| > 0 {
      StepInOrder(s, actions[0]);
      RunInOrder(Apply(s, actions[0]), actions[1..]);
    }
  }
}
