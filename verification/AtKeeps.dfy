/** Every move of a transaction from one stage to another keeps the invariant. */
module AtKeeps {
  import opened Tlm
  import opened AtSystem
  import opened AtInvariant
  import opened AtFrame

  // ---------- req_queue ----------

  // The target's side does not see x move within the response side
  lemma RspMoveSame(s: System, s': System, x: Trans, t: nat, i: nat)
    requires Tok(s, x) == Token(StageOf(s, x), i, t) && Tok(s', x) == Token(StageOf(s', x), i, t)
    requires StageOf(s, x) == StageOf(s', x)
             || (StageOf(s, x) in {RspReady, RspQueued, RspSent, Closing}
                 && StageOf(s', x) in {RspReady, RspQueued, RspSent, Closing})
    requires s'.targets == s.targets && s'.responder == s.responder
    requires s'.ic.reqSlot == s.ic.reqSlot && s'.ic.endReq == s.ic.endReq && s'.ic.reqQueue == s.ic.reqQueue
    ensures SameReqSide(s, s', t) && SameForReq(s, s', x, t) && SameTarget(s, s', t) && Seen(s', t, x) == Seen(s, t, x)
  {
  }

  lemma Unfailed(s: System)
    requires Inv(s)
    ensures !s.failed
  {
  }

  lemma QueueReqLocal(s: System, t: nat, i: nat, x: Trans, delay: nat)
    requires Tok(s, x) == Token(ReqReady, i, t) && t in s.ic.reqSlot
    ensures Local(s, QueueReq(s, t, x, delay), x, t, i)
  {
    hide Local;
    PushKept(Queue(s.ic.reqQueue, t), Queued(x, s.now + delay), x);
    IcLocal(s, QueueReq(s, t, x, delay), x, t, i);
  }

  lemma QueueReqSide(s: System, t: nat, i: nat, x: Trans, delay: nat)
    requires ReqSideOk(s, t) && Tok(s, x) == Token(ReqReady, i, t) && t in s.ic.reqSlot
    ensures ReqSideOk(QueueReq(s, t, x, delay), t)
  {
    var s' := QueueReq(s, t, x, delay);
    var q, q' := Queue(s.ic.reqQueue, t), Queue(s'.ic.reqQueue, t);
    assert q' == q + [Queued(x, s.now + delay)];
    forall k | 0 <= k < |q'| ensures At(s', t, q'[k].trans, ReqQueued) {
      if k < |q| { assert At(s, t, q[k].trans, ReqQueued); }
    }
  }

  lemma QueueReqIs(s: System, t: nat, i: nat, x: Trans, delay: nat)
    requires Tok(s, x) == Token(ReqReady, i, t)
    ensures var s', q := QueueReq(s, t, x, delay), Queue(s.ic.reqQueue, t) + [Queued(x, s.now + delay)];
            && Tok(s', x) == Token(ReqQueued, i, t) && Refs(s', x) == Refs(s, x) + 1
            && s'.targets == s.targets && s'.responder == s.responder && s'.inits == s.inits && s'.failed == s.failed
            && s'.ic == s.ic.(reqQueue := s.ic.reqQueue[t := q])
  {
  }

  lemma QueueReqTrans(s: System, t: nat, i: nat, x: Trans, delay: nat)
    requires TransOk(s, x) && Tok(s, x) == Token(ReqReady, i, t)
    ensures TransOk(QueueReq(s, t, x, delay), x)
  {
    hide QueueReq;
    QueueReqIs(s, t, i, x, delay);
    assert Queue(QueueReq(s, t, x, delay).ic.reqQueue, t)[|Queue(s.ic.reqQueue, t)|].trans == x;
  }

  lemma QueueReqSame(s: System, t: nat, i: nat, x: Trans, delay: nat)
    requires Tok(s, x) == Token(ReqReady, i, t)
    ensures var s' := QueueReq(s, t, x, delay);
            && SameTarget(s, s', t) && Seen(s', t, x) == Seen(s, t, x)
            && SameRspSide(s, s', i) && SameForRsp(s, s', x, i) && Init(s', i) == Init(s, i) && SameForInit(s, s', x, i)
  {
    hide QueueReq;
    QueueReqIs(s, t, i, x, delay);
  }

  lemma QueueReqKeeps(s: System, t: nat, i: nat, x: Trans, delay: nat)
    requires Inv(s) && Tok(s, x) == Token(ReqReady, i, t) && t in s.ic.reqSlot
    ensures Inv(QueueReq(s, t, x, delay)) && Local(s, QueueReq(s, t, x, delay), x, t, i)
  {
    hide Inv, Local, TransOk, TargOk, ReqSideOk, RspSideOk, InitOk, QueueReq;
    hide SameTarget, Seen, SameRspSide, SameForRsp, SameForInit;
    var s' := QueueReq(s, t, x, delay);
    Around(s, x, t, i);
    QueueReqIs(s, t, i, x, delay);
    QueueReqLocal(s, t, i, x, delay);
    QueueReqSide(s, t, i, x, delay);
    QueueReqTrans(s, t, i, x, delay);
    QueueReqSame(s, t, i, x, delay);
    TargStays(s, s', x, t, i, t);
    Unfailed(s);
    ConcludesAtTarget(s, s', x, t, i);
  }

  lemma PopReqLocal(s: System, t: nat, i: nat, x: Trans)
    requires Tok(s, x) == Token(ReqQueued, i, t)
    requires Queue(s.ic.reqQueue, t) != [] && Queue(s.ic.reqQueue, t)[0].trans == x
    ensures Local(s, PopReq(s, t), x, t, i)
  {
    hide Local;
    PopKept(Queue(s.ic.reqQueue, t), x);
    IcLocal(s, PopReq(s, t), x, t, i);
  }

  lemma PopReqSide(s: System, t: nat, i: nat, x: Trans)
    requires ReqSideOk(s, t) && Tok(s, x) == Token(ReqQueued, i, t)
    requires Queue(s.ic.reqQueue, t) != [] && Queue(s.ic.reqQueue, t)[0].trans == x
    ensures ReqSideOk(PopReq(s, t), t)
  {
    var s' := PopReq(s, t);
    var q, q' := Queue(s.ic.reqQueue, t), Queue(s'.ic.reqQueue, t);
    assert q' == q[1..];
    forall k | 0 <= k < |q'| ensures At(s', t, q'[k].trans, ReqQueued) {
      assert At(s, t, q[k + 1].trans, ReqQueued) && q[0].trans != q[k + 1].trans;
    }
    forall j, k | 0 <= j < k < |q'| ensures q'[j].trans != q'[k].trans {
      assert q[j + 1].trans != q[k + 1].trans;
    }
  }

  lemma PopReqIs(s: System, t: nat, i: nat, x: Trans)
    requires Tok(s, x) == Token(ReqQueued, i, t) && Queue(s.ic.reqQueue, t) != []
    requires Queue(s.ic.reqQueue, t)[0].trans == x
    ensures var s' := PopReq(s, t);
            && Tok(s', x) == Token(ReqReady, i, t) && Refs(s', x) == Refs(s, x)
            && s'.targets == s.targets && s'.responder == s.responder && s'.inits == s.inits && s'.failed == s.failed
            && s'.ic == s.ic.(reqQueue := s.ic.reqQueue[t := Queue(s.ic.reqQueue, t)[1..]])
  {
  }

  lemma PopReqTrans(s: System, t: nat, i: nat, x: Trans)
    requires TransOk(s, x) && Tok(s, x) == Token(ReqQueued, i, t)
    requires Queue(s.ic.reqQueue, t) != [] && Queue(s.ic.reqQueue, t)[0].trans == x
    ensures TransOk(PopReq(s, t), x) && Spare(PopReq(s, t), x) > 0
  {
    hide PopReq;
    PopReqIs(s, t, i, x);
  }

  lemma PopReqSame(s: System, t: nat, i: nat, x: Trans)
    requires Tok(s, x) == Token(ReqQueued, i, t)
    requires Queue(s.ic.reqQueue, t) != [] && Queue(s.ic.reqQueue, t)[0].trans == x
    ensures var s' := PopReq(s, t);
            && SameTarget(s, s', t) && Seen(s', t, x) == Seen(s, t, x)
            && SameRspSide(s, s', i) && SameForRsp(s, s', x, i) && Init(s', i) == Init(s, i) && SameForInit(s, s', x, i)
  {
    hide PopReq;
    PopReqIs(s, t, i, x);
  }

  lemma PopReqKeeps(s: System, t: nat, i: nat, x: Trans)
    requires Inv(s) && Tok(s, x) == Token(ReqQueued, i, t)
    requires Queue(s.ic.reqQueue, t) != [] && Queue(s.ic.reqQueue, t)[0].trans == x
    ensures Inv(PopReq(s, t)) && Local(s, PopReq(s, t), x, t, i)
    ensures Spare(PopReq(s, t), x) > 0
  {
    hide Inv, Local, TransOk, TargOk, ReqSideOk, RspSideOk, InitOk, PopReq;
    hide SameTarget, Seen, SameRspSide, SameForRsp, SameForInit;
    var s' := PopReq(s, t);
    Around(s, x, t, i);
    PopReqIs(s, t, i, x);
    PopReqLocal(s, t, i, x);
    PopReqSide(s, t, i, x);
    PopReqTrans(s, t, i, x);
    PopReqSame(s, t, i, x);
    TargStays(s, s', x, t, i, t);
    Unfailed(s);
    ConcludesAtTarget(s, s', x, t, i);
  }

  // ---------- rsp_queue ----------

  lemma QueueRspLocal(s: System, t: nat, i: nat, x: Trans, delay: nat)
    requires Tok(s, x) == Token(RspReady, i, t) && i in s.ic.rspSlot
    ensures Local(s, QueueRsp(s, i, x, delay), x, t, i)
  {
    hide Local;
    PushKept(Queue(s.ic.rspQueue, i), Queued(x, s.now + delay), x);
    IcLocal(s, QueueRsp(s, i, x, delay), x, t, i);
  }

  lemma QueueRspSide(s: System, t: nat, i: nat, x: Trans, delay: nat)
    requires RspSideOk(s, i) && Tok(s, x) == Token(RspReady, i, t) && i in s.ic.rspSlot
    ensures RspSideOk(QueueRsp(s, i, x, delay), i)
  {
    var s' := QueueRsp(s, i, x, delay);
    var q, q' := Queue(s.ic.rspQueue, i), Queue(s'.ic.rspQueue, i);
    assert q' == q + [Queued(x, s.now + delay)];
    forall k | 0 <= k < |q'| ensures FromInit(s', i, q'[k].trans, RspQueued) {
      if k < |q| { assert FromInit(s, i, q[k].trans, RspQueued); }
    }
  }

  lemma QueueRspIs(s: System, t: nat, i: nat, x: Trans, delay: nat)
    requires Tok(s, x) == Token(RspReady, i, t)
    ensures var s', q := QueueRsp(s, i, x, delay), Queue(s.ic.rspQueue, i) + [Queued(x, s.now + delay)];
            && Tok(s', x) == Token(RspQueued, i, t) && Refs(s', x) == Refs(s, x) + 1
            && s'.targets == s.targets && s'.responder == s.responder && s'.inits == s.inits && s'.failed == s.failed
            && s'.now == s.now && s'.ic == s.ic.(rspQueue := s.ic.rspQueue[i := q])
  {
  }

  lemma QueueRspTrans(s: System, t: nat, i: nat, x: Trans, delay: nat)
    requires TransOk(s, x) && Tok(s, x) == Token(RspReady, i, t)
    ensures TransOk(QueueRsp(s, i, x, delay), x)
  {
    hide QueueRsp;
    QueueRspIs(s, t, i, x, delay);
    assert Queue(QueueRsp(s, i, x, delay).ic.rspQueue, i)[|Queue(s.ic.rspQueue, i)|].trans == x;
  }

  lemma QueueRspKeeps(s: System, t: nat, i: nat, x: Trans, delay: nat)
    requires Inv(s) && Tok(s, x) == Token(RspReady, i, t) && i in s.ic.rspSlot
    ensures Inv(QueueRsp(s, i, x, delay)) && Local(s, QueueRsp(s, i, x, delay), x, t, i)
  {
    hide SameReqSide, SameForReq, SameTarget, Seen;
    hide Inv, Local, TransOk, TargOk, ReqSideOk, RspSideOk, InitOk, QueueRsp;
    var s' := QueueRsp(s, i, x, delay);
    Around(s, x, t, i);
    QueueRspIs(s, t, i, x, delay);
    QueueRspLocal(s, t, i, x, delay);
    QueueRspSide(s, t, i, x, delay);
    QueueRspTrans(s, t, i, x, delay);
    InitStays(s, s', x, t, i, i);
    RspMoveSame(s, s', x, t, i);
    Unfailed(s);
    ConcludesAtInit(s, s', x, t, i);
  }

  lemma PopRspLocal(s: System, t: nat, i: nat, x: Trans)
    requires Tok(s, x) == Token(RspQueued, i, t)
    requires Queue(s.ic.rspQueue, i) != [] && Queue(s.ic.rspQueue, i)[0].trans == x
    ensures Local(s, PopRsp(s, i), x, t, i)
  {
    hide Local;
    PopKept(Queue(s.ic.rspQueue, i), x);
    IcLocal(s, PopRsp(s, i), x, t, i);
  }

  lemma PopRspSide(s: System, t: nat, i: nat, x: Trans)
    requires RspSideOk(s, i) && Tok(s, x) == Token(RspQueued, i, t)
    requires Queue(s.ic.rspQueue, i) != [] && Queue(s.ic.rspQueue, i)[0].trans == x
    ensures RspSideOk(PopRsp(s, i), i)
  {
    var s' := PopRsp(s, i);
    var q, q' := Queue(s.ic.rspQueue, i), Queue(s'.ic.rspQueue, i);
    assert q' == q[1..];
    forall k | 0 <= k < |q'| ensures FromInit(s', i, q'[k].trans, RspQueued) {
      assert FromInit(s, i, q[k + 1].trans, RspQueued) && q[0].trans != q[k + 1].trans;
    }
    forall j, k | 0 <= j < k < |q'| ensures q'[j].trans != q'[k].trans {
      assert q[j + 1].trans != q[k + 1].trans;
    }
  }

  lemma PopRspIs(s: System, t: nat, i: nat, x: Trans)
    requires Tok(s, x) == Token(RspQueued, i, t) && Queue(s.ic.rspQueue, i) != []
    requires Queue(s.ic.rspQueue, i)[0].trans == x
    ensures var s' := PopRsp(s, i);
            && Tok(s', x) == Token(RspReady, i, t) && Refs(s', x) == Refs(s, x)
            && s'.targets == s.targets && s'.responder == s.responder && s'.inits == s.inits && s'.failed == s.failed
            && s'.ic == s.ic.(rspQueue := s.ic.rspQueue[i := Queue(s.ic.rspQueue, i)[1..]])
  {
  }

  lemma PopRspTrans(s: System, t: nat, i: nat, x: Trans)
    requires TransOk(s, x) && Tok(s, x) == Token(RspQueued, i, t)
    requires Queue(s.ic.rspQueue, i) != [] && Queue(s.ic.rspQueue, i)[0].trans == x
    ensures TransOk(PopRsp(s, i), x) && Spare(PopRsp(s, i), x) > 0
  {
    hide PopRsp;
    PopRspIs(s, t, i, x);
  }

  lemma PopRspKeeps(s: System, t: nat, i: nat, x: Trans)
    requires Inv(s) && Tok(s, x) == Token(RspQueued, i, t)
    requires Queue(s.ic.rspQueue, i) != [] && Queue(s.ic.rspQueue, i)[0].trans == x
    ensures Inv(PopRsp(s, i)) && Local(s, PopRsp(s, i), x, t, i)
    ensures Spare(PopRsp(s, i), x) > 0
  {
    hide SameReqSide, SameForReq, SameTarget, Seen;
    hide Inv, Local, TransOk, TargOk, ReqSideOk, RspSideOk, InitOk, PopRsp;
    var s' := PopRsp(s, i);
    Around(s, x, t, i);
    PopRspIs(s, t, i, x);
    PopRspLocal(s, t, i, x);
    PopRspSide(s, t, i, x);
    PopRspTrans(s, t, i, x);
    InitStays(s, s', x, t, i, i);
    RspMoveSame(s, s', x, t, i);
    Unfailed(s);
    ConcludesAtInit(s, s', x, t, i);
  }

  // ---------- END_REQ with an initiator ----------

  lemma InitLaneGrows(s: System, s': System, i: nat, x: Trans, time: nat, phase: Phase)
    requires InitOk(s, i) && s'.now == s.now <= time && Init(s', i).held == Init(s, i).held
    requires Init(s', i).reqInProgress == Init(s, i).reqInProgress && (Awaited(s, i, x) ==> Awaited(s', i, x))
    requires Init(s', i).peq == Post(Init(s, i).peq, x, time, phase)
    requires forall y :: Tok(s', y) == if y == x then Tok(s', x) else Tok(s, y)
    requires Init(s, i).held.Some? ==> Init(s, i).held.value != x
    requires !FromInit(s, i, x, RspSent)
    requires FromInit(s', i, x, RspSent) <==> phase == BeginResp
    requires phase == BeginResp || phase == EndReq
    ensures InitOk(s', i)
  {
    forall y ensures InitLaneOk(s', i, Init(s', i).peq, y) {
      assert InitLaneOk(s, i, Init(s, i).peq, y);
    }
  }

  lemma InitPostsIs(s: System, i: nat, x: Trans, phase: Phase, delay: nat)
    ensures var s', n := InitPosts(s, i, x, phase, delay), Init(s, i);
            && (forall y :: Tok(s', y) == Tok(s, y)) && Refs(s', x) == Refs(s, x) && s'.now == s.now
            && s'.failed == s.failed
            && s'.targets == s.targets && s'.responder == s.responder && s'.inits.Keys == s.inits.Keys + {i}
            && s'.ic == s.ic
            && Init(s', i) == n.(peq := Post(n.peq, x, s.now + delay, phase))
  {
  }

  // What is known of x while it is not with its initiator
  lemma Elsewhere(s: System, t: nat, i: nat, x: Trans)
    requires Inv(s) && Tok(s, x) == Token(StageOf(s, x), i, t) && StageOf(s, x) in {Executing, ReqTaken, RspReady}
    ensures t in s.targets && i in s.inits && Refs(s, x) > 0 && Init(s, i).held != Some(x)
  {
    assert TransOk(s, x) && InitOk(s, i);
  }

  // A move of x that changes only its initiator's event queue
  lemma PostedTrans(s: System, t: nat, i: nat, x: Trans, delay: nat)
    requires TransOk(s, x) && Tok(s, x) == Token(StageOf(s, x), i, t) && StageOf(s, x) in {Executing, ReqTaken}
    requires i in s.inits
    ensures TransOk(InitPosts(s, i, x, EndReq, delay), x)
  {
    hide InitPosts;
    InitPostsIs(s, i, x, EndReq, delay);
  }

  lemma EndReqToInitKeeps(s: System, t: nat, i: nat, x: Trans, delay: nat)
    requires Inv(s) && Tok(s, x) == Token(StageOf(s, x), i, t) && StageOf(s, x) in {Executing, ReqTaken}
    ensures Inv(InitPosts(s, i, x, EndReq, delay)) && Local(s, InitPosts(s, i, x, EndReq, delay), x, t, i)
  {
    hide SameReqSide, SameForReq, SameTarget, Seen;
    hide Inv, Local, TransOk, TargOk, ReqSideOk, RspSideOk, InitOk, InitPosts;
    var s' := InitPosts(s, i, x, EndReq, delay);
    Around(s, x, t, i);
    Elsewhere(s, t, i, x);
    InitPostsIs(s, i, x, EndReq, delay);
    InitPostsLocal(s, t, i, x, EndReq, delay);
    InitLaneGrows(s, s', i, x, s.now + delay, EndReq);
    RspSideStays(s, s', x, t, i, i);
    PostedTrans(s, t, i, x, delay);
    RspMoveSame(s, s', x, t, i);
    Unfailed(s);
    ConcludesAtInit(s, s', x, t, i);
  }

  // ---------- BEGIN_RESP to an initiator ----------

  lemma TakeSlotLocal(s: System, t: nat, i: nat, x: Trans)
    requires Tok(s, x) == Token(RspReady, i, t) && (i in s.ic.rspSlot ==> i in s.ic.endRsp)
    ensures Local(s, TakeRspSlot(s, i, x), x, t, i)
  {
  }

  lemma InitPostsLocal(s: System, t: nat, i: nat, x: Trans, phase: Phase, delay: nat)
    requires i in s.inits && Mine(s, x, t, i)
    ensures Local(s, InitPosts(s, i, x, phase, delay), x, t, i)
  {
    hide Local;
    var s1 := Show(s, InitHop(i), x, Backward(phase), delay);
    var n := Init(s, i).(peq := Post(Init(s, i).peq, x, s.now + delay, phase));
    ShowLocal(s, t, i, x, InitHop(i), Backward(phase), delay);
    PutInitLocal(s1, t, i, x, n);
    LocalTrans(s, s1, PutInit(s1, i, n), x, t, i);
  }

  lemma InitCompletesLocal(s: System, t: nat, i: nat, x: Trans, delay: nat, rnd: nat)
    requires i in s.inits && Tok(s, x) == Token(RspReady, i, t)
    ensures Local(s, InitCompletes(s, i, x, delay, rnd), x, t, i)
  {
    hide Local;
    var s1 := Show(s, InitHop(i), x, Backward(BeginResp), delay);
    var n := Init(s, i);
    var n' := n.(reqInProgress := if n.reqInProgress == Some(x) then None else n.reqInProgress);
    var s2 := PutInit(s1, i, n');
    var s' := InitCompletes(s, i, x, delay, rnd);
    ShowLocal(s, t, i, x, InitHop(i), Backward(BeginResp), delay);
    PutInitLocal(s1, t, i, x, n');
    LocalTrans(s, s1, s2, x, t, i);
    OwnLocal(s2, s', x, t, i);
    LocalTrans(s, s2, s', x, t, i);
  }

  lemma DeliverToALocal(s: System, t: nat, i: nat, x: Trans, delay: nat)
    requires i in s.inits
    requires Tok(s, x) == Token(RspReady, i, t) && (i in s.ic.rspSlot ==> i in s.ic.endRsp)
    ensures Local(s, DeliverToA(s, i, x, delay), x, t, i)
  {
    var s1 := TakeRspSlot(s, i, x);
    var s2 := InitPosts(s1, i, x, BeginResp, delay);
    TakeSlotLocal(s, t, i, x);
    InitPostsLocal(s1, t, i, x, BeginResp, delay);
    MoveLocal(s2, t, i, x, RspSent);
    LocalTrans(s, s1, s2, x, t, i);
    LocalTrans(s, s2, Move(s2, x, RspSent), x, t, i);
  }

  lemma DeliverToAIs(s: System, t: nat, i: nat, x: Trans, delay: nat)
    requires Tok(s, x) == Token(RspReady, i, t)
    ensures var s', n := DeliverToA(s, i, x, delay), Init(s, i);
            && (forall y :: Tok(s', y) == if y == x then Token(RspSent, i, t) else Tok(s, y))
            && Refs(s', x) == Refs(s, x) && s'.now == s.now && s'.failed == s.failed
            && s'.targets == s.targets && s'.responder == s.responder && s'.inits.Keys == s.inits.Keys + {i}
            && Init(s', i) == n.(peq := Post(n.peq, x, s.now + delay, BeginResp))
            && s'.ic == s.ic.(rspSlot := s.ic.rspSlot[i := x], endRsp := s.ic.endRsp - {i})
  {
  }

  lemma DeliverToATrans(s: System, t: nat, i: nat, x: Trans, delay: nat)
    requires TransOk(s, x) && Tok(s, x) == Token(RspReady, i, t) && i in s.inits
    ensures TransOk(DeliverToA(s, i, x, delay), x)
  {
    hide DeliverToA;
    DeliverToAIs(s, t, i, x, delay);
  }

  lemma DeliverToAInit(s: System, t: nat, i: nat, x: Trans, delay: nat)
    requires InitOk(s, i) && Tok(s, x) == Token(RspReady, i, t) && Init(s, i).held != Some(x)
    ensures InitOk(DeliverToA(s, i, x, delay), i)
  {
    hide DeliverToA, InitOk;
    DeliverToAIs(s, t, i, x, delay);
    InitLaneGrows(s, DeliverToA(s, i, x, delay), i, x, s.now + delay, BeginResp);
  }

  lemma DeliverToAKeeps(s: System, t: nat, i: nat, x: Trans, delay: nat)
    requires Inv(s)
    requires Tok(s, x) == Token(RspReady, i, t) && (i in s.ic.rspSlot ==> i in s.ic.endRsp)
    ensures Inv(DeliverToA(s, i, x, delay)) && Local(s, DeliverToA(s, i, x, delay), x, t, i)
  {
    hide SameReqSide, SameForReq, SameTarget, Seen;
    hide Inv, Local, TransOk, TargOk, ReqSideOk, RspSideOk, InitOk, DeliverToA;
    var s' := DeliverToA(s, i, x, delay);
    Around(s, x, t, i);
    Elsewhere(s, t, i, x);
    DeliverToALocal(s, t, i, x, delay);
    DeliverToAIs(s, t, i, x, delay);
    DeliverToAInit(s, t, i, x, delay);
    DeliverToASide(s, t, i, x, delay);
    DeliverToATrans(s, t, i, x, delay);
    RspMoveSame(s, s', x, t, i);
    Unfailed(s);
    ConcludesAtInit(s, s', x, t, i);
  }

  lemma DeliverToASide(s: System, t: nat, i: nat, x: Trans, delay: nat)
    requires RspSideOk(s, i)
    requires Tok(s, x) == Token(RspReady, i, t) && (i in s.ic.rspSlot ==> i in s.ic.endRsp)
    ensures RspSideOk(DeliverToA(s, i, x, delay), i)
  {
    var s' := DeliverToA(s, i, x, delay);
    var q := Queue(s.ic.rspQueue, i);
    forall k | 0 <= k < |q| ensures FromInit(s', i, q[k].trans, RspQueued) {
      assert FromInit(s, i, q[k].trans, RspQueued);
    }
  }

  lemma DeliverToBLocal(s: System, t: nat, i: nat, x: Trans, delay: nat, rnd: nat)
    requires i in s.inits
    requires Tok(s, x) == Token(RspReady, i, t) && (i in s.ic.rspSlot ==> i in s.ic.endRsp)
    ensures Local(s, DeliverToB(s, i, x, delay, rnd), x, t, i)
  {
    var s1 := TakeRspSlot(s, i, x);
    var s2 := InitCompletes(s1, i, x, delay, rnd);
    TakeSlotLocal(s, t, i, x);
    InitCompletesLocal(s1, t, i, x, delay, rnd);
    NotifyRspLocal(s2, t, i, x);
    LocalTrans(s, s1, s2, x, t, i);
    LocalTrans(s, s2, NotifyEndRsp(s2, i), x, t, i);
  }

  lemma DeliverToBIs(s: System, t: nat, i: nat, x: Trans, delay: nat, rnd: nat)
    requires Tok(s, x) == Token(RspReady, i, t) && Refs(s, x) > 0
    ensures var s', n := DeliverToB(s, i, x, delay, rnd), Init(s, i);
            && (forall y :: Tok(s', y) == if y == x then Token(Closing, i, t) else Tok(s, y))
            && Refs(s', x) == Refs(s, x) - 1 && s'.now == s.now && s'.failed == s.failed
            && s'.targets == s.targets && s'.responder == s.responder && s'.inits.Keys == s.inits.Keys + {i}
            && Init(s', i) == n.(reqInProgress := if n.reqInProgress == Some(x) then None else n.reqInProgress)
            && s'.ic == s.ic.(rspSlot := s.ic.rspSlot[i := x], endRsp := s'.ic.endRsp) && i in s'.ic.endRsp
  {
  }

  lemma DeliverToBTrans(s: System, t: nat, i: nat, x: Trans, delay: nat, rnd: nat)
    requires TransOk(s, x) && Tok(s, x) == Token(RspReady, i, t) && i in s.inits && Refs(s, x) > 0
    ensures TransOk(DeliverToB(s, i, x, delay, rnd), x)
  {
    hide DeliverToB;
    DeliverToBIs(s, t, i, x, delay, rnd);
  }

  lemma DeliverToBKeeps(s: System, t: nat, i: nat, x: Trans, delay: nat, rnd: nat)
    requires Inv(s) && Init(s, i).kind.InitB?
    requires Tok(s, x) == Token(RspReady, i, t) && (i in s.ic.rspSlot ==> i in s.ic.endRsp)
    ensures Inv(DeliverToB(s, i, x, delay, rnd)) && Local(s, DeliverToB(s, i, x, delay, rnd), x, t, i)
  {
    hide SameReqSide, SameForReq, SameTarget, Seen;
    hide Inv, Local, TransOk, TargOk, ReqSideOk, RspSideOk, InitOk, DeliverToB;
    var s' := DeliverToB(s, i, x, delay, rnd);
    Around(s, x, t, i);
    Elsewhere(s, t, i, x);
    DeliverToBLocal(s, t, i, x, delay, rnd);
    DeliverToBIs(s, t, i, x, delay, rnd);
    InitStays(s, s', x, t, i, i);
    DeliverToBSide(s, t, i, x, delay, rnd);
    DeliverToBTrans(s, t, i, x, delay, rnd);
    RspMoveSame(s, s', x, t, i);
    Unfailed(s);
    ConcludesAtInit(s, s', x, t, i);
  }

  lemma DeliverToBSide(s: System, t: nat, i: nat, x: Trans, delay: nat, rnd: nat)
    requires RspSideOk(s, i)
    requires Tok(s, x) == Token(RspReady, i, t) && (i in s.ic.rspSlot ==> i in s.ic.endRsp)
    ensures RspSideOk(DeliverToB(s, i, x, delay, rnd), i)
  {
    var s' := DeliverToB(s, i, x, delay, rnd);
    var q := Queue(s.ic.rspQueue, i);
    forall k | 0 <= k < |q| ensures FromInit(s', i, q[k].trans, RspQueued) {
      assert FromInit(s, i, q[k].trans, RspQueued);
    }
  }

  // ---------- BEGIN_REQ to a target ----------

  predicate MayForward(s: System, t: nat, i: nat, x: Trans) {
    Tok(s, x) == Token(ReqReady, i, t) && (t in s.ic.reqSlot ==> t in s.ic.endReq)
  }

  lemma OpenReqLocal(s: System, t: nat, i: nat, x: Trans, delay: nat)
    requires MayForward(s, t, i, x)
    ensures Local(s, OpenReq(s, t, x, delay), x, t, i)
  {
  }

  // No request is open at the target, so nothing waits for the end of one
  lemma NothingOpen(s: System, t: nat, i: nat, x: Trans)
    requires Inv(s) && MayForward(s, t, i, x)
    ensures Targ(s, t).endReqPending == None
    ensures Implicit(Targ(s, t).kind) ==> Targ(s, t).nextRsp == None
    ensures Lane(Targ(s, t).peq, x) == [] && t in s.targets && x in s.ic.ext && i in s.inits
    ensures Responder(s, t) != Some(x) && Targ(s, t).nextRsp != Some(x)
  {
    var g := Targ(s, t);
    assert TransOk(s, x) && TargOk(s, t) && TargLaneOk(s, t, g.peq, x);
    forall y: Trans
      ensures g.endReqPending != Some(y) && (Implicit(g.kind) ==> g.nextRsp != Some(y))
      ensures (g.nextRsp == Some(y) ==> y != x)
    {
      assert TransOk(s, y);
    }
    NothingIsNone(g.endReqPending);
    if Implicit(g.kind) { NothingIsNone(g.nextRsp); }
  }

  // The request of x has been sent to target t, and ended if `ended`
  predicate Forwarded(s: System, s': System, t: nat, i: nat, x: Trans, stage: Stage, ended: bool) {
    && s'.inits == s.inits && s'.now == s.now && !s'.failed && Tok(s', x) == Token(stage, i, t) && x in s'.tokens
    && t in s'.targets
    && s'.ic == s.ic.(reqSlot := s.ic.reqSlot[t := x], endReq := s'.ic.endReq, ext := s'.ic.ext)
    && (t in s'.ic.endReq <==> ended)
  }

  lemma ForwardedElse(s: System, s': System, t: nat, i: nat, x: Trans, stage: Stage, ended: bool)
    requires Forwarded(s, s', t, i, x, stage, ended) && Tok(s, x) == Token(ReqReady, i, t)
    requires stage in {PeqReq, Executing, RspDeferred, RspReady}
    ensures SameRspSide(s, s', i) && SameForRsp(s, s', x, i) && Init(s', i) == Init(s, i) && SameForInit(s, s', x, i)
  {
  }

  lemma ForwardedReqSide(s: System, s': System, t: nat, i: nat, x: Trans, stage: Stage, ended: bool)
    requires ReqSideOk(s, t) && Forwarded(s, s', t, i, x, stage, ended) && Tok(s, x) == Token(ReqReady, i, t)
    requires Local(s, s', x, t, i) && (ended || Open(s', x))
    ensures ReqSideOk(s', t)
  {
    hide Local, Open;
    ReqSideChanges(s, s', x, t, i);
  }

  lemma ForwardConcludes(s: System, s': System, t: nat, i: nat, x: Trans, stage: Stage, ended: bool)
    requires Inv(s) && Local(s, s', x, t, i) && Forwarded(s, s', t, i, x, stage, ended)
    requires Tok(s, x) == Token(ReqReady, i, t)
    requires stage in {PeqReq, Executing, RspDeferred, RspReady} && (ended || Open(s', x)) && TransOk(s', x)
    requires TargOk(s', t)
    ensures Inv(s')
  {
    hide Inv, Local, TransOk, TargOk, ReqSideOk, RspSideOk, InitOk, Open, SameRspSide, SameForRsp, SameForInit;
    Around(s, x, t, i);
    ForwardedElse(s, s', t, i, x, stage, ended);
    ForwardedReqSide(s, s', t, i, x, stage, ended);
    ConcludesAtTarget(s, s', x, t, i);
  }

  // What is known of a request that is about to be forwarded
  lemma ReqReadyIs(s: System, t: nat, i: nat, x: Trans)
    requires Inv(s) && MayForward(s, t, i, x)
    ensures TransOk(s, x) && TargOk(s, t) && !s.failed && RouteOf(s, x) == Route(i, t, false)
    ensures Targ(s, t).responding <==> Responder(s, t).Some?
  {
    assert TransOk(s, x) && TargOk(s, t);
  }

  // ---------- Types A, B and C: the event queue ----------

  lemma PostsIs(s: System, t: nat, i: nat, x: Trans, delay: nat)
    requires Tok(s, x) == Token(ReqReady, i, t) && !s.failed
    ensures var s', g := TargetPostReq(OpenReq(s, t, x, delay), t, x, delay).s, Targ(s, t);
            && Forwarded(s, s', t, i, x, PeqReq, false) && s'.ic.ext == s.ic.ext && Refs(s', x) == Refs(s, x)
            && Targ(s', t) == g.(peq := Post(g.peq, x, s.now + delay, BeginReq)) && s'.responder == s.responder
  {
  }

  lemma PostsLocal(s: System, t: nat, i: nat, x: Trans, delay: nat)
    requires MayForward(s, t, i, x) && t in s.targets
    ensures Local(s, TargetPostReq(OpenReq(s, t, x, delay), t, x, delay).s, x, t, i)
  {
    hide Local;
    var s1 := OpenReq(s, t, x, delay);
    var s' := TargetPostReq(s1, t, x, delay).s;
    OpenReqLocal(s, t, i, x, delay);
    PutTargLocal(s1, t, i, x, Targ(s', t));
    LocalTrans(s, s1, PutTarg(s1, t, Targ(s', t)), x, t, i);
    MoveLocal(PutTarg(s1, t, Targ(s', t)), t, i, x, PeqReq);
    LocalTrans(s, PutTarg(s1, t, Targ(s', t)), s', x, t, i);
  }

  lemma PostsTrans(s: System, t: nat, i: nat, x: Trans, delay: nat)
    requires TransOk(s, x) && Tok(s, x) == Token(ReqReady, i, t) && !s.failed
    requires Targ(s, t).kind in {TypeA, TypeB, TypeC}
    ensures var s' := TargetPostReq(OpenReq(s, t, x, delay), t, x, delay).s; TransOk(s', x) && Open(s', x)
  {
    hide TargetPostReq, OpenReq;
    PostsIs(s, t, i, x, delay);
  }

  lemma PostsTarg(s: System, t: nat, i: nat, x: Trans, delay: nat)
    requires TargOk(s, t) && Tok(s, x) == Token(ReqReady, i, t) && !s.failed && Targ(s, t).kind in {TypeA, TypeB, TypeC}
    requires Lane(Targ(s, t).peq, x) == [] && Responder(s, t) != Some(x) && Targ(s, t).nextRsp != Some(x)
    requires Targ(s, t).endReqPending == None
    requires Local(s, TargetPostReq(OpenReq(s, t, x, delay), t, x, delay).s, x, t, i)
    ensures TargOk(TargetPostReq(OpenReq(s, t, x, delay), t, x, delay).s, t)
  {
    hide Local, TargetPostReq, OpenReq;
    var s' := TargetPostReq(OpenReq(s, t, x, delay), t, x, delay).s;
    PostsIs(s, t, i, x, delay);
    ExecutionsStay(s, s', x, t, i, t);
    TargChanges(s, s', x, t, i);
  }

  lemma ForwardPosts(s: System, t: nat, i: nat, x: Trans, delay: nat)
    requires Inv(s) && MayForward(s, t, i, x) && Targ(s, t).kind in {TypeA, TypeB, TypeC}
    ensures Inv(TargetPostReq(OpenReq(s, t, x, delay), t, x, delay).s)
    ensures Local(s, TargetPostReq(OpenReq(s, t, x, delay), t, x, delay).s, x, t, i)
  {
    hide Inv, Local, TargetPostReq, OpenReq, TransOk, TargOk, Open, Forwarded;
    NothingOpen(s, t, i, x);
    ReqReadyIs(s, t, i, x);
    PostsIs(s, t, i, x, delay);
    PostsLocal(s, t, i, x, delay);
    PostsTrans(s, t, i, x, delay);
    PostsTarg(s, t, i, x, delay);
    ForwardConcludes(s, TargetPostReq(OpenReq(s, t, x, delay), t, x, delay).s, t, i, x, PeqReq, false);
  }

  // ---------- Type B ends the request at once ----------

  lemma AcceptsLocal(s: System, t: nat, i: nat, x: Trans, delay: nat, acc: nat, lat: nat)
    requires MayForward(s, t, i, x) && t in s.targets && Targ(s, t).kind.TypeB? && Targ(s, t).nTrans < 2
    ensures Local(s, ForwardReq(s, t, x, delay, acc, lat).s, x, t, i)
  {
    var s1 := OpenReq(s, t, x, delay);
    var s2 := Acquire(s1, x);
    var o := TargetBeginReq(s1, t, x, delay, acc, lat);
    var s3 := PutTarg(s2, t, Targ(o.s, t));
    OpenReqLocal(s, t, i, x, delay);
    AcquireLocal(s1, t, i, x);
    LocalTrans(s, s1, s2, x, t, i);
    PutTargLocal(s2, t, i, x, Targ(o.s, t));
    LocalTrans(s, s2, s3, x, t, i);
    MoveLocal(s3, t, i, x, Executing);
    LocalTrans(s, s3, o.s, x, t, i);
    OnReplyLocal(s, o.s, t, i, x, o.r);
  }

  lemma AcceptsIs(s: System, t: nat, i: nat, x: Trans, delay: nat, acc: nat, lat: nat)
    requires Tok(s, x) == Token(ReqReady, i, t) && !s.failed && Targ(s, t).kind.TypeB? && Targ(s, t).nTrans < 2
    ensures var s', g := ForwardReq(s, t, x, delay, acc, lat).s, Targ(s, t);
            && Forwarded(s, s', t, i, x, Executing, true) && s'.ic.ext == s.ic.ext && Refs(s', x) == Refs(s, x) + 1
            && Targ(s', t) == g.(peq := Post(g.peq, x, s.now + delay + acc + lat, Internal), nTrans := g.nTrans + 1)
            && s'.responder == s.responder
  {
  }

  lemma AcceptsTrans(s: System, t: nat, i: nat, x: Trans, delay: nat, acc: nat, lat: nat)
    requires TransOk(s, x) && Tok(s, x) == Token(ReqReady, i, t) && !s.failed && Targ(s, t).kind.TypeB?
    requires Targ(s, t).nTrans < 2
    ensures TransOk(ForwardReq(s, t, x, delay, acc, lat).s, x)
  {
    hide ForwardReq;
    AcceptsIs(s, t, i, x, delay, acc, lat);
  }

  lemma AcceptsTarg(s: System, t: nat, i: nat, x: Trans, delay: nat, acc: nat, lat: nat)
    requires TargOk(s, t) && Tok(s, x) == Token(ReqReady, i, t) && !s.failed && Targ(s, t).kind.TypeB?
    requires Targ(s, t).nTrans < 2
    requires Lane(Targ(s, t).peq, x) == [] && Responder(s, t) != Some(x) && Targ(s, t).nextRsp != Some(x)
    requires Targ(s, t).endReqPending == None
    requires Local(s, ForwardReq(s, t, x, delay, acc, lat).s, x, t, i)
    ensures TargOk(ForwardReq(s, t, x, delay, acc, lat).s, t)
  {
    hide Local, ForwardReq;
    var s' := ForwardReq(s, t, x, delay, acc, lat).s;
    AcceptsIs(s, t, i, x, delay, acc, lat);
    ExecutionStarts(s, s', x, t, i);
    TargChanges(s, s', x, t, i);
  }

  lemma ForwardAccepts(s: System, t: nat, i: nat, x: Trans, delay: nat, acc: nat, lat: nat)
    requires Inv(s) && MayForward(s, t, i, x) && Targ(s, t).kind.TypeB? && Targ(s, t).nTrans < 2
    ensures Inv(ForwardReq(s, t, x, delay, acc, lat).s)
    ensures Local(s, ForwardReq(s, t, x, delay, acc, lat).s, x, t, i)
  {
    hide Inv, Local, ForwardReq, TransOk, TargOk, Open, Forwarded;
    NothingOpen(s, t, i, x);
    ReqReadyIs(s, t, i, x);
    AcceptsIs(s, t, i, x, delay, acc, lat);
    AcceptsLocal(s, t, i, x, delay, acc, lat);
    AcceptsTrans(s, t, i, x, delay, acc, lat);
    AcceptsTarg(s, t, i, x, delay, acc, lat);
    ForwardConcludes(s, ForwardReq(s, t, x, delay, acc, lat).s, t, i, x, Executing, true);
  }

  // ---------- Type D is busy with another response ----------

  lemma DefersLocal(s: System, t: nat, i: nat, x: Trans, delay: nat, acc: nat, lat: nat)
    requires MayForward(s, t, i, x) && t in s.targets && Targ(s, t).kind.TypeD? && Targ(s, t).responding
    requires Targ(s, t).nextRsp == None
    ensures Local(s, ForwardReq(s, t, x, delay, acc, lat).s, x, t, i)
  {
    var s1 := OpenReq(s, t, x, delay);
    var s2 := Acquire(s1, x);
    var s' := ForwardReq(s, t, x, delay, acc, lat).s;
    OpenReqLocal(s, t, i, x, delay);
    AcquireLocal(s1, t, i, x);
    LocalTrans(s, s1, s2, x, t, i);
    PutTargLocal(s2, t, i, x, Targ(s', t));
    LocalTrans(s, s2, PutTarg(s2, t, Targ(s', t)), x, t, i);
    MoveLocal(PutTarg(s2, t, Targ(s', t)), t, i, x, RspDeferred);
    LocalTrans(s, PutTarg(s2, t, Targ(s', t)), Move(PutTarg(s2, t, Targ(s', t)), x, RspDeferred), x, t, i);
  }

  lemma DefersIs(s: System, t: nat, i: nat, x: Trans, delay: nat, acc: nat, lat: nat)
    requires Tok(s, x) == Token(ReqReady, i, t) && !s.failed && Targ(s, t).kind.TypeD? && Targ(s, t).responding
    requires Targ(s, t).nextRsp == None
    ensures var s', g := ForwardReq(s, t, x, delay, acc, lat).s, Targ(s, t);
            && Forwarded(s, s', t, i, x, RspDeferred, false) && s'.ic.ext == s.ic.ext && Refs(s', x) == Refs(s, x) + 1
            && Targ(s', t) == g.(nextRsp := Some(x), nextTime := s.now + delay + lat) && s'.responder == s.responder
  {
  }

  lemma DefersTrans(s: System, t: nat, i: nat, x: Trans, delay: nat, acc: nat, lat: nat)
    requires TransOk(s, x) && Tok(s, x) == Token(ReqReady, i, t) && !s.failed
    requires Targ(s, t).kind.TypeD? && Targ(s, t).responding && Targ(s, t).nextRsp == None
    ensures var s' := ForwardReq(s, t, x, delay, acc, lat).s; TransOk(s', x) && Open(s', x)
  {
    hide ForwardReq;
    DefersIs(s, t, i, x, delay, acc, lat);
  }

  lemma DefersTarg(s: System, t: nat, i: nat, x: Trans, delay: nat, acc: nat, lat: nat)
    requires TargOk(s, t) && Tok(s, x) == Token(ReqReady, i, t) && !s.failed
    requires Targ(s, t).kind.TypeD? && Targ(s, t).responding && Targ(s, t).nextRsp == None
    requires Targ(s, t).endReqPending == None
    requires Lane(Targ(s, t).peq, x) == [] && Responder(s, t) != Some(x)
    requires Local(s, ForwardReq(s, t, x, delay, acc, lat).s, x, t, i)
    ensures TargOk(ForwardReq(s, t, x, delay, acc, lat).s, t)
  {
    hide Local, ForwardReq;
    DefersIs(s, t, i, x, delay, acc, lat);
    TargChanges(s, ForwardReq(s, t, x, delay, acc, lat).s, x, t, i);
  }

  lemma ForwardDefers(s: System, t: nat, i: nat, x: Trans, delay: nat, acc: nat, lat: nat)
    requires Inv(s) && MayForward(s, t, i, x) && Targ(s, t).kind.TypeD? && Targ(s, t).responding
    ensures Inv(ForwardReq(s, t, x, delay, acc, lat).s)
    ensures Local(s, ForwardReq(s, t, x, delay, acc, lat).s, x, t, i)
  {
    hide Inv, Local, ForwardReq, TransOk, TargOk, Open, Forwarded;
    NothingOpen(s, t, i, x);
    ReqReadyIs(s, t, i, x);
    DefersIs(s, t, i, x, delay, acc, lat);
    DefersLocal(s, t, i, x, delay, acc, lat);
    DefersTrans(s, t, i, x, delay, acc, lat);
    DefersTarg(s, t, i, x, delay, acc, lat);
    ForwardConcludes(s, ForwardReq(s, t, x, delay, acc, lat).s, t, i, x, RspDeferred, false);
  }

  // ---------- Type D responds at once ----------

  lemma RespondsLocal(s: System, t: nat, i: nat, x: Trans, delay: nat, acc: nat, lat: nat)
    requires MayForward(s, t, i, x) && t in s.targets && Targ(s, t).kind.TypeD? && !Targ(s, t).responding
    requires Responder(s, t) == None
    ensures Local(s, ForwardReq(s, t, x, delay, acc, lat).s, x, t, i)
  {
    hide Local;
    var s1 := OpenReq(s, t, x, delay);
    var s2 := Acquire(s1, x);
    var o := TargetBeginReq(s1, t, x, delay, acc, lat);
    var s3 := PutTarg(s2, t, Targ(o.s, t));
    var s4 := Own(s3, t, x);
    OpenReqLocal(s, t, i, x, delay);
    AcquireLocal(s1, t, i, x);
    LocalTrans(s, s1, s2, x, t, i);
    PutTargLocal(s2, t, i, x, Targ(o.s, t));
    LocalTrans(s, s2, s3, x, t, i);
    RespondLocal(s3, t, i, x);
    LocalTrans(s, s3, s4, x, t, i);
    MoveLocal(s4, t, i, x, RspReady);
    LocalTrans(s, s4, o.s, x, t, i);
    OnReplyLocal(s, o.s, t, i, x, o.r);
  }

  lemma RespondsIs(s: System, t: nat, i: nat, x: Trans, delay: nat, acc: nat, lat: nat)
    requires Tok(s, x) == Token(ReqReady, i, t) && !s.failed && Targ(s, t).kind.TypeD? && !Targ(s, t).responding
    ensures var s' := ForwardReq(s, t, x, delay, acc, lat).s;
            && Forwarded(s, s', t, i, x, RspReady, true) && s'.ic.ext == s.ic.ext && Refs(s', x) == Refs(s, x) + 1
            && Targ(s', t) == Targ(s, t).(responding := true) && t in s'.responder && s'.responder[t] == x
  {
  }

  lemma RespondsTrans(s: System, t: nat, i: nat, x: Trans, delay: nat, acc: nat, lat: nat)
    requires TransOk(s, x) && Tok(s, x) == Token(ReqReady, i, t) && !s.failed && Targ(s, t).kind.TypeD?
    requires !Targ(s, t).responding
    ensures TransOk(ForwardReq(s, t, x, delay, acc, lat).s, x)
  {
    hide ForwardReq;
    RespondsIs(s, t, i, x, delay, acc, lat);
  }

  lemma RespondsTarg(s: System, t: nat, i: nat, x: Trans, delay: nat, acc: nat, lat: nat)
    requires TargOk(s, t) && Tok(s, x) == Token(ReqReady, i, t) && !s.failed && Targ(s, t).kind.TypeD?
    requires !Targ(s, t).responding
    requires Lane(Targ(s, t).peq, x) == [] && Targ(s, t).nextRsp == None && Targ(s, t).endReqPending == None
    requires Local(s, ForwardReq(s, t, x, delay, acc, lat).s, x, t, i)
    ensures TargOk(ForwardReq(s, t, x, delay, acc, lat).s, t)
  {
    hide Local, ForwardReq;
    RespondsIs(s, t, i, x, delay, acc, lat);
    TargChanges(s, ForwardReq(s, t, x, delay, acc, lat).s, x, t, i);
  }

  lemma ForwardResponds(s: System, t: nat, i: nat, x: Trans, delay: nat, acc: nat, lat: nat)
    requires Inv(s) && MayForward(s, t, i, x) && Targ(s, t).kind.TypeD? && !Targ(s, t).responding
    ensures Inv(ForwardReq(s, t, x, delay, acc, lat).s)
    ensures Local(s, ForwardReq(s, t, x, delay, acc, lat).s, x, t, i)
  {
    hide Inv, Local, ForwardReq, TransOk, TargOk, Open, Forwarded;
    NothingOpen(s, t, i, x);
    ReqReadyIs(s, t, i, x);
    RespondsIs(s, t, i, x, delay, acc, lat);
    RespondsLocal(s, t, i, x, delay, acc, lat);
    RespondsTrans(s, t, i, x, delay, acc, lat);
    RespondsTarg(s, t, i, x, delay, acc, lat);
    ForwardConcludes(s, ForwardReq(s, t, x, delay, acc, lat).s, t, i, x, RspReady, true);
  }

  // ---------- Type E completes the transaction ----------

  lemma OnReplyLocal(s: System, s1: System, t: nat, i: nat, x: Trans, r: Reply)
    requires Local(s, s1, x, t, i) && LiveReq(s1, t) == Some(x)
    ensures Local(s, OnReply(s1, t, x, r), x, t, i)
  {
    if r.status != Accepted {
      var signal := if r.status == Updated then Backward(r.phase) else FwCompleted(true);
      var s2 := Show(s1, TargHop(t), x, signal, r.delay);
      var s3 := NotifyEndReq(s2, t);
      ShowLocal(s1, t, i, x, TargHop(t), signal, r.delay);
      LocalTrans(s, s1, s2, x, t, i);
      NotifyReqLocal(s2, t, i, x);
      LocalTrans(s, s2, s3, x, t, i);
      StopLocal(s3, t, i, x);
      LocalTrans(s, s3, StopForward(s3, x), x, t, i);
    }
  }

  lemma StopLocal(s: System, t: nat, i: nat, x: Trans)
    requires Mine(s, x, t, i)
    ensures Local(s, StopForward(s, x), x, t, i)
  {
    hide Local;
    IcLocal(s, StopForward(s, x), x, t, i);
  }

  lemma CompletesLocal(s: System, t: nat, i: nat, x: Trans, delay: nat, acc: nat, lat: nat)
    requires MayForward(s, t, i, x) && t in s.targets && Targ(s, t).kind.TypeE?
    ensures Local(s, ForwardReq(s, t, x, delay, acc, lat).s, x, t, i)
  {
    var s1 := OpenReq(s, t, x, delay);
    var o := TargetBeginReq(s1, t, x, delay, acc, lat);
    OpenReqLocal(s, t, i, x, delay);
    MoveLocal(s1, t, i, x, RspReady);
    LocalTrans(s, s1, o.s, x, t, i);
    OnReplyLocal(s, o.s, t, i, x, o.r);
  }

  lemma CompletesIs(s: System, t: nat, i: nat, x: Trans, delay: nat, acc: nat, lat: nat)
    requires Tok(s, x) == Token(ReqReady, i, t) && !s.failed && Targ(s, t).kind.TypeE? && t in s.targets
    ensures var s' := ForwardReq(s, t, x, delay, acc, lat).s;
            && Forwarded(s, s', t, i, x, RspReady, true) && Refs(s', x) == Refs(s, x)
            && s'.ic.ext == s.ic.ext[x := RouteOf(s, x).(dontPropagateFw := true)]
            && s'.targets == s.targets && s'.responder == s.responder
  {
  }

  lemma CompletesTrans(s: System, t: nat, i: nat, x: Trans, delay: nat, acc: nat, lat: nat)
    requires TransOk(s, x) && Tok(s, x) == Token(ReqReady, i, t) && !s.failed && Targ(s, t).kind.TypeE?
    requires t in s.targets
    requires RouteOf(s, x) == Route(i, t, false)
    ensures TransOk(ForwardReq(s, t, x, delay, acc, lat).s, x)
  {
    hide ForwardReq;
    CompletesIs(s, t, i, x, delay, acc, lat);
  }

  lemma ForwardCompletes(s: System, t: nat, i: nat, x: Trans, delay: nat, acc: nat, lat: nat)
    requires Inv(s) && MayForward(s, t, i, x) && Targ(s, t).kind.TypeE?
    ensures Inv(ForwardReq(s, t, x, delay, acc, lat).s)
    ensures Local(s, ForwardReq(s, t, x, delay, acc, lat).s, x, t, i)
  {
    hide Inv, Local, ForwardReq, TransOk, TargOk, Open;
    NothingOpen(s, t, i, x);
    ReqReadyIs(s, t, i, x);
    CompletesIs(s, t, i, x, delay, acc, lat);
    CompletesLocal(s, t, i, x, delay, acc, lat);
    CompletesTrans(s, t, i, x, delay, acc, lat);
    TargStays(s, ForwardReq(s, t, x, delay, acc, lat).s, x, t, i, t);
    ForwardConcludes(s, ForwardReq(s, t, x, delay, acc, lat).s, t, i, x, RspReady, true);
  }

  // What the reply of the target says about the stage of x
  predicate Replied(s: System, t: nat, x: Trans, r: Reply) {
    && (r.status == Accepted ==> !Passing(StageOf(s, x)))
    && (r.status == Updated && r.phase == EndReq ==> StageOf(s, x) == Executing)
    && (r.status == Updated && r.phase != EndReq ==> StageOf(s, x) == RspReady && r.phase == BeginResp)
    && (r.status == Completed ==> StageOf(s, x) == RspReady && Targ(s, t).kind.TypeE?)
  }

  // BEGIN_REQ leaves a deferral of target t as it was, or finds t responding
  predicate Deferred(g: Target, g': Target) {
    && g'.endReqPending == g.endReqPending && g'.rspEvent == g.rspEvent && g'.nTrans >= g.nTrans
    && (g.responding ==> g'.responding) && (g'.nextRsp == g.nextRsp || g'.responding)
  }

  // What BEGIN_REQ to a target leaves alone
  predicate InTarget(s: System, s': System, t: nat, x: Trans) {
    && s'.ic == s.ic && s'.log == s.log && s'.now == s.now && s'.inits == s.inits && s'.minLatency == s.minLatency
    && s'.arrived == s.arrived && s'.forwarded == s.forwarded
    && s'.ready == s.ready && s'.delivered == s.delivered
    && Deferred(Targ(s, t), Targ(s', t)) && Tok(s', x) == Tok(s, x).(stage := StageOf(s', x))
    && (StageOf(s, x).ReqReady? && Tok(s, x).target == t ==> Spare(s', x) == Spare(s, x))
  }

  lemma TargetBeginReqEffect(s: System, t: nat, x: Trans, delay: nat, acc: nat, lat: nat)
    ensures InTarget(s, TargetBeginReq(s, t, x, delay, acc, lat).s, t, x)
  {
    PostReqEffect(s, t, x, delay);
    AcceptsEffect(s, t, x, delay, acc, lat);
    if Targ(s, t).kind.TypeD? && Targ(s, t).responding { DefersEffect(s, t, x, delay, lat); }
    if Targ(s, t).kind.TypeD? && !Targ(s, t).responding { RespondsEffect(s, t, x, delay, lat); }
    if Targ(s, t).kind.TypeE? { CompletesEffect(s, t, x); }
    hide TargetPostReq, TargetAccepts, TargetDefers, TargetResponds, InTarget, Move;
  }

  lemma CompletesEffect(s: System, t: nat, x: Trans)
    requires Targ(s, t).kind.TypeE?
    ensures InTarget(s, Move(s, x, RspReady), t, x)
  {
  }

  lemma PostReqEffect(s: System, t: nat, x: Trans, delay: nat)
    ensures InTarget(s, TargetPostReq(s, t, x, delay).s, t, x)
  {
  }

  lemma AcceptsEffect(s: System, t: nat, x: Trans, delay: nat, acc: nat, lat: nat)
    ensures InTarget(s, TargetAccepts(s, t, x, delay, acc, lat).s, t, x)
  {
  }

  lemma DefersEffect(s: System, t: nat, x: Trans, delay: nat, lat: nat)
    requires Targ(s, t).kind.TypeD? && Targ(s, t).responding
    ensures InTarget(s, TargetDefers(s, t, x, delay, lat).s, t, x)
  {
  }

  lemma RespondsEffect(s: System, t: nat, x: Trans, delay: nat, lat: nat)
    requires Targ(s, t).kind.TypeD?
    ensures InTarget(s, TargetResponds(s, t, x, delay, lat).s, t, x)
  {
  }

  lemma OnReplyTarget(s: System, t: nat, x: Trans, r: Reply)
    ensures Targ(OnReply(s, t, x, r), t) == Targ(s, t) && Tok(OnReply(s, t, x, r), x) == Tok(s, x)
  {
    if r.status.Updated? {
      assert OnReply(s, t, x, r) == NotifyEndReq(Show(s, TargHop(t), x, Backward(r.phase), r.delay), t);
    } else if r.status.Completed? {
      var s1 := NotifyEndReq(Show(s, TargHop(t), x, FwCompleted(true), r.delay), t);
      assert OnReply(s, t, x, r) == StopForward(s1, x);
    }
  }

  lemma ForwardSettled(s: System, t: nat, i: nat, x: Trans, delay: nat, acc: nat, lat: nat)
    requires Inv(s) && MayForward(s, t, i, x) && Settled(s, t)
    ensures Settled(ForwardReq(s, t, x, delay, acc, lat).s, t)
  {
    var s1 := OpenReq(s, t, x, delay);
    var o := TargetBeginReq(s1, t, x, delay, acc, lat);
    NothingOpen(s, t, i, x);
    TargetBeginReqEffect(s1, t, x, delay, acc, lat);
    OnReplyTarget(o.s, t, x, o.r);
  }

  lemma ForwardKeeps(s: System, t: nat, i: nat, x: Trans, delay: nat, acc: nat, lat: nat)
    requires Inv(s) && MayForward(s, t, i, x)
    ensures var o := ForwardReq(s, t, x, delay, acc, lat);
            Inv(o.s) && Local(s, o.s, x, t, i) && Replied(o.s, t, x, o.r)
  {
    hide Inv, Local, ForwardReq, Replied;
    if Targ(s, t).kind.TypeD? {
      RepliedD(s, t, x, delay, acc, lat);
      if Targ(s, t).responding { ForwardDefers(s, t, i, x, delay, acc, lat); }
      else { ForwardResponds(s, t, i, x, delay, acc, lat); }
    } else if Targ(s, t).kind.TypeE? {
      RepliedE(s, t, x, delay, acc, lat);
      ForwardCompletes(s, t, i, x, delay, acc, lat);
    } else if Targ(s, t).kind.TypeB? && Targ(s, t).nTrans < 2 {
      RepliedB(s, t, x, delay, acc, lat);
      ForwardAccepts(s, t, i, x, delay, acc, lat);
    } else {
      RepliedPosted(s, t, x, delay, acc, lat);
      ForwardPosts(s, t, i, x, delay);
    }
  }

  lemma RepliedD(s: System, t: nat, x: Trans, delay: nat, acc: nat, lat: nat)
    requires Targ(s, t).kind.TypeD?
    ensures var o := ForwardReq(s, t, x, delay, acc, lat); Replied(o.s, t, x, o.r)
  {
  }

  lemma RepliedE(s: System, t: nat, x: Trans, delay: nat, acc: nat, lat: nat)
    requires Targ(s, t).kind.TypeE?
    ensures var o := ForwardReq(s, t, x, delay, acc, lat); Replied(o.s, t, x, o.r)
  {
    hide OnReply;
    var s1 := OpenReq(s, t, x, delay);
    var o := TargetBeginReq(s1, t, x, delay, acc, lat);
    assert o == Outcome(Move(s1, x, RspReady), Reply(Completed, BeginReq, delay + lat));
    OnReplyTarget(o.s, t, x, o.r);
  }

  lemma RepliedB(s: System, t: nat, x: Trans, delay: nat, acc: nat, lat: nat)
    requires Targ(s, t).kind.TypeB? && Targ(s, t).nTrans < 2
    ensures var o := ForwardReq(s, t, x, delay, acc, lat); Replied(o.s, t, x, o.r)
  {
  }

  lemma RepliedPosted(s: System, t: nat, x: Trans, delay: nat, acc: nat, lat: nat)
    requires Targ(s, t).kind in {TypeA, TypeB, TypeC} && (Targ(s, t).kind.TypeB? ==> Targ(s, t).nTrans >= 2)
    ensures var o := ForwardReq(s, t, x, delay, acc, lat);
            o.s == TargetPostReq(OpenReq(s, t, x, delay), t, x, delay).s && Replied(o.s, t, x, o.r)
  {
  }
}
