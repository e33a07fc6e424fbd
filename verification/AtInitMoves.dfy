/** Moves made by the initiators, and updates that move no transaction, keep the invariant. */
module AtInitMoves {
  import opened Tlm
  import opened AtSystem
  import opened AtInvariant
  import opened AtFrame
  import opened AtKeeps
  import opened AtCallbacks

  // ---------- The thread ----------

  lemma AllocateTrans(s: System, i: nat, x: Trans)
    requires TransOk(s, x) && StageOf(s, x).Free? && i in s.inits
    ensures TransOk(Allocate(s, i, x), x)
  {
  }

  lemma AllocateIs(s: System, i: nat, x: Trans)
    ensures var s' := Allocate(s, i, x);
            && Tok(s', x) == Token(Held, i, 0) && Refs(s', x) == Refs(s, x) + 1
            && s'.failed == s.failed && s'.ic == s.ic && s'.targets == s.targets
            && s'.responder == s.responder
  {
  }

  lemma AllocateSame(s: System, i: nat, x: Trans)
    requires StageOf(s, x).Free?
    ensures var s' := Allocate(s, i, x);
            && SameReqSide(s, s', 0) && SameForReq(s, s', x, 0) && SameTarget(s, s', 0)
            && Seen(s', 0, x) == Seen(s, 0, x)
            && SameRspSide(s, s', i) && SameForRsp(s, s', x, i)
  {
    hide Allocate;
    AllocateIs(s, i, x);
  }

  lemma FreeWhenUnheld(s: System, x: Trans)
    requires Inv(s) && Refs(s, x) == 0 && !Passing(StageOf(s, x))
    ensures StageOf(s, x).Free?
  {
    assert TransOk(s, x);
  }

  lemma AllocateKeeps(s: System, i: nat, x: Trans)
    requires Inv(s) && i in s.inits && Init(s, i).held == None
    requires Refs(s, x) == 0 && !Passing(StageOf(s, x))
    ensures Inv(Allocate(s, i, x)) && StageOf(s, x) == Free && StageOf(Allocate(s, i, x), x) == Held
  {
    hide Inv, Local, TransOk, TargOk, ReqSideOk, RspSideOk, InitOk, Allocate;
    hide SameReqSide, SameForReq, SameTarget, Seen, SameRspSide, SameForRsp;
    var s' := Allocate(s, i, x);
    Around(s, x, 0, i);
    FreeWhenUnheld(s, x);
    AllocateIs(s, i, x);
    AllocateSame(s, i, x);
    AllocateLocal(s, i, x);
    AllocateInit(s, i, x);
    AllocateTrans(s, i, x);
    RspSideStays(s, s', x, 0, i, i);
    ReqSideStays(s, s', x, 0, i, 0);
    TargStays(s, s', x, 0, i, 0);
    Unfailed(s);
    Concludes(s, s', x, 0, i);
  }

  lemma AllocateLocal(s: System, i: nat, x: Trans)
    requires i in s.inits && Init(s, i).held == None && StageOf(s, x) == Free
    ensures Local(s, Allocate(s, i, x), x, 0, i)
  {
  }

  lemma AllocateInit(s: System, i: nat, x: Trans)
    requires InitOk(s, i) && StageOf(s, x) == Free
    ensures InitOk(Allocate(s, i, x), i)
  {
    var s' := Allocate(s, i, x);
    forall y ensures InitLaneOk(s', i, Init(s', i).peq, y) { assert InitLaneOk(s, i, Init(s, i).peq, y); }
  }

  lemma SendReqIs(s: System, i: nat, t: nat, x: Trans, delay: nat)
    ensures var s' := SendReq(s, i, t, x, delay);
            && Tok(s', x) == Token(ReqReady, i, t) && Refs(s', x) == Refs(s, x) && s'.failed == s.failed
            && s'.targets == s.targets && s'.responder == s.responder
            && s'.ic == s.ic.(ext := s.ic.ext[x := Route(i, t, false)])
            && s'.inits.Keys == s.inits.Keys + {i}
  {
  }

  lemma SendReqTrans(s: System, i: nat, t: nat, x: Trans, delay: nat)
    requires TransOk(s, x) && StageOf(s, x).Held? && t in s.targets
    ensures TransOk(SendReq(s, i, t, x, delay), x)
  {
    hide SendReq;
    SendReqIs(s, i, t, x, delay);
  }

  lemma HeldAlone(s: System, i: nat, x: Trans)
    requires Inv(s) && Init(s, i).held == Some(x)
    ensures FromInit(s, i, x, Held)
  {
    assert InitOk(s, i);
  }

  lemma SendReqSame(s: System, i: nat, t: nat, x: Trans, delay: nat)
    requires FromInit(s, i, x, Held)
    ensures var s' := SendReq(s, i, t, x, delay);
            && SameReqSide(s, s', t) && SameForReq(s, s', x, t) && SameTarget(s, s', t)
            && Seen(s', t, x) == Seen(s, t, x)
            && SameRspSide(s, s', i) && SameForRsp(s, s', x, i)
  {
    hide SendReq;
    SendReqIs(s, i, t, x, delay);
  }

  lemma SendReqKeeps(s: System, i: nat, t: nat, x: Trans, delay: nat)
    requires Inv(s) && i in s.inits && t in s.targets && Init(s, i).held == Some(x)
    ensures Inv(SendReq(s, i, t, x, delay)) && Local(s, SendReq(s, i, t, x, delay), x, t, i)
  {
    hide Inv, Local, TransOk, TargOk, ReqSideOk, RspSideOk, InitOk, SendReq;
    hide SameReqSide, SameForReq, SameTarget, Seen, SameRspSide, SameForRsp;
    var s' := SendReq(s, i, t, x, delay);
    Around(s, x, t, i);
    HeldAlone(s, i, x);
    SendReqIs(s, i, t, x, delay);
    SendReqLocal(s, i, t, x, delay);
    SendReqTrans(s, i, t, x, delay);
    SendReqInit(s, i, t, x, delay);
    SendReqSame(s, i, t, x, delay);
    RspSideStays(s, s', x, t, i, i);
    ReqSideStays(s, s', x, t, i, t);
    TargStays(s, s', x, t, i, t);
    Unfailed(s);
    Concludes(s, s', x, t, i);
  }

  lemma SendReqLocal(s: System, i: nat, t: nat, x: Trans, delay: nat)
    requires FromInit(s, i, x, Held) && i in s.inits && t in s.targets && Init(s, i).held == Some(x)
    ensures Local(s, SendReq(s, i, t, x, delay), x, t, i)
  {
  }

  lemma SendReqInit(s: System, i: nat, t: nat, x: Trans, delay: nat)
    requires FromInit(s, i, x, Held) && InitOk(s, i)
    ensures InitOk(SendReq(s, i, t, x, delay), i)
  {
    var s' := SendReq(s, i, t, x, delay);
    forall y ensures InitLaneOk(s', i, Init(s', i).peq, y) { assert InitLaneOk(s, i, Init(s, i).peq, y); }
  }

  lemma ReturnCompletedIs(s: System, t: nat, i: nat, x: Trans, r: Reply)
    requires Tok(s, x) == Token(RspReady, i, t)
    ensures var s', n := ReturnCompleted(s, i, x, r), Init(s, i);
            && Tok(s', x) == Token(Free, i, t) && s'.ic == s.ic && s'.targets == s.targets
            && s'.responder == s.responder
            && Init(s', i) == n.(reqInProgress := None)
            && Refs(s', x) == (if Refs(s, x) == 0 then 0 else Refs(s, x) - 1)
            && s'.failed == (s.failed || Refs(s, x) == 0)
  {
  }

  lemma ReturnCompletedTrans(s: System, t: nat, i: nat, x: Trans, r: Reply)
    requires TransOk(s, x) && Tok(s, x) == Token(RspReady, i, t)
    ensures TransOk(ReturnCompleted(s, i, x, r), x)
  {
    hide ReturnCompleted;
    ReturnCompletedIs(s, t, i, x, r);
  }

  lemma ReturnCompletedSame(s: System, t: nat, i: nat, x: Trans, r: Reply)
    requires Tok(s, x) == Token(RspReady, i, t) && Targ(s, t).kind.TypeE?
    ensures var s' := ReturnCompleted(s, i, x, r);
            && SameReqSide(s, s', t) && SameForReq(s, s', x, t) && SameTarget(s, s', t)
            && Seen(s', t, x) == Seen(s, t, x)
            && SameRspSide(s, s', i) && SameForRsp(s, s', x, i) && SameForInit(s, s', x, i)
  {
    hide ReturnCompleted;
    ReturnCompletedIs(s, t, i, x, r);
  }

  // TLM_COMPLETED by a target of type E goes straight back to the thread
  lemma ReturnCompletedKeeps(s: System, t: nat, i: nat, x: Trans, r: Reply)
    requires Inv(s) && Tok(s, x) == Token(RspReady, i, t) && Targ(s, t).kind.TypeE?
    ensures Inv(ReturnCompleted(s, i, x, r)) && Local(s, ReturnCompleted(s, i, x, r), x, t, i)
  {
    hide Inv, Local, TransOk, TargOk, ReqSideOk, RspSideOk, InitOk, ReturnCompleted;
    hide SameReqSide, SameForReq, SameTarget, Seen, SameRspSide, SameForRsp, SameForInit;
    var s' := ReturnCompleted(s, i, x, r);
    Around(s, x, t, i);
    Elsewhere(s, t, i, x);
    ReturnCompletedLocal(s, t, i, x, r);
    ReturnCompletedIs(s, t, i, x, r);
    ReturnCompletedTrans(s, t, i, x, r);
    ReturnCompletedSame(s, t, i, x, r);
    RspSideStays(s, s', x, t, i, i);
    InitStays(s, s', x, t, i, i);
    Unfailed(s);
    ConcludesAtInit(s, s', x, t, i);
  }

  lemma ReturnCompletedLocal(s: System, t: nat, i: nat, x: Trans, r: Reply)
    requires Tok(s, x) == Token(RspReady, i, t) && i in s.inits
    ensures Local(s, ReturnCompleted(s, i, x, r), x, t, i)
  {
    hide Local;
    var s1 := Show(s.(delivered := List(s.delivered, i, x)), InitHop(i), x, FwCompleted(true), r.delay);
    var s2 := PutInit(s1, i, Init(s1, i).(reqInProgress := None));
    var s' := ReturnCompleted(s, i, x, r);
    OwnLocal(s, s1, x, t, i);
    PutInitLocal(s1, t, i, x, Init(s1, i).(reqInProgress := None));
    LocalTrans(s, s1, s2, x, t, i);
    OwnLocal(s2, s', x, t, i);
    LocalTrans(s, s2, s', x, t, i);
  }

  // ---------- The callback ----------

  // A transaction that has never been in the system
  lemma Stranger(s: System) returns (z: Trans)
    ensures z !in s.tokens
  {
    z := Beyond(s.tokens.Keys);
  }

  lemma Beyond(known: set<nat>) returns (z: nat)
    ensures forall y :: y in known ==> y < z
  {
    if known == {} {
      z := 0;
    } else {
      var y :| y in known;
      var z' := Beyond(known - {y});
      z := if y < z' then z' else y + 1;
      forall w | w in known ensures w < z { assert w == y || w in known - {y}; }
    }
  }

  lemma StrangerOk(s: System, z: Trans)
    requires z !in s.tokens
    ensures TransOk(s, z)
  {
  }

  lemma TakeEndReqInit(s: System, i: nat, x: Trans)
    requires InitOk(s, i) && Lane(Init(s, i).peq, x) != [] && Lane(Init(s, i).peq, x)[0].phase == EndReq
    ensures InitOk(TakeEndReq(s, i, x), i)
  {
    var s' := TakeEndReq(s, i, x);
    forall y ensures InitLaneOk(s', i, Init(s', i).peq, y) { assert InitLaneOk(s, i, Init(s, i).peq, y); }
  }

  lemma PutInitSame(s: System, x: Trans, t: nat, i: nat, n: Initiator)
    ensures var s' := PutInit(s, i, n);
            && SameReqSide(s, s', t) && SameForReq(s, s', x, t) && SameTarget(s, s', t)
            && Seen(s', t, x) == Seen(s, t, x)
            && SameRspSide(s, s', i) && SameForRsp(s, s', x, i)
  {
  }

  lemma TakeEndReqKeeps(s: System, i: nat, x: Trans)
    requires Inv(s) && i in s.inits && Lane(Init(s, i).peq, x) != [] && Lane(Init(s, i).peq, x)[0].phase == EndReq
    ensures Inv(TakeEndReq(s, i, x))
  {
    hide Inv, Local, TransOk, TargOk, ReqSideOk, RspSideOk, InitOk;
    hide SameReqSide, SameForReq, SameTarget, Seen, SameRspSide, SameForRsp;
    var s' := TakeEndReq(s, i, x);
    var z := Stranger(s);
    Around(s, z, 0, i);
    PutInitLocal(s, 0, i, z, Init(s', i));
    TakeEndReqInit(s, i, x);
    StrangerOk(s', z);
    PutInitSame(s, z, 0, i, Init(s', i));
    RspSideStays(s, s', z, 0, i, i);
    Unfailed(s);
    ConcludesAtInit(s, s', z, 0, i);
  }

  function CloseResp(s: System, i: nat, x: Trans, delay: nat): System {
    EndRsp(TakeBeginResp(s, i, x), i, x, delay)
  }

  lemma CloseRespIs(s: System, i: nat, x: Trans, t: nat, delay: nat)
    requires Tok(s, x) == Token(RspSent, i, t)
    ensures var s' := CloseResp(s, i, x, delay);
            && Tok(s', x) == Token(Closing, i, t) && Refs(s', x) == Refs(s, x)
            && s'.targets == s.targets && s'.responder == s.responder && s'.inits.Keys == s.inits.Keys + {i}
            && s'.ic == s.ic.(endRsp := s.ic.endRsp + {i})
            && (i in s.ic.rspSlot && x in s.ic.ext && RouteOf(s, x).init == i ==> s'.failed == s.failed)
  {
  }

  lemma CloseRespTrans(s: System, i: nat, x: Trans, t: nat, delay: nat)
    requires TransOk(s, x) && Tok(s, x) == Token(RspSent, i, t)
    ensures TransOk(CloseResp(s, i, x, delay), x) && Spare(CloseResp(s, i, x, delay), x) > 0
  {
    hide CloseResp;
    CloseRespIs(s, i, x, t, delay);
  }

  lemma SentIs(s: System, i: nat, x: Trans, t: nat)
    requires Inv(s) && Tok(s, x) == Token(RspSent, i, t)
    ensures i in s.inits && LiveRsp(s, i) == Some(x) && x in s.ic.ext && RouteOf(s, x).init == i
  {
    assert TransOk(s, x);
  }

  // BEGIN_RESP is delivered and END_RESP sent
  lemma CloseRespKeeps(s: System, i: nat, x: Trans, t: nat, delay: nat)
    requires Inv(s) && Tok(s, x) == Token(RspSent, i, t)
    requires |Lane(Init(s, i).peq, x)| == 1
    ensures Inv(CloseResp(s, i, x, delay)) && Local(s, CloseResp(s, i, x, delay), x, t, i)
    ensures Spare(CloseResp(s, i, x, delay), x) > 0
  {
    hide SameReqSide, SameForReq, SameTarget, Seen;
    hide Inv, Local, TransOk, TargOk, ReqSideOk, RspSideOk, InitOk, CloseResp;
    var s' := CloseResp(s, i, x, delay);
    Around(s, x, t, i);
    SentIs(s, i, x, t);
    CloseRespIs(s, i, x, t, delay);
    CloseRespLocal(s, i, x, t, delay);
    CloseRespSides(s, i, x, t, delay);
    CloseRespTrans(s, i, x, t, delay);
    RspMoveSame(s, s', x, t, i);
    Unfailed(s);
    ConcludesAtInit(s, s', x, t, i);
  }

  lemma CloseRespLocal(s: System, i: nat, x: Trans, t: nat, delay: nat)
    requires Tok(s, x) == Token(RspSent, i, t) && i in s.inits && LiveRsp(s, i) == Some(x)
    ensures Local(s, CloseResp(s, i, x, delay), x, t, i)
  {
    var s1 := TakeBeginResp(s, i, x);
    var s2 := Show(s1, InitHop(i), x, Forward(EndResp), delay);
    var s3 := Move(s2, x, Closing);
    var s4 := Check(s3, x in s3.ic.ext && RouteOf(s3, x).init == i);
    PutInitLocal(s, t, i, x, Init(s1, i));
    ShowLocal(s1, t, i, x, InitHop(i), Forward(EndResp), delay);
    LocalTrans(s, s1, s2, x, t, i);
    MoveLocal(s2, t, i, x, Closing);
    LocalTrans(s, s2, s3, x, t, i);
    CheckLocal(s3, t, i, x, x in s3.ic.ext && RouteOf(s3, x).init == i);
    LocalTrans(s, s3, s4, x, t, i);
    NotifyRspLocal(s4, t, i, x);
    LocalTrans(s, s4, NotifyEndRsp(s4, i), x, t, i);
  }

  lemma CloseRespSides(s: System, i: nat, x: Trans, t: nat, delay: nat)
    requires Tok(s, x) == Token(RspSent, i, t) && |Lane(Init(s, i).peq, x)| == 1
    requires InitOk(s, i) && RspSideOk(s, i) && LiveRsp(s, i) == Some(x)
    ensures InitOk(CloseResp(s, i, x, delay), i) && RspSideOk(CloseResp(s, i, x, delay), i)
  {
    var s' := CloseResp(s, i, x, delay);
    var q := Queue(s.ic.rspQueue, i);
    forall y ensures InitLaneOk(s', i, Init(s', i).peq, y) { assert InitLaneOk(s, i, Init(s, i).peq, y); }
    forall k | 0 <= k < |q| ensures FromInit(s', i, q[k].trans, RspQueued) {
      assert FromInit(s, i, q[k].trans, RspQueued);
    }
  }

  // ---------- No transaction moves ----------

  // Only references and history differ
  predicate Alike(s: System, s': System) {
    s'.tokens == s.tokens && s'.ic == s.ic && s'.inits == s.inits && s'.targets == s.targets
        && s'.responder == s.responder
  }

  lemma AlikeSame(s: System, s': System, x: Trans, t: nat, i: nat)
    requires Alike(s, s')
    ensures SameReqSide(s, s', t) && SameForReq(s, s', x, t) && SameTarget(s, s', t) && Seen(s', t, x) == Seen(s, t, x)
    ensures SameRspSide(s, s', i) && SameForRsp(s, s', x, i) && Init(s', i) == Init(s, i) && SameForInit(s, s', x, i)
  {
  }

  // A change of x in nothing but its references and its history
  lemma StandsStill(s: System, s': System, x: Trans, t: nat, i: nat)
    requires Inv(s) && Local(s, s', x, t, i) && Spare(s', x) >= 0 && !s'.failed && Alike(s, s')
    ensures Inv(s')
  {
    hide Inv, Local, TransOk, TargOk, ReqSideOk, RspSideOk, InitOk, Alike;
    hide SameReqSide, SameForReq, SameTarget, Seen, SameRspSide, SameForRsp, SameForInit;
    Around(s, x, t, i);
    AlikeSame(s, s', x, t, i);
    StillOk(s, s', x);
    ReqSideStays(s, s', x, t, i, t);
    TargStays(s, s', x, t, i, t);
    ConcludesAtTarget(s, s', x, t, i);
  }

  lemma StillOk(s: System, s': System, x: Trans)
    requires TransOk(s, x) && Spare(s', x) >= 0 && Alike(s, s')
    ensures TransOk(s', x)
  {
  }

  lemma ReleaseKeeps(s: System, x: Trans)
    requires Inv(s) && Spare(s, x) > 0
    ensures Inv(Release(s, x)) && Local(s, Release(s, x), x, Tok(s, x).target, Tok(s, x).init)
  {
    hide Inv, Local;
    ReleaseLocal(s, Tok(s, x).target, Tok(s, x).init, x);
    Unfailed(s);
    StandsStill(s, Release(s, x), x, Tok(s, x).target, Tok(s, x).init);
  }

  lemma ClearReqLocal(s: System, t: nat, z: Trans)
    requires z !in s.tokens && t in s.ic.endReq && ReqSideOk(s, t) && Queue(s.ic.reqQueue, t) == []
    ensures Local(s, ClearReqSlot(s, t), z, t, 0) && ReqSideOk(ClearReqSlot(s, t), t)
  {
  }

  lemma ClearReqSame(s: System, t: nat, z: Trans)
    ensures var s' := ClearReqSlot(s, t);
            && SameTarget(s, s', t) && Seen(s', t, z) == Seen(s, t, z)
            && SameRspSide(s, s', 0) && SameForRsp(s, s', z, 0) && Init(s', 0) == Init(s, 0) && SameForInit(s, s', z, 0)
  {
  }

  lemma ClearReqSlotKeeps(s: System, t: nat)
    requires Inv(s) && t in s.ic.endReq && Queue(s.ic.reqQueue, t) == []
    ensures Inv(ClearReqSlot(s, t))
  {
    hide Inv, Local, TransOk, TargOk, ReqSideOk, RspSideOk, InitOk;
    hide SameReqSide, SameForReq, Seen, SameRspSide, SameForRsp, SameForInit;
    var s' := ClearReqSlot(s, t);
    var z := Stranger(s);
    Around(s, z, t, 0);
    ClearReqLocal(s, t, z);
    StrangerOk(s', z);
    ClearReqSame(s, t, z);
    TargStays(s, s', z, t, 0, t);
    ConcludesAtTarget(s, s', z, t, 0);
  }

  lemma ClearRspLocal(s: System, i: nat, z: Trans)
    requires z !in s.tokens && i in s.ic.endRsp && RspSideOk(s, i) && Queue(s.ic.rspQueue, i) == []
    ensures Local(s, ClearRspSlot(s, i), z, 0, i) && RspSideOk(ClearRspSlot(s, i), i)
  {
  }

  lemma ClearRspSame(s: System, i: nat, z: Trans)
    ensures var s' := ClearRspSlot(s, i);
            && SameReqSide(s, s', 0) && SameForReq(s, s', z, 0) && SameTarget(s, s', 0)
            && Seen(s', 0, z) == Seen(s, 0, z)
            && Init(s', i) == Init(s, i) && SameForInit(s, s', z, i)
  {
  }

  lemma ClearRspSlotKeeps(s: System, i: nat)
    requires Inv(s) && i in s.ic.endRsp && Queue(s.ic.rspQueue, i) == []
    ensures Inv(ClearRspSlot(s, i))
  {
    hide Inv, Local, TransOk, TargOk, ReqSideOk, RspSideOk, InitOk;
    hide SameReqSide, SameForReq, SameTarget, Seen, SameRspSide, SameForRsp, SameForInit;
    var s' := ClearRspSlot(s, i);
    var z := Stranger(s);
    Around(s, z, 0, i);
    ClearRspLocal(s, i, z);
    StrangerOk(s', z);
    ClearRspSame(s, i, z);
    InitStays(s, s', z, 0, i, i);
    ConcludesAtInit(s, s', z, 0, i);
  }

  lemma ReadyKeeps(s: System, t: nat, i: nat, x: Trans)
    requires Inv(s) && Tok(s, x) == Token(StageOf(s, x), i, t)
    ensures Inv(Ready(s, i, x)) && Local(s, Ready(s, i, x), x, t, i)
  {
    hide Inv, Local;
    ReadyLocal(s, t, i, x);
    Unfailed(s);
    SpareOk(s, x);
    StandsStill(s, Ready(s, i, x), x, t, i);
  }

  // ---------- The target is told that the initiator has completed ----------

  lemma ClosedOk(s: System, s1: System, t: nat, i: nat, x: Trans)
    requires TransOk(s, x) && Tok(s, x) == Token(Closing, i, t) && !Targ(s, t).kind.TypeE? && s1 == s.(log := s1.log)
    ensures TransOk(Move(s1, x, Closed), x)
  {
  }

  lemma ClosedSame(s: System, s1: System, t: nat, i: nat, x: Trans)
    requires Tok(s, x) == Token(Closing, i, t) && !Targ(s, t).kind.TypeE? && s1 == s.(log := s1.log)
    ensures var s' := Move(s1, x, Closed);
            && SameReqSide(s, s', t) && SameForReq(s, s', x, t) && SameTarget(s, s', t)
            && Seen(s', t, x) == Seen(s, t, x)
            && SameRspSide(s, s', i) && SameForRsp(s, s', x, i) && Init(s', i) == Init(s, i) && SameForInit(s, s', x, i)
  {
  }

  lemma MarkClosedKeeps(s: System, t: nat, i: nat, x: Trans, delay: nat)
    requires Inv(s) && Tok(s, x) == Token(Closing, i, t) && !Targ(s, t).kind.TypeE?
    ensures var s' := Move(Show(s, TargHop(t), x, BwCompleted, delay), x, Closed); Inv(s') && Local(s, s', x, t, i)
  {
    hide Inv, Local, TransOk, TargOk, ReqSideOk, RspSideOk, InitOk;
    hide SameReqSide, SameForReq, SameTarget, Seen, SameRspSide, SameForRsp, SameForInit;
    var s1 := Show(s, TargHop(t), x, BwCompleted, delay);
    var s' := Move(s1, x, Closed);
    Around(s, x, t, i);
    ShowLocal(s, t, i, x, TargHop(t), BwCompleted, delay);
    MoveLocal(s1, t, i, x, Closed);
    LocalTrans(s, s1, s', x, t, i);
    ClosedOk(s, s1, t, i, x);
    ClosedSame(s, s1, t, i, x);
    ReqSideStays(s, s', x, t, i, t);
    TargStays(s, s', x, t, i, t);
    ConcludesAtTarget(s, s', x, t, i);
  }
}
