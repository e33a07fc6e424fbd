/** What holds of the transport system in every run, for any number of initiators and targets. */
module AtTheorems {
  import opened Tlm
  import opened AtSystem
  import opened AtInvariant
  import opened AtFrame
  import opened AtOrder
  import opened AtSteps
  import opened AtWatch
  import opened AtWatchMoves

  ghost predicate Reaches(s0: System, actions: seq<Action>, s: System) {
    Initial(s0) && Runs(s0, actions) && s == After(s0, actions)
  }

  lemma ReachedIsSound(s0: System, actions: seq<Action>, s: System)
    requires Reaches(s0, actions, s)
    ensures Good(s) && Quiet(s) && SameConfig(s0, s)
  {
    InitialKeeps(s0);
    RunKeeps(s0, actions);
  }

  // No assert and no SC_REPORT_FATAL is reached, and no reference is released twice
  lemma NeverFails(s0: System, actions: seq<Action>, s: System)
    requires Reaches(s0, actions, s)
    ensures !s.failed
  {
    ReachedIsSound(s0, actions, s);
  }

  // ---------- Exclusion ----------

  // A target has at most one request not yet ended, and an initiator at most one response
  lemma Exclusion(s0: System, actions: seq<Action>, s: System, x: Trans, y: Trans)
    requires Reaches(s0, actions, s)
    ensures Open(s, x) && Open(s, y) && Tok(s, x).target == Tok(s, y).target ==> x == y
    ensures StageOf(s, x) == StageOf(s, y) == RspSent && Tok(s, x).init == Tok(s, y).init ==> x == y
  {
    ReachedIsSound(s0, actions, s);
    assert TransOk(s, x) && TransOk(s, y);
  }

  // ---------- Wake-ups ----------

  // A taken slot is taken by something not yet ended, or its event is pending; what waits, waits for a taken slot
  lemma NoLostWakeUp(s0: System, actions: seq<Action>, s: System, k: nat)
    requires Reaches(s0, actions, s)
    ensures k in s.ic.reqSlot ==>
              k in s.ic.endReq || (Open(s, s.ic.reqSlot[k]) && Tok(s, s.ic.reqSlot[k]).target == k)
    ensures k in s.ic.rspSlot ==> k in s.ic.endRsp || FromInit(s, k, s.ic.rspSlot[k], RspSent)
    ensures Queue(s.ic.reqQueue, k) != [] ==> k in s.ic.reqSlot
    ensures Queue(s.ic.rspQueue, k) != [] ==> k in s.ic.rspSlot
  {
    ReachedIsSound(s0, actions, s);
    assert ReqSideOk(s, k) && RspSideOk(s, k);
  }

  // A run of a process whose queue is not empty takes its head and nothing else
  lemma ProcessesShorten(s: System, k: nat, acc: nat, lat: nat, rnd: nat)
    ensures var q := Queue(s.ic.reqQueue, k);
            q != [] ==> EndReqProcess(s, k, acc, lat, rnd).ic.reqQueue == s.ic.reqQueue[k := q[1..]]
    ensures var q := Queue(s.ic.rspQueue, k);
            q != [] ==> EndRspProcess(s, k, rnd).ic.rspQueue == s.ic.rspQueue[k := q[1..]]
  {
    var _ := EndReqProcessFlow(s, k, acc, lat, rnd);
    EndRspProcessFlow(s, k, rnd);
    var s1, s2 := EndReqProcess(s, k, acc, lat, rnd), EndRspProcess(s, k, rnd);
    assert Requests(s1).waiting == s1.ic.reqQueue && Responses(s2).waiting == s2.ic.rspQueue;
  }

  // No event of any kind is pending
  ghost predicate Idle(s: System) {
    && s.ic.endReq == {} && s.ic.endRsp == {}
    && (forall t :: !Targ(s, t).rspEvent)
    && (forall t, x :: Lane(Targ(s, t).peq, x) == [])
    && (forall i, x :: Lane(Init(s, i).peq, x) == [])
  }

  // The system never stalls: when nothing is left to happen, no transaction is under way and no thread waits
  lemma NeverStalls(s0: System, actions: seq<Action>, s: System, x: Trans, k: nat)
    requires Reaches(s0, actions, s) && Idle(s)
    ensures StageOf(s, x) in {Free, Held}
    ensures k !in s.ic.reqSlot && k !in s.ic.rspSlot
    ensures Queue(s.ic.reqQueue, k) == [] && Queue(s.ic.rspQueue, k) == []
    ensures !Targ(s, k).responding && Targ(s, k).nextRsp == None && Targ(s, k).endReqPending == None
    ensures Init(s, k).reqInProgress == None
  {
    ReachedIsSound(s0, actions, s);
    NothingUnderWay(s, x);
    IdleSockets(s, k);
    IdleTarget(s, k);
    IdleInit(s, k);
  }

  lemma IdleSockets(s: System, k: nat)
    requires Inv(s) && Quiet(s) && Idle(s)
    ensures k !in s.ic.reqSlot && k !in s.ic.rspSlot
    ensures Queue(s.ic.reqQueue, k) == [] && Queue(s.ic.rspQueue, k) == []
  {
    assert ReqSideOk(s, k) && RspSideOk(s, k);
    if k in s.ic.reqSlot { NothingUnderWay(s, s.ic.reqSlot[k]); }
    if k in s.ic.rspSlot { NothingUnderWay(s, s.ic.rspSlot[k]); }
  }

  lemma IdleTarget(s: System, k: nat)
    requires Inv(s) && Quiet(s) && Idle(s)
    ensures !Targ(s, k).responding && Targ(s, k).nextRsp == None && Targ(s, k).endReqPending == None
  {
    var g := Targ(s, k);
    assert TargOk(s, k);
    if g.responding { NothingUnderWay(s, s.responder[k]); }
    if g.nextRsp.Some? { NothingUnderWay(s, g.nextRsp.value); }
    if g.endReqPending.Some? { NothingUnderWay(s, g.endReqPending.value); }
  }

  // No thread waits for the end of a request
  lemma IdleInit(s: System, k: nat)
    requires Inv(s) && Quiet(s) && Idle(s)
    ensures Init(s, k).reqInProgress == None
  {
    var n := Init(s, k);
    assert InitOk(s, k);
    if n.reqInProgress.Some? { NothingUnderWay(s, n.reqInProgress.value); }
  }

  lemma NothingUnderWay(s: System, x: Trans)
    requires Inv(s) && Quiet(s) && Idle(s)
    ensures StageOf(s, x) in {Free, Held}
  {
    var k := Tok(s, x);
    assert TransOk(s, x) && !Passing(k.stage);
    NotInQueues(s, x);
    match k.stage
    case ReqQueued => NoneOpen(s, k.target);
    case ReqDeferred => NoneOpen(s, k.target);
    case RspDeferred => NoneDeferred(s, k.target);
    case RspQueued => NoneSent(s, k.init);
    case _ =>
  }

  lemma NotInQueues(s: System, x: Trans)
    requires Inv(s) && Idle(s)
    ensures StageOf(s, x) !in {PeqReq, Executing, PeqEnd, RspSent}
  {
    var k := Tok(s, x);
    assert TargOk(s, k.target) && TargLaneOk(s, k.target, Targ(s, k.target).peq, x);
    assert InitOk(s, k.init) && InitLaneOk(s, k.init, Init(s, k.init).peq, x);
    assert Lane(Targ(s, k.target).peq, x) == [] && Lane(Init(s, k.init).peq, x) == [];
  }

  lemma NoneSent(s: System, i: nat)
    requires Inv(s) && Idle(s)
    ensures i !in s.ic.rspSlot && Queue(s.ic.rspQueue, i) == []
  {
    assert RspSideOk(s, i);
    if i in s.ic.rspSlot { NotInQueues(s, s.ic.rspSlot[i]); }
  }

  lemma NoneResponding(s: System, t: nat)
    requires Inv(s) && Quiet(s) && Idle(s)
    ensures !Targ(s, t).responding
  {
    assert TargOk(s, t);
    if t in s.responder {
      var z := s.responder[t];
      assert TransOk(s, z) && !Passing(StageOf(s, z));
      NotInQueues(s, z);
      NoneSent(s, Tok(s, z).init);
    }
  }

  lemma NoneDeferred(s: System, t: nat)
    requires Inv(s) && Quiet(s) && Idle(s)
    ensures Targ(s, t).nextRsp == None && Targ(s, t).endReqPending == None
  {
    NoneResponding(s, t);
    assert TargOk(s, t) && Settled(s, t);
    assert Executions(s, t) == {} by {
      forall y ensures y !in Executions(s, t) { NotInQueues(s, y); assert !Passing(StageOf(s, y)); }
    }
    forall y: Trans ensures Targ(s, t).endReqPending != Some(y) { assert TransOk(s, y); }
    NothingIsNone(Targ(s, t).endReqPending);
  }

  lemma NoneOpen(s: System, t: nat)
    requires Inv(s) && Quiet(s) && Idle(s)
    ensures t !in s.ic.reqSlot && Queue(s.ic.reqQueue, t) == [] && Targ(s, t).endReqPending == None
  {
    assert ReqSideOk(s, t);
    NoneDeferred(s, t);
    if t in s.ic.reqSlot {
      var z := s.ic.reqSlot[t];
      assert TransOk(s, z) && !Passing(StageOf(s, z));
      NotInQueues(s, z);
    }
  }

  // ---------- Targets ----------

  // Types A and B hold at most two transactions and hold back END_REQ only when they hold two
  lemma Pipeline(s0: System, actions: seq<Action>, s: System, t: nat)
    requires Reaches(s0, actions, s) && Pipelined(Targ(s, t).kind)
    ensures var g := Targ(s, t);
            && g.nTrans == |InternalEvents(s, t)| + Bit(g.responding) + Bit(g.nextRsp.Some?) && 0 <= g.nTrans <= 2
            && (g.endReqPending.Some? ==> g.nTrans == 2) && (g.nextRsp.Some? ==> g.responding)
  {
    ReachedIsSound(s0, actions, s);
    assert TargOk(s, t) && Settled(s, t);
    assert InternalEvents(s, t) == Executions(s, t) by {
      forall x ensures x in InternalEvents(s, t) <==> x in Executions(s, t) {
        assert TargLaneOk(s, t, Targ(s, t).peq, x) && !Passing(StageOf(s, x));
      }
    }
  }

  // The transactions whose internal event is in the queue of target t
  ghost function InternalEvents(s: System, t: nat): set<Trans> {
    set x | x in Targ(s, t).peq && HasEvent(s, t, x, Internal)
  }

  predicate HasEvent(s: System, t: nat, x: Trans, phase: Phase) {
    var lane := Lane(Targ(s, t).peq, x);
    lane != [] && lane[0].phase == phase
  }

  predicate Unanswered(s: System, t: nat, x: Trans) {
    HasEvent(s, t, x, BeginReq) || HasEvent(s, t, x, Internal) || Targ(s, t).nextRsp == Some(x)
  }

  lemma OpenWhenUnanswered(s: System, t: nat, x: Trans)
    requires Inv(s) && Implicit(Targ(s, t).kind) && Unanswered(s, t, x)
    ensures t in s.ic.reqSlot && s.ic.reqSlot[t] == x
  {
    Around(s, x, t, Tok(s, x).init);
  }

  // Types C and D have nothing but the exclusion rule to keep a second request away: it is enough
  lemma SingleRequest(s0: System, actions: seq<Action>, s: System, t: nat, x: Trans, y: Trans)
    requires Reaches(s0, actions, s) && Implicit(Targ(s, t).kind)
    requires Unanswered(s, t, x) && Unanswered(s, t, y)
    ensures x == y
  {
    hide Inv, Quiet, Watched, Unanswered;
    ReachedIsSound(s0, actions, s);
    OpenWhenUnanswered(s, t, x);
    OpenWhenUnanswered(s, t, y);
  }

  // ---------- The pool ----------

  // A transaction that the pool may hand out is known to nobody
  lemma NeverRecycledWhileHeld(s0: System, actions: seq<Action>, s: System, x: Trans, i: nat, t: nat)
    requires Reaches(s0, actions, s) && Refs(s, x) == 0
    ensures Init(s, i).held != Some(x)
    ensures forall k :: 0 <= k < |Queue(s.ic.reqQueue, t)| ==> Queue(s.ic.reqQueue, t)[k].trans != x
    ensures forall k :: 0 <= k < |Queue(s.ic.rspQueue, i)| ==> Queue(s.ic.rspQueue, i)[k].trans != x
    ensures Lane(Targ(s, t).peq, x) == []
    ensures Targ(s, t).nextRsp != Some(x) && Targ(s, t).endReqPending != Some(x)
    ensures forall e :: e in Lane(Init(s, i).peq, x) ==> e.phase == EndReq
    ensures t in s.ic.reqSlot && s.ic.reqSlot[t] == x ==> t in s.ic.endReq
    ensures i in s.ic.rspSlot && s.ic.rspSlot[i] == x ==> i in s.ic.endRsp
  {
    hide Inv, Watched;
    ReachedIsSound(s0, actions, s);
    Around(s, x, t, i);
    assert TransOk(s, x) && !Passing(StageOf(s, x)) && StageOf(s, x) == Free;
    assert TargOk(s, t) && TargLaneOk(s, t, Targ(s, t).peq, x);
    assert InitOk(s, i) && InitLaneOk(s, i, Init(s, i).peq, x);
    assert ReqSideOk(s, t) && RspSideOk(s, i);
    forall k | 0 <= k < |Queue(s.ic.reqQueue, t)| ensures Queue(s.ic.reqQueue, t)[k].trans != x {
      assert At(s, t, Queue(s.ic.reqQueue, t)[k].trans, ReqQueued);
    }
    forall k | 0 <= k < |Queue(s.ic.rspQueue, i)| ensures Queue(s.ic.rspQueue, i)[k].trans != x {
      assert FromInit(s, i, Queue(s.ic.rspQueue, i)[k].trans, RspQueued);
    }
  }

  // ---------- Order ----------

  // Nothing is lost, duplicated or overtaken, at any target and any initiator
  lemma FirstComeFirstServed(s0: System, actions: seq<Action>, s: System, k: nat)
    requires Reaches(s0, actions, s)
    ensures Listed(s.arrived, k) == Listed(s.forwarded, k) + TransOf(Queue(s.ic.reqQueue, k))
    ensures Listed(s.ready, k) == Listed(s.delivered, k) + TransOf(Queue(s.ic.rspQueue, k))
  {
    assert InOrder(Requests(s0)) && InOrder(Responses(s0));
    RunInOrder(s0, actions);
    assert InOrder(Requests(s)) && InOrder(Responses(s));
  }
}
