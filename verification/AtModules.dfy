/**
 The transport system as an object whose methods, named after those of the source, update its fields.
 What the methods change is given by the functions of AtSystem; the fields of the modules are records
 in two dictionaries. The history is ghost.
 */
module AtModules {
  import opened Tlm
  import opened AtSystem
  import Spec = AtSystem
  import opened AtInvariant
  import opened AtWatch
  import opened AtWatchMoves
  import AtCallbacks
  import AtSteps

  class Platform {
    const minLatency: nat
    var now: nat
    var inits: map<nat, Initiator>
    var targets: map<nat, Target>
    var reqInProgress: map<nat, Trans>
    var rspInProgress: map<nat, Trans>
    var endReqEvent: set<nat>
    var endRspEvent: set<nat>
    var reqQueue: map<nat, seq<Queued>>
    var rspQueue: map<nat, seq<Queued>>
    var ext: map<Trans, Route>
    var refs: map<Trans, nat>
    var failed: bool
    ghost var tokens: map<Trans, Token>
    ghost var responder: map<nat, Trans>
    ghost var log: seq<Event>
    ghost var arrived: map<nat, seq<Trans>>
    ghost var forwarded: map<nat, seq<Trans>>
    ghost var ready: map<nat, seq<Trans>>
    ghost var delivered: map<nat, seq<Trans>>

    ghost function View(): System
      reads this
    {
      System(now, minLatency, inits, targets,
             Interconnect(reqInProgress, rspInProgress, endReqEvent, endRspEvent, reqQueue, rspQueue, ext),
             refs, failed, tokens, responder, log, arrived, forwarded, ready, delivered)
    }

    ghost predicate Valid()
      reads this
    {
      Good(View()) && Quiet(View())
    }

    constructor (inits: map<nat, InitKind>, targets: map<nat, TargetKind>, minLatency: nat)
      ensures Initial(View()) && Valid() && now == 0 && this.minLatency == minLatency
      ensures this.inits == map i | i in inits :: Initiator(inits[i], None, None, map[])
      ensures this.targets == map t | t in targets :: Target(targets[t], 0, false, None, None, 0, false, map[])
    {
      this.minLatency := minLatency;
      this.inits := map i | i in inits :: Initiator(inits[i], None, None, map[]);
      this.targets := map t | t in targets :: Target(targets[t], 0, false, None, None, 0, false, map[]);
      now, failed, refs, ext := 0, false, map[], map[];
      reqInProgress, rspInProgress, endReqEvent, endRspEvent, reqQueue, rspQueue := map[], map[], {}, {}, map[], map[];
      tokens, responder, log, arrived, forwarded, ready, delivered := map[], map[], [], map[], map[], map[], map[];
      new;
      AtSteps.InitialKeeps(View());
    }

    // ---------- Records ----------

    function InitOf(i: nat): (n: Initiator)
      reads this
      ensures n == Init(View(), i)
    {
      if i in inits then inits[i] else Initiator(InitA, None, None, map[])
    }

    function TargetOf(t: nat): (g: Target)
      reads this
      ensures g == Targ(View(), t)
    {
      if t in targets then targets[t] else Target(TypeE, 0, false, None, None, 0, false, map[])
    }

    function Routing(x: Trans): (r: Route)
      reads this
      ensures r == RouteOf(View(), x)
    {
      if x in ext then ext[x] else Route(0, 0, false)
    }

    function RefCount(x: Trans): (n: nat)
      reads this
      ensures n == Refs(View(), x)
    {
      if x in refs then refs[x] else 0
    }

    method Acquire(x: Trans)
      modifies this
      ensures View() == Spec.Acquire(old(View()), x)
    {
      refs := refs[x := RefCount(x) + 1];
    }

    method Release(x: Trans)
      modifies this
      ensures View() == Spec.Release(old(View()), x)
    {
      if RefCount(x) == 0 {
        failed := true;
        refs := refs[x := 0];
      } else {
        refs := refs[x := RefCount(x) - 1];
      }
    }

    // An assert of the source, or the condition of an SC_REPORT_FATAL
    method Assert(ok: bool)
      modifies this
      ensures View() == Spec.Check(old(View()), ok)
    {
      if !ok { failed := true; }
    }

    // ---------- History ----------

    ghost method Moves(x: Trans, stage: Stage)
      modifies this
      ensures View() == Move(old(View()), x, stage)
    {
      tokens := tokens[x := Tok(View(), x).(stage := stage)];
    }

    ghost method Shows(hop: Hop, x: Trans, signal: Signal, delay: nat)
      modifies this
      ensures View() == Show(old(View()), hop, x, signal, delay)
    {
      log := log + [Event(hop, x, signal, now + delay)];
    }

    // ---------- Targets: nb_transport_fw ----------

    method TargetBeginReq(t: nat, x: Trans, delay: nat, acc: nat, lat: nat) returns (r: Reply)
      modifies this
      ensures Outcome(View(), r) == Spec.TargetBeginReq(old(View()), t, x, delay, acc, lat)
    {
      hide TargetAccepts, TargetPostReq, TargetDefers, TargetResponds;
      var g := TargetOf(t);
      match g.kind
      case TypeA => r := PostsRequest(t, x, delay);
      case TypeB => if g.nTrans < 2 { r := AcceptsRequest(t, x, delay, acc, lat); }
          else { r := PostsRequest(t, x, delay); }
      case TypeC => r := PostsRequest(t, x, delay);
      case TypeD => r := RespondsOrDefers(t, x, delay, lat);
      case TypeE =>
        Moves(x, RspReady);
        r := Reply(Completed, BeginReq, delay + lat);
    }

    method PostsRequest(t: nat, x: Trans, delay: nat) returns (r: Reply)
      modifies this
      ensures Outcome(View(), r) == TargetPostReq(old(View()), t, x, delay)
    {
      var g := TargetOf(t);
      targets := targets[t := g.(peq := Post(g.peq, x, now + delay, BeginReq))];
      Moves(x, PeqReq);
      r := Reply(Accepted, BeginReq, delay);
    }

    // Type B with room in its pipeline
    method AcceptsRequest(t: nat, x: Trans, delay: nat, acc: nat, lat: nat) returns (r: Reply)
      modifies this
      ensures Outcome(View(), r) == TargetAccepts(old(View()), t, x, delay, acc, lat)
    {
      var g := TargetOf(t);
      Acquire(x);
      targets := targets[t := g.(peq := Post(g.peq, x, now + delay + acc + lat, Internal), nTrans := g.nTrans + 1)];
      Moves(x, Executing);
      r := Reply(Updated, EndReq, delay + acc);
    }

    // Type D
    method RespondsOrDefers(t: nat, x: Trans, delay: nat, lat: nat) returns (r: Reply)
      modifies this
      ensures Outcome(View(), r) == if Targ(old(View()), t).responding then TargetDefers(old(View()), t, x, delay, lat)
                                    else TargetResponds(old(View()), t, x, delay, lat)
    {
      hide TargetDefers, TargetResponds;
      if TargetOf(t).responding {
        r := DefersResponse(t, x, delay, lat);
      } else {
        r := RespondsAtOnce(t, x, delay, lat);
      }
    }

    method DefersResponse(t: nat, x: Trans, delay: nat, lat: nat) returns (r: Reply)
      modifies this
      ensures Outcome(View(), r) == TargetDefers(old(View()), t, x, delay, lat)
    {
      var g := TargetOf(t);
      Acquire(x);
      Assert(g.nextRsp.None?);
      targets := targets[t := g.(nextRsp := Some(x), nextTime := now + delay + lat)];
      Moves(x, RspDeferred);
      r := Reply(Accepted, BeginReq, delay + lat);
    }

    method RespondsAtOnce(t: nat, x: Trans, delay: nat, lat: nat) returns (r: Reply)
      modifies this
      ensures Outcome(View(), r) == TargetResponds(old(View()), t, x, delay, lat)
    {
      var g := TargetOf(t);
      Acquire(x);
      targets := targets[t := g.(responding := true)];
      responder := responder[t := x];
      Moves(x, RspReady);
      r := Reply(Updated, BeginResp, delay + lat);
    }

    method TargetEndResp(t: nat, x: Trans, delay: nat) returns (r: Reply)
      modifies this
      ensures Outcome(View(), r) == Spec.TargetEndResp(old(View()), t, x, delay)
    {
      hide TargetClears;
      var g := TargetOf(t);
      if g.kind.TypeE? {
        Moves(x, Free);
        r := Reply(Completed, EndResp, delay);
      } else if g.kind.TypeD? {
        r := ClearsResponse(t, x, delay);
      } else {
        targets := targets[t := g.(peq := Post(g.peq, x, now + delay, EndResp))];
        Moves(x, PeqEnd);
        r := Reply(Accepted, EndResp, delay);
      }
    }

    // Type D
    method ClearsResponse(t: nat, x: Trans, delay: nat) returns (r: Reply)
      modifies this
      ensures Outcome(View(), r) == TargetClears(old(View()), t, x, delay)
    {
      var g := TargetOf(t);
      Assert(g.responding);
      Release(x);
      targets := targets[t := g.(responding := false, rspEvent := g.rspEvent || g.nextRsp.Some?)];
      responder := responder - {t};
      Moves(x, Free);
      r := Reply(Completed, EndResp, delay);
    }

    // ---------- Initiators: nb_transport_bw ----------

    method InitPosts(i: nat, x: Trans, phase: Phase, delay: nat)
      modifies this
      ensures View() == Spec.InitPosts(old(View()), i, x, phase, delay)
    {
      var n := InitOf(i);
      Shows(InitHop(i), x, Backward(phase), delay);
      inits := inits[i := n.(peq := Post(n.peq, x, now + delay, phase))];
    }

    method InitCompletes(i: nat, x: Trans, delay: nat, rnd: nat)
      modifies this
      ensures View() == Spec.InitCompletes(old(View()), i, x, delay, rnd)
    {
      var n := InitOf(i);
      Shows(InitHop(i), x, Backward(BeginResp), delay);
      if n.reqInProgress == Some(x) { n := n.(reqInProgress := None); }
      inits := inits[i := n];
      Release(x);
      Moves(x, Closing);
      Shows(InitHop(i), x, BwCompleted, delay + rnd);
    }

    // ---------- Interconnect ----------

    method NotifyEndReq(t: nat)
      modifies this
      ensures View() == Spec.NotifyEndReq(old(View()), t)
    {
      Assert(t in reqInProgress);
      endReqEvent := endReqEvent + {t};
    }

    method NotifyEndRsp(i: nat)
      modifies this
      ensures View() == Spec.NotifyEndRsp(old(View()), i)
    {
      Assert(i in rspInProgress);
      endRspEvent := endRspEvent + {i};
    }

    method OpensRequest(t: nat, x: Trans, delay: nat)
      modifies this
      ensures View() == OpenReq(old(View()), t, x, delay)
    {
      hide Show, List;
      reqInProgress := reqInProgress[t := x];
      endReqEvent := endReqEvent - {t};
      forwarded := List(forwarded, t, x);
      Shows(TargHop(t), x, Forward(BeginReq), delay);
    }

    // The call of the target's nb_transport_fw with BEGIN_REQ
    method SendReqFw(t: nat, x: Trans, delay: nat, acc: nat, lat: nat) returns (r: Reply)
      modifies this
      ensures Outcome(View(), r) == ForwardReq(old(View()), t, x, delay, acc, lat)
    {
      hide OpenReq, Spec.TargetBeginReq, OnReply;
      OpensRequest(t, x, delay);
      r := TargetBeginReq(t, x, delay, acc, lat);
      ReplyFromTarget(t, x, r);
    }

    method ReplyFromTarget(t: nat, x: Trans, r: Reply)
      modifies this
      ensures View() == OnReply(old(View()), t, x, r)
    {
      match r.status
      case Accepted =>
      case Updated =>
        Shows(TargHop(t), x, Backward(r.phase), r.delay);
        NotifyEndReq(t);
      case Completed =>
        Shows(TargHop(t), x, FwCompleted(true), r.delay);
        NotifyEndReq(t);
        ext := ext[x := Routing(x).(dontPropagateFw := true)];
    }

    // queue_the_rsp_to_be_sent_bw_later
    method QueueTheRsp(i: nat, x: Trans, delay: nat)
      modifies this
      ensures View() == QueueRsp(old(View()), i, x, delay)
    {
      Acquire(x);
      rspQueue := rspQueue[i := Queue(rspQueue, i) + [Queued(x, now + delay)]];
      Moves(x, RspQueued);
    }

    // The initiator's nb_transport_bw with BEGIN_RESP
    method DeliverResponse(i: nat, x: Trans, delay: nat, rnd: nat) returns (r: Reply)
      modifies this
      ensures Outcome(View(), r) == DeliverRsp(old(View()), i, x, delay, rnd)
    {
      hide Spec.InitCompletes, Spec.InitPosts, Spec.NotifyEndRsp;
      rspInProgress := rspInProgress[i := x];
      endRspEvent := endRspEvent - {i};
      delivered := List(delivered, i, x);
      assert View() == TakeRspSlot(old(View()), i, x);
      if InitOf(i).kind.InitB? {
        InitCompletes(i, x, delay, rnd);
        NotifyEndRsp(i);
        r := Reply(Completed, BeginResp, delay + rnd);
      } else {
        InitPosts(i, x, BeginResp, delay);
        Moves(x, RspSent);
        r := Reply(Accepted, BeginResp, delay);
      }
    }

    // END_RESP towards the target, unless the target has completed the transaction itself
    method SendEndRespFw(x: Trans, delay: nat) returns (r: Reply)
      modifies this
      ensures Outcome(View(), r) == EndOnTarget(old(View()), x, delay)
    {
      if Routing(x).dontPropagateFw {
        Moves(x, Free);
        r := Reply(Accepted, EndResp, delay);
      } else {
        var t := Routing(x).target;
        Shows(TargHop(t), x, Forward(EndResp), delay);
        r := TargetEndResp(t, x, delay);
        if r.status == Completed { Shows(TargHop(t), x, FwCompleted(false), r.delay); }
      }
    }

    // send_bw_to_initiator with BEGIN_RESP
    method SendBwToInitiator(i: nat, x: Trans, delay: nat, rnd: nat)
      modifies this
      ensures View() == SendRspBw(old(View()), i, x, delay, rnd)
    {
      var r := DeliverResponse(i, x, delay, rnd);
      if r.status == Completed {
        var p := SendEndRespFw(x, r.delay);
        Assert(p.status != Updated);
      }
    }

    // nb_transport_bw with END_REQ
    method NbTransportBwEndReq(t: nat, x: Trans, delay: nat)
      modifies this
      ensures View() == IcEndReq(old(View()), t, x, delay)
    {
      Shows(TargHop(t), x, Backward(EndReq), delay);
      NotifyEndReq(t);
      Assert(x in ext);
      InitPosts(Routing(x).init, x, EndReq, delay);
    }

    // nb_transport_bw with BEGIN_RESP
    method NbTransportBwBeginResp(t: nat, x: Trans, delay: nat, rnd: nat) returns (r: Reply)
      modifies this
      ensures Outcome(View(), r) == IcBeginResp(old(View()), t, x, delay, rnd)
    {
      var i := Routing(x).init;
      Shows(TargHop(t), x, Backward(BeginResp), delay);
      Moves(x, RspReady);
      EnterResponse(t, x);
      r := RouteResponse(t, i, x, delay, rnd);
    }

    method EnterResponse(t: nat, x: Trans)
      modifies this
      ensures View() == EnterRest(old(View()), t, x)
    {
      if t in reqInProgress && reqInProgress[t] == x { NotifyEndReq(t); }
      Assert(x in ext);
      ready := List(ready, Routing(x).init, x);
    }

    method RouteResponse(t: nat, i: nat, x: Trans, delay: nat, rnd: nat) returns (r: Reply)
      modifies this
      ensures Outcome(View(), r) == Spec.RouteResponse(old(View()), t, i, x, delay, rnd)
    {
      if i in rspInProgress {
        QueueTheRsp(i, x, delay);
        r := Reply(Accepted, BeginResp, delay);
      } else {
        r := DeliverResponse(i, x, delay + EXTRA_RESPONSE_DELAY, rnd);
        if r.status == Completed {
          Shows(TargHop(t), x, BwCompleted, r.delay);
          Moves(x, Closed);
        }
      }
    }

    // ---------- Targets: callbacks ----------

    method SendEndReq(t: nat, x: Trans, acc: nat, lat: nat)
      modifies this
      ensures View() == Spec.SendEndReq(old(View()), t, x, acc, lat)
    {
      hide IcEndReq;
      AtCallbacks.IcEndReqIs(View(), t, Routing(x).init, x, acc);
      NbTransportBwEndReq(t, x, acc);
      var g := TargetOf(t);
      targets := targets[t := g.(peq := Post(g.peq, x, now + acc + lat, Internal), nTrans := g.nTrans + 1)];
      Moves(x, Executing);
    }

    method Finish(t: nat, x: Trans)
      modifies this
      ensures View() == Spec.Finish(old(View()), t, x)
    {
      hide Spec.Release;
      var g := TargetOf(t);
      Release(x);
      g := g.(responding := false);
      if g.kind.TypeA? || g.kind.TypeB? { g := g.(nTrans := g.nTrans - 1); }
      targets := targets[t := g];
      responder := responder - {t};
      assert View() == Disown(PutTarg(Spec.Release(old(View()), x), t, g), t);
      Moves(x, Free);
    }

    // Issue a deferred END_REQ
    method Unblock(t: nat, acc: nat, lat: nat)
      modifies this
      ensures View() == Spec.Unblock(old(View()), t, acc, lat)
    {
      hide Spec.SendEndReq;
      var g := TargetOf(t);
      match g.endReqPending
      case None =>
      case Some(y) =>
        targets := targets[t := g.(endReqPending := None)];
        Moves(y, ReqTaken);
        assert View() == Undefer(old(View()), t, y);
        SendEndReq(t, y, acc, lat);
    }

    method SendResponse(t: nat, x: Trans, rnd: nat, acc: nat, lat: nat)
      modifies this
      ensures View() == Spec.SendResponse(old(View()), t, x, rnd, acc, lat)
    {
      hide IcBeginResp, Spec.Finish, Spec.Unblock;
      targets := targets[t := TargetOf(t).(responding := true)];
      responder := responder[t := x];
      var r := NbTransportBwBeginResp(t, x, 0, rnd);
      if r.status == Completed {
        Finish(t, x);
        Unblock(t, acc, lat);
      }
    }

    // peq_cb, phase by phase
    method PeqBeginReq(t: nat, x: Trans, acc: nat, lat: nat)
      modifies this
      ensures View() == TakeReq(old(View()), t, x, acc, lat)
    {
      var g := TargetOf(t);
      g := g.(peq := Take(g.peq, x));
      Acquire(x);
      if g.kind.TypeC? {
        targets := targets[t := g.(peq := Post(g.peq, x, now + lat, Internal))];
        Moves(x, Executing);
      } else if g.nTrans == 2 {
        targets := targets[t := g.(endReqPending := Some(x))];
        Moves(x, ReqDeferred);
      } else {
        targets := targets[t := g];
        Moves(x, ReqTaken);
        SendEndReq(t, x, acc, lat);
      }
    }

    method PeqEndResp(t: nat, x: Trans, rnd: nat, acc: nat, lat: nat)
      modifies this
      ensures View() == TakeEndResp(old(View()), t, x, rnd, acc, lat)
    {
      var g := TargetOf(t);
      Assert(g.responding);
      targets := targets[t := g.(peq := Take(g.peq, x))];
      Finish(t, x);
      SendDeferred(t, rnd, acc, lat);
      Unblock(t, acc, lat);
    }

    method SendDeferred(t: nat, rnd: nat, acc: nat, lat: nat)
      modifies this
      ensures View() == Spec.SendDeferred(old(View()), t, rnd, acc, lat)
    {
      hide Spec.SendResponse;
      var g := TargetOf(t);
      match g.nextRsp
      case None =>
      case Some(y) =>
        targets := targets[t := g.(nextRsp := None, rspEvent := false)];
        Moves(y, Executed);
        assert View() == Resume(old(View()), t, y);
        SendResponse(t, y, rnd, acc, lat);
    }

    method PeqInternal(t: nat, x: Trans, rnd: nat, acc: nat, lat: nat)
      modifies this
      ensures View() == TakeInternal(old(View()), t, x, rnd, acc, lat)
    {
      var g := TargetOf(t);
      g := g.(peq := Take(g.peq, x));
      if g.responding {
        Assert(g.nextRsp.None?);
        targets := targets[t := g.(nextRsp := Some(x))];
        Moves(x, RspDeferred);
      } else {
        targets := targets[t := g];
        Moves(x, Executed);
        SendResponse(t, x, rnd, acc, lat);
      }
    }

    method TargetPeqCb(t: nat, x: Trans, rnd: nat, acc: nat, lat: nat)
      modifies this
      ensures View() == TargetCallback(old(View()), t, x, rnd, acc, lat)
    {
      hide TakeReq, TakeEndResp, TakeInternal;
      var lane := Lane(TargetOf(t).peq, x);
      if |lane| > 0 {
        match lane[0].phase
        case BeginReq => PeqBeginReq(t, x, acc, lat);
        case EndResp => PeqEndResp(t, x, rnd, acc, lat);
        case Internal => PeqInternal(t, x, rnd, acc, lat);
        case _ => Assert(false);
      }
    }

    // send_rsp_process of a target of type D
    method SendRspProcess(t: nat, rnd: nat)
      modifies this
      ensures View() == DeferredResponse(old(View()), t, rnd)
    {
      var g := TargetOf(t);
      match g.nextRsp
      case None => Assert(false);
      case Some(x) =>
        targets := targets[t := g.(nextRsp := None, rspEvent := false)];
        Moves(x, Executed);
        targets := targets[t := TargetOf(t).(responding := true)];
        responder := responder[t := x];
        assert View() == StartResponse(Resume(old(View()), t, x), t, x);
        var r := NbTransportBwBeginResp(t, x, Since(g.nextTime, now), rnd);
        if r.status == Completed { Finish(t, x); }
    }

    // ---------- Initiators ----------

    // thread_process, up to the wait for the end of the previous request
    method ThreadAllocates(i: nat, x: Trans)
      modifies this
      ensures View() == Allocate(old(View()), i, x)
    {
      inits := inits[i := InitOf(i).(held := Some(x))];
      Acquire(x);
      tokens := tokens[x := Token(Held, i, 0)];
    }

    // thread_process after that wait, with the interconnect's nb_transport_fw
    method ThreadIssues(i: nat, t: nat, delay: nat, acc: nat, lat: nat)
      modifies this
      ensures View() == Issue(old(View()), i, t, delay, acc, lat)
    {
      hide SendReq, QueueReq, ForwardReq, ReturnToInit;
      match InitOf(i).held
      case None =>
      case Some(x) =>
        SendsRequest(i, t, x, delay);
        if t in reqInProgress {
          QueueTheReq(t, x, delay);
        } else {
          var r := SendReqFw(t, x, delay, acc, lat);
          ReplyToInitiator(i, x, r);
        }
    }

    method SendsRequest(i: nat, t: nat, x: Trans, delay: nat)
      modifies this
      ensures View() == SendReq(old(View()), i, t, x, delay)
    {
      hide EnterReq;
      inits := inits[i := InitOf(i).(held := None, reqInProgress := Some(x))];
      Shows(InitHop(i), x, Forward(BeginReq), delay);
      EntersRequest(i, t, x);
    }

    method EntersRequest(i: nat, t: nat, x: Trans)
      modifies this
      ensures View() == EnterReq(old(View()), i, t, x)
    {
      ext := ext[x := Route(i, t, false)];
      arrived := List(arrived, t, x);
      tokens := tokens[x := Token(ReqReady, i, t)];
    }

    method QueueTheReq(t: nat, x: Trans, delay: nat)
      modifies this
      ensures View() == QueueReq(old(View()), t, x, delay)
    {
      Acquire(x);
      reqQueue := reqQueue[t := Queue(reqQueue, t) + [Queued(x, now + delay)]];
      Moves(x, ReqQueued);
    }

    // The return path of nb_transport_fw
    method ReplyToInitiator(i: nat, x: Trans, r: Reply)
      modifies this
      ensures View() == ReturnToInit(old(View()), i, x, r)
    {
      hide Spec.InitPosts, QueueRsp, ReturnResp, ReturnCompleted;
      if r.status == Accepted {
      } else if r.status == Updated && r.phase == EndReq {
        InitPosts(i, x, r.phase, r.delay);
      } else {
        ready := List(ready, i, x);
        if i in rspInProgress {
          QueueTheRsp(i, x, r.delay);
        } else if r.status == Updated {
          ResponseByReturn(i, x, r);
        } else {
          CompletionByReturn(i, x, r);
        }
      }
    }

    method ResponseByReturn(i: nat, x: Trans, r: Reply)
      modifies this
      ensures View() == ReturnResp(old(View()), i, x, r)
    {
      hide Spec.InitPosts;
      rspInProgress := rspInProgress[i := x];
      endRspEvent := endRspEvent - {i};
      delivered := List(delivered, i, x);
      assert View() == TakeRspSlot(old(View()), i, x);
      InitPosts(i, x, r.phase, r.delay);
      Moves(x, RspSent);
    }

    method CompletionByReturn(i: nat, x: Trans, r: Reply)
      modifies this
      ensures View() == ReturnCompleted(old(View()), i, x, r)
    {
      delivered := List(delivered, i, x);
      Shows(InitHop(i), x, FwCompleted(true), r.delay);
      inits := inits[i := InitOf(i).(reqInProgress := None)];
      Release(x);
      Moves(x, Free);
    }

    method InitPeqCb(i: nat, x: Trans, rnd: nat)
      modifies this
      ensures View() == InitCallback(old(View()), i, x, rnd)
    {
      var n := InitOf(i);
      var lane := Lane(n.peq, x);
      if |lane| > 0 {
        match lane[0].phase
        case EndReq =>
          inits := inits[i := n.(peq := Take(n.peq, x), reqInProgress := None)];
        case BeginResp =>
          if n.reqInProgress == Some(x) { n := n.(reqInProgress := None); }
          inits := inits[i := n.(peq := Take(n.peq, x))];
          assert View() == TakeBeginResp(old(View()), i, x);
          NbTransportFwEndResp(i, x, rnd);
          Release(x);
        case _ => Assert(false);
      }
    }

    // nb_transport_fw of the interconnect with END_RESP
    method NbTransportFwEndResp(i: nat, x: Trans, delay: nat)
      modifies this
      ensures View() == IcEndResp(old(View()), i, x, delay)
    {
      Shows(InitHop(i), x, Forward(EndResp), delay);
      Moves(x, Closing);
      Assert(x in ext && Routing(x).init == i);
      NotifyEndRsp(i);
      assert View() == EndRsp(old(View()), i, x, delay);
      var r := SendEndRespFw(x, delay);
      if r.status == Completed { Shows(InitHop(i), x, FwCompleted(false), r.delay); }
    }

    // ---------- Processes of the interconnect ----------

    method EndReqProcess(t: nat, acc: nat, lat: nat, rnd: nat)
      modifies this
      ensures View() == Spec.EndReqProcess(old(View()), t, acc, lat, rnd)
    {
      Assert(t in reqInProgress);
      if Queue(reqQueue, t) == [] {
        reqInProgress := reqInProgress - {t};
        endReqEvent := endReqEvent - {t};
      } else {
        var req := Queue(reqQueue, t)[0];
        ForwardNext(t, req.trans, Since(req.time, now), acc, lat, rnd);
      }
    }

    method ForwardNext(t: nat, x: Trans, delay: nat, acc: nat, lat: nat, rnd: nat)
      modifies this
      ensures View() == Spec.ForwardNext(old(View()), t, x, delay, acc, lat, rnd)
    {
      var i := Routing(x).init;
      Assert(x in ext && Routing(x).target == t);
      ghost var s1 := View();
      if |Queue(reqQueue, t)| > 0 {
        ghost var y := Queue(reqQueue, t)[0].trans;
        reqQueue := reqQueue[t := Queue(reqQueue, t)[1..]];
        Moves(y, ReqReady);
      }
      assert View() == PopReq(s1, t);
      var r := SendReqFw(t, x, delay, acc, lat);
      AfterReply(i, x, r, rnd);
    }

    // The rest of end_req_process; the early returns skip the release
    method AfterReply(i: nat, x: Trans, r: Reply, rnd: nat)
      modifies this
      ensures View() == SendBwAfterRequest(old(View()), i, x, r, rnd)
    {
      if r.status == Accepted {
        Release(x);
      } else if r.status == Updated && r.phase == EndReq {
        InitPosts(i, x, EndReq, r.delay);
        Release(x);
      } else {
        ready := List(ready, i, x);
        if i in rspInProgress {
          QueueTheRsp(i, x, r.delay);
          return;
        }
        SendBwToInitiator(i, x, r.delay, rnd);
        Release(x);
      }
    }

    method DeliverNextRsp(i: nat, x: Trans, delay: nat, rnd: nat)
      modifies this
      ensures View() == DeliverNext(old(View()), i, x, delay, rnd)
    {
      hide SendRspBw, Spec.Release;
      if |Queue(rspQueue, i)| > 0 {
        ghost var y := Queue(rspQueue, i)[0].trans;
        rspQueue := rspQueue[i := Queue(rspQueue, i)[1..]];
        Moves(y, RspReady);
      }
      assert View() == PopRsp(old(View()), i);
      SendBwToInitiator(i, x, delay, rnd);
      Release(x);
    }

    method EndRspProcess(i: nat, rnd: nat)
      modifies this
      ensures View() == Spec.EndRspProcess(old(View()), i, rnd)
    {
      hide DeliverNext;
      Assert(i in rspInProgress);
      if Queue(rspQueue, i) == [] {
        rspInProgress := rspInProgress - {i};
        endRspEvent := endRspEvent - {i};
      } else {
        var rsp := Queue(rspQueue, i)[0];
        DeliverNextRsp(i, rsp.trans, Since(rsp.time, now), rnd);
      }
    }

    // ---------- Steps ----------

    // Any process that may run keeps the object valid
    method Step(a: Action)
      requires Valid() && Enabled(View(), a)
      modifies this
      ensures Valid() && View() == Apply(old(View()), a)
    {
      hide Allocate, Issue, InitCallback, TargetCallback, DeferredResponse, Spec.EndReqProcess, Spec.EndRspProcess;
      AtSteps.StepKeeps(View(), a);
      match a
      case Allocates(i, x) => ThreadAllocates(i, x);
      case Issues(i, t, delay, acc, lat) => ThreadIssues(i, t, delay, acc, lat);
      case InitPeq(i, x, rnd) => InitPeqCb(i, x, rnd);
      case TargPeq(t, x, rnd, acc, lat) => TargetPeqCb(t, x, rnd, acc, lat);
      case RunsSendRsp(t, rnd) => SendRspProcess(t, rnd);
      case RunsEndReq(t, acc, lat, rnd) => EndReqProcess(t, acc, lat, rnd);
      case RunsEndRsp(i, rnd) => EndRspProcess(i, rnd);
      case Tick(time) => now := time;
    }
  }
}
