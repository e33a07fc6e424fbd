/**
 The approximately-timed transport system: any number of initiators of types A and B, the
 AT interconnect, and any number of targets of types A to E, as one state machine.

 A step is one activation of a SystemC process, with every nb_transport call nested in it.
 An sc_event is a set of pending notifications; a run of the process consumes its own.
 A random delay is a parameter of the step that draws it.
 `failed` becomes true when an assert or an SC_REPORT_FATAL of the source is hit, or when a
 transaction whose reference count is already zero is released.

 The fields after `failed` are history: no transition reads them.
 */
module AtSystem {
  import opened Tlm

  const EXTRA_RESPONSE_DELAY: nat := 1000

  // ---------- Payload event queues ----------

  datatype Timed = Timed(time: nat, phase: Phase)

  // One lane per transaction: entries of one transaction are delivered in the order they were posted.
  type Peq = map<Trans, seq<Timed>>

  function Lane(q: Peq, x: Trans): seq<Timed> {
    if x in q then q[x] else []
  }

  function Post(q: Peq, x: Trans, time: nat, phase: Phase): Peq {
    q[x := Lane(q, x) + [Timed(time, phase)]]
  }

  function Take(q: Peq, x: Trans): Peq {
    if |Lane(q, x)| == 0 then q else q[x := Lane(q, x)[1..]]
  }

  // ---------- Modules ----------

  datatype InitKind = InitA | InitB

  // `held`: allocated by the thread, BEGIN_REQ not yet sent
  datatype Initiator = Initiator(kind: InitKind, held: Option<Trans>, reqInProgress: Option<Trans>, peq: Peq)

  datatype TargetKind = TypeA | TypeB | TypeC | TypeD | TypeE

  // nTrans, endReqPending: types A and B; nextTime, rspEvent: type D
  datatype Target = Target(kind: TargetKind, nTrans: int, responding: bool, nextRsp: Option<Trans>,
                           endReqPending: Option<Trans>, nextTime: nat, rspEvent: bool, peq: Peq)

  datatype Queued = Queued(trans: Trans, time: nat)

  // The route extension of a transaction
  datatype Route = Route(init: nat, target: nat, dontPropagateFw: bool)

  datatype Interconnect = Interconnect(
    reqSlot: map<nat, Trans>, rspSlot: map<nat, Trans>,
    endReq: set<nat>, endRsp: set<nat>,
    reqQueue: map<nat, seq<Queued>>, rspQueue: map<nat, seq<Queued>>,
    ext: map<Trans, Route>)

  // ---------- History ----------

  // Where a transaction is. Stages ending in a run of one process: ReqReady, ReqTaken, Executed,
  // RspReady, Closing, Closed.
  datatype Stage =
    | Free        // nowhere in the system
    | Held        // allocated by an initiator
    | ReqReady    // BEGIN_REQ inside the interconnect
    | ReqQueued   // in req_queue
    | PeqReq      // BEGIN_REQ in the event queue of a target
    | ReqTaken    // BEGIN_REQ delivered by that queue
    | ReqDeferred // end_req_pending
    | Executing   // internal event queued in a target
    | Executed    // internal event delivered
    | RspDeferred // next_response_pending
    | RspReady    // BEGIN_RESP, or a completion by the target, inside the interconnect
    | RspQueued   // in rsp_queue
    | RspSent     // BEGIN_RESP with the initiator
    | Closing     // initiator has completed; target not yet told
    | Closed      // target told
    | PeqEnd      // END_RESP in the event queue of a target

  datatype Token = Token(stage: Stage, init: nat, target: nat)

  datatype System = System(
    now: nat, minLatency: nat,
    inits: map<nat, Initiator>, targets: map<nat, Target>, ic: Interconnect,
    refs: map<Trans, nat>, failed: bool,
    tokens: map<Trans, Token>, responder: map<nat, Trans>, log: seq<Event>,
    arrived: map<nat, seq<Trans>>, forwarded: map<nat, seq<Trans>>,
    ready: map<nat, seq<Trans>>, delivered: map<nat, seq<Trans>>)

  // ---------- Lookups and updates ----------

  function Init(s: System, i: nat): Initiator {
    if i in s.inits then s.inits[i] else Initiator(InitA, None, None, map[])
  }

  function Targ(s: System, t: nat): Target {
    if t in s.targets then s.targets[t] else Target(TypeE, 0, false, None, None, 0, false, map[])
  }

  function PutInit(s: System, i: nat, n: Initiator): System {
    s.(inits := s.inits[i := n])
  }

  function PutTarg(s: System, t: nat, g: Target): System {
    s.(targets := s.targets[t := g])
  }

  function Tok(s: System, x: Trans): Token {
    if x in s.tokens then s.tokens[x] else Token(Free, 0, 0)
  }

  function Move(s: System, x: Trans, stage: Stage): System {
    s.(tokens := s.tokens[x := Tok(s, x).(stage := stage)])
  }

  function Own(s: System, t: nat, x: Trans): System {
    s.(responder := s.responder[t := x])
  }

  function Disown(s: System, t: nat): System {
    s.(responder := s.responder - {t})
  }

  function Queue(m: map<nat, seq<Queued>>, k: nat): seq<Queued> {
    if k in m then m[k] else []
  }

  function Listed(m: map<nat, seq<Trans>>, k: nat): seq<Trans> {
    if k in m then m[k] else []
  }

  function List(m: map<nat, seq<Trans>>, k: nat, x: Trans): map<nat, seq<Trans>> {
    m[k := Listed(m, k) + [x]]
  }

  function Refs(s: System, x: Trans): nat {
    if x in s.refs then s.refs[x] else 0
  }

  function Check(s: System, ok: bool): System {
    s.(failed := s.failed || !ok)
  }

  function Acquire(s: System, x: Trans): System {
    s.(refs := s.refs[x := Refs(s, x) + 1])
  }

  function Release(s: System, x: Trans): System {
    s.(failed := s.failed || Refs(s, x) == 0, refs := s.refs[x := if Refs(s, x) == 0 then 0 else Refs(s, x) - 1])
  }

  function Show(s: System, hop: Hop, x: Trans, signal: Signal, delay: nat): System {
    s.(log := s.log + [Event(hop, x, signal, s.now + delay)])
  }

  function RouteOf(s: System, x: Trans): Route {
    if x in s.ic.ext then s.ic.ext[x] else Route(0, 0, false)
  }

  function Since(time: nat, now: nat): nat {
    if time < now then 0 else time - now
  }

  // ---------- Targets, forward path ----------

  datatype Reply = Reply(status: Sync, phase: Phase, delay: nat)
  datatype Outcome = Outcome(s: System, r: Reply)

  // nb_transport_fw of target t with BEGIN_REQ
  function TargetBeginReq(s: System, t: nat, x: Trans, delay: nat, acc: nat, lat: nat): Outcome {
    var g := Targ(s, t);
    match g.kind
    case TypeA => TargetPostReq(s, t, x, delay)
    case TypeB => if g.nTrans < 2 then TargetAccepts(s, t, x, delay, acc, lat) else TargetPostReq(s, t, x, delay)
    case TypeC => TargetPostReq(s, t, x, delay)
    case TypeD => if g.responding then TargetDefers(s, t, x, delay, lat) else TargetResponds(s, t, x, delay, lat)
    case TypeE => Outcome(Move(s, x, RspReady), Reply(Completed, BeginReq, delay + lat))
  }

  // Type B with room in its pipeline
  function TargetAccepts(s: System, t: nat, x: Trans, delay: nat, acc: nat, lat: nat): Outcome {
    var g := Targ(s, t);
    var g' := g.(peq := Post(g.peq, x, s.now + delay + acc + lat, Internal), nTrans := g.nTrans + 1);
    Outcome(Move(PutTarg(Acquire(s, x), t, g'), x, Executing), Reply(Updated, EndReq, delay + acc))
  }

  // Type D, busy with another response
  function TargetDefers(s: System, t: nat, x: Trans, delay: nat, lat: nat): Outcome {
    var g := Targ(s, t);
    var g' := g.(nextRsp := Some(x), nextTime := s.now + delay + lat);
    Outcome(Move(PutTarg(Check(Acquire(s, x), g.nextRsp.None?), t, g'), x, RspDeferred),
        Reply(Accepted, BeginReq, delay + lat))
  }

  // Type D, free
  function TargetResponds(s: System, t: nat, x: Trans, delay: nat, lat: nat): Outcome {
    var g := Targ(s, t);
    Outcome(Move(Own(PutTarg(Acquire(s, x), t, g.(responding := true)), t, x), x, RspReady),
            Reply(Updated, BeginResp, delay + lat))
  }

  function TargetPostReq(s: System, t: nat, x: Trans, delay: nat): Outcome {
    var g := Targ(s, t);
    Outcome(Move(PutTarg(s, t, g.(peq := Post(g.peq, x, s.now + delay, BeginReq))), x, PeqReq),
            Reply(Accepted, BeginReq, delay))
  }

  // nb_transport_fw of target t with END_RESP
  function TargetEndResp(s: System, t: nat, x: Trans, delay: nat): Outcome {
    match Targ(s, t).kind
    case TypeD => TargetClears(s, t, x, delay)
    case TypeE => Outcome(Move(s, x, Free), Reply(Completed, EndResp, delay))
    case _ => TargetPostEnd(s, t, x, delay)
  }

  // Type D; a deferred response is sent by a process of its own
  function TargetClears(s: System, t: nat, x: Trans, delay: nat): Outcome {
    var g := Targ(s, t);
    var s1 := Release(Check(s, g.responding), x);
    var g' := g.(responding := false, rspEvent := g.rspEvent || g.nextRsp.Some?);
    Outcome(Move(Disown(PutTarg(s1, t, g'), t), x, Free), Reply(Completed, EndResp, delay))
  }

  function TargetPostEnd(s: System, t: nat, x: Trans, delay: nat): Outcome {
    var g := Targ(s, t);
    Outcome(Move(PutTarg(s, t, g.(peq := Post(g.peq, x, s.now + delay, EndResp))), x, PeqEnd),
            Reply(Accepted, EndResp, delay))
  }

  // ---------- Initiators, backward path ----------

  // nb_transport_bw of an initiator that accepts the phase
  function InitPosts(s: System, i: nat, x: Trans, phase: Phase, delay: nat): System {
    var n := Init(s, i);
    PutInit(Show(s, InitHop(i), x, Backward(phase), delay), i, n.(peq := Post(n.peq, x, s.now + delay, phase)))
  }

  // nb_transport_bw of type B with BEGIN_RESP
  function InitCompletes(s: System, i: nat, x: Trans, delay: nat, rnd: nat): System {
    var n := Init(s, i);
    var n' := n.(reqInProgress := if n.reqInProgress == Some(x) then None else n.reqInProgress);
    var s1 := PutInit(Show(s, InitHop(i), x, Backward(BeginResp), delay), i, n');
    Show(Move(Release(s1, x), x, Closing), InitHop(i), x, BwCompleted, delay + rnd)
  }

  // ---------- Interconnect ----------

  // Send BEGIN_REQ to the target and act on the reply, up to the routing of a response
  function ForwardReq(s: System, t: nat, x: Trans, delay: nat, acc: nat, lat: nat): Outcome {
    var o := TargetBeginReq(OpenReq(s, t, x, delay), t, x, delay, acc, lat);
    Outcome(OnReply(o.s, t, x, o.r), o.r)
  }

  function OnReply(s: System, t: nat, x: Trans, r: Reply): System {
    match r.status
    case Accepted => s
    case Updated => NotifyEndReq(Show(s, TargHop(t), x, Backward(r.phase), r.delay), t)
    case Completed => StopForward(NotifyEndReq(Show(s, TargHop(t), x, FwCompleted(true), r.delay), t), x)
  }

  // The request slot of the target is taken for x
  function OpenReq(s: System, t: nat, x: Trans, delay: nat): System {
    var s1 := s.(ic := s.ic.(reqSlot := s.ic.reqSlot[t := x], endReq := s.ic.endReq - {t}),
                 forwarded := List(s.forwarded, t, x));
    Show(s1, TargHop(t), x, Forward(BeginReq), delay)
  }

  // The target has completed x; it will not see it again
  function StopForward(s: System, x: Trans): System {
    s.(ic := s.ic.(ext := s.ic.ext[x := RouteOf(s, x).(dontPropagateFw := true)]))
  }

  function NotifyEndReq(s: System, t: nat): System {
    var s1 := Check(s, t in s.ic.reqSlot);
    s1.(ic := s1.ic.(endReq := s1.ic.endReq + {t}))
  }

  function NotifyEndRsp(s: System, i: nat): System {
    var s1 := Check(s, i in s.ic.rspSlot);
    s1.(ic := s1.ic.(endRsp := s1.ic.endRsp + {i}))
  }

  // queue_the_rsp_to_be_sent_bw_later
  function QueueRsp(s: System, i: nat, x: Trans, delay: nat): System {
    var s1 := Acquire(s, x);
    var q := Queue(s1.ic.rspQueue, i) + [Queued(x, s.now + delay)];
    Move(s1.(ic := s1.ic.(rspQueue := s1.ic.rspQueue[i := q])), x, RspQueued)
  }

  // Take the response slot of initiator i for x
  function TakeRspSlot(s: System, i: nat, x: Trans): System {
    s.(ic := s.ic.(rspSlot := s.ic.rspSlot[i := x], endRsp := s.ic.endRsp - {i}),
       delivered := List(s.delivered, i, x))
  }

  function Ready(s: System, i: nat, x: Trans): System {
    s.(ready := List(s.ready, i, x))
  }

  // BEGIN_RESP to initiator i on the backward path, its slot being free or ended
  function DeliverRsp(s: System, i: nat, x: Trans, delay: nat, rnd: nat): Outcome {
    if Init(s, i).kind.InitB?
    then Outcome(DeliverToB(s, i, x, delay, rnd), Reply(Completed, BeginResp, delay + rnd))
    else Outcome(DeliverToA(s, i, x, delay), Reply(Accepted, BeginResp, delay))
  }

  function DeliverToA(s: System, i: nat, x: Trans, delay: nat): System {
    Move(InitPosts(TakeRspSlot(s, i, x), i, x, BeginResp, delay), x, RspSent)
  }

  function DeliverToB(s: System, i: nat, x: Trans, delay: nat, rnd: nat): System {
    NotifyEndRsp(InitCompletes(TakeRspSlot(s, i, x), i, x, delay, rnd), i)
  }

  // END_RESP to target t on the forward path
  function PassEndResp(s: System, t: nat, x: Trans, delay: nat): Outcome {
    var o := TargetEndResp(Show(s, TargHop(t), x, Forward(EndResp), delay), t, x, delay);
    if o.r.status == Completed
    then Outcome(Show(o.s, TargHop(t), x, FwCompleted(false), o.r.delay), o.r)
    else o
  }

  // END_RESP towards the target, unless the target has completed the transaction itself
  function EndOnTarget(s: System, x: Trans, delay: nat): Outcome {
    if RouteOf(s, x).dontPropagateFw
    then Outcome(Move(s, x, Free), Reply(Accepted, EndResp, delay))
    else PassEndResp(s, RouteOf(s, x).target, x, delay)
  }

  // send_bw_to_initiator with BEGIN_RESP
  function SendRspBw(s: System, i: nat, x: Trans, delay: nat, rnd: nat): System {
    AfterDelivery(DeliverRsp(s, i, x, delay, rnd), x)
  }

  function AfterDelivery(o: Outcome, x: Trans): System {
    if o.r.status == Completed then RelayEnd(o.s, x, o.r.delay) else o.s
  }

  // The initiator has completed; the target is told, if need be
  function RelayEnd(s: System, x: Trans, delay: nat): System {
    var p := EndOnTarget(s, x, delay);
    Check(p.s, p.r.status != Updated)
  }

  // nb_transport_bw of the interconnect with END_REQ
  function IcEndReq(s: System, t: nat, x: Trans, delay: nat): System {
    var s1 := NotifyEndReq(Show(s, TargHop(t), x, Backward(EndReq), delay), t);
    InitPosts(Check(s1, x in s1.ic.ext), RouteOf(s, x).init, x, EndReq, delay)
  }

  // nb_transport_bw of the interconnect with BEGIN_RESP
  function IcBeginResp(s: System, t: nat, x: Trans, delay: nat, rnd: nat): Outcome {
    RouteResponse(EnterResponse(s, t, x, delay), t, RouteOf(s, x).init, x, delay, rnd)
  }

  function RouteResponse(s: System, t: nat, i: nat, x: Trans, delay: nat, rnd: nat): Outcome {
    if i in s.ic.rspSlot then
      Outcome(QueueRsp(s, i, x, delay), Reply(Accepted, BeginResp, delay))
    else
      var o := DeliverRsp(s, i, x, delay + EXTRA_RESPONSE_DELAY, rnd);
      if o.r.status == Completed
      then Outcome(Move(Show(o.s, TargHop(t), x, BwCompleted, o.r.delay), x, Closed), o.r)
      else o
  }

  function EnterResponse(s: System, t: nat, x: Trans, delay: nat): System {
    EnterRest(Move(Show(s, TargHop(t), x, Backward(BeginResp), delay), x, RspReady), t, x)
  }

  function EnterRest(s: System, t: nat, x: Trans): System {
    var s1 := EndByResponse(s, t, x);
    Ready(Check(s1, x in s1.ic.ext), RouteOf(s, x).init, x)
  }

  // BEGIN_RESP ends the request if END_REQ has not
  function EndByResponse(s: System, t: nat, x: Trans): System {
    if t in s.ic.reqSlot && s.ic.reqSlot[t] == x then NotifyEndReq(s, t) else s
  }

  // ---------- Targets, callbacks ----------

  // send_end_req
  function SendEndReq(s: System, t: nat, x: Trans, acc: nat, lat: nat): System {
    var s1 := IcEndReq(s, t, x, acc);
    var g := Targ(s1, t);
    Move(PutTarg(s1, t, g.(peq := Post(g.peq, x, s.now + acc + lat, Internal), nTrans := g.nTrans + 1)), x, Executing)
  }

  // The target has got END_RESP or TLM_COMPLETED for x
  function Finish(s: System, t: nat, x: Trans): System {
    var g := Targ(s, t);
    var g' := g.(responding := false, nTrans := if g.kind.TypeA? || g.kind.TypeB? then g.nTrans - 1 else g.nTrans);
    Move(Disown(PutTarg(Release(s, x), t, g'), t), x, Free)
  }

  // Issue a deferred END_REQ, if any
  function Unblock(s: System, t: nat, acc: nat, lat: nat): System {
    var g := Targ(s, t);
    match g.endReqPending
    case None => s
    case Some(y) => SendEndReq(Undefer(s, t, y), t, y, acc, lat)
  }

  function Undefer(s: System, t: nat, y: Trans): System {
    Move(PutTarg(s, t, Targ(s, t).(endReqPending := None)), y, ReqTaken)
  }

  function StartResponse(s: System, t: nat, x: Trans): System {
    Own(PutTarg(s, t, Targ(s, t).(responding := true)), t, x)
  }

  // send_response of a target of type A, B or C
  function SendResponse(s: System, t: nat, x: Trans, rnd: nat, acc: nat, lat: nat): System {
    var o := IcBeginResp(StartResponse(s, t, x), t, x, 0, rnd);
    if o.r.status == Completed then Unblock(Finish(o.s, t, x), t, acc, lat) else o.s
  }

  // peq_cb with BEGIN_REQ
  function TakeReq(s: System, t: nat, x: Trans, acc: nat, lat: nat): System {
    var g := Targ(s, t);
    var g1 := g.(peq := Take(g.peq, x));
    var s1 := Acquire(s, x);
    if g.kind.TypeC? then
      Move(PutTarg(s1, t, g1.(peq := Post(g1.peq, x, s.now + lat, Internal))), x, Executing)
    else if g.nTrans == 2 then
      Move(PutTarg(s1, t, g1.(endReqPending := Some(x))), x, ReqDeferred)
    else
      SendEndReq(AcceptReq(s, t, x), t, x, acc, lat)
  }

  function AcceptReq(s: System, t: nat, x: Trans): System {
    var g := Targ(s, t);
    Move(PutTarg(Acquire(s, x), t, g.(peq := Take(g.peq, x))), x, ReqTaken)
  }

  // peq_cb with END_RESP
  function TakeEndResp(s: System, t: nat, x: Trans, rnd: nat, acc: nat, lat: nat): System {
    var g := Targ(s, t);
    var s1 := Finish(PutTarg(Check(s, g.responding), t, g.(peq := Take(g.peq, x))), t, x);
    var s2 := SendDeferred(s1, t, rnd, acc, lat);
    Unblock(s2, t, acc, lat)
  }

  function SendDeferred(s: System, t: nat, rnd: nat, acc: nat, lat: nat): System {
    var g := Targ(s, t);
    match g.nextRsp
    case None => s
    case Some(y) => SendResponse(Resume(s, t, y), t, y, rnd, acc, lat)
  }

  // Take up the deferred response
  function Resume(s: System, t: nat, y: Trans): System {
    Move(PutTarg(s, t, Targ(s, t).(nextRsp := None, rspEvent := false)), y, Executed)
  }

  // peq_cb with the internal phase
  function TakeInternal(s: System, t: nat, x: Trans, rnd: nat, acc: nat, lat: nat): System {
    var g := Targ(s, t);
    var g1 := g.(peq := Take(g.peq, x));
    if g.responding then
      Move(PutTarg(Check(s, g.nextRsp.None?), t, g1.(nextRsp := Some(x))), x, RspDeferred)
    else
      SendResponse(Execute(s, t, x), t, x, rnd, acc, lat)
  }

  function Execute(s: System, t: nat, x: Trans): System {
    var g := Targ(s, t);
    Move(PutTarg(s, t, g.(peq := Take(g.peq, x))), x, Executed)
  }

  function TargetCallback(s: System, t: nat, x: Trans, rnd: nat, acc: nat, lat: nat): System {
    var lane := Lane(Targ(s, t).peq, x);
    if |lane| == 0 then s else
    match lane[0].phase
    case BeginReq => TakeReq(s, t, x, acc, lat)
    case EndResp => TakeEndResp(s, t, x, rnd, acc, lat)
    case Internal => TakeInternal(s, t, x, rnd, acc, lat)
    case _ => Check(s, false)
  }

  // send_rsp_process of a target of type D
  function DeferredResponse(s: System, t: nat, rnd: nat): System {
    var g := Targ(s, t);
    match g.nextRsp
    case None => Check(s, false)
    case Some(x) =>
      var s1 := StartResponse(Resume(s, t, x), t, x);
      var o := IcBeginResp(s1, t, x, Since(g.nextTime, s.now), rnd);
      if o.r.status == Completed then Finish(o.s, t, x) else o.s
  }

  // ---------- Initiators ----------

  // The thread takes a transaction whose reference count is zero
  function Allocate(s: System, i: nat, x: Trans): System {
    var s1 := Acquire(PutInit(s, i, Init(s, i).(held := Some(x))), x);
    s1.(tokens := s1.tokens[x := Token(Held, i, 0)])
  }

  // The thread sends BEGIN_REQ and acts on the reply
  function Issue(s: System, i: nat, t: nat, delay: nat, acc: nat, lat: nat): System {
    match Init(s, i).held
    case None => s
    case Some(x) =>
      var s1 := SendReq(s, i, t, x, delay);
      if t in s1.ic.reqSlot then QueueReq(s1, t, x, delay)
      else
        var o := ForwardReq(s1, t, x, delay, acc, lat);
        ReturnToInit(o.s, i, x, o.r)
  }

  // Up to the test of the request slot
  function SendReq(s: System, i: nat, t: nat, x: Trans, delay: nat): System {
    var s1 := PutInit(s, i, Init(s, i).(held := None, reqInProgress := Some(x)));
    EnterReq(Show(s1, InitHop(i), x, Forward(BeginReq), delay), i, t, x)
  }

  function EnterReq(s: System, i: nat, t: nat, x: Trans): System {
    s.(ic := s.ic.(ext := s.ic.ext[x := Route(i, t, false)]),
       arrived := List(s.arrived, t, x),
       tokens := s.tokens[x := Token(ReqReady, i, t)])
  }

  function QueueReq(s: System, t: nat, x: Trans, delay: nat): System {
    var s1 := Acquire(s, x);
    var q := Queue(s1.ic.reqQueue, t) + [Queued(x, s.now + delay)];
    Move(s1.(ic := s1.ic.(reqQueue := s1.ic.reqQueue[t := q])), x, ReqQueued)
  }

  // The rest of nb_transport_fw with BEGIN_REQ, and of the loop body of the initiator's thread
  function ReturnToInit(s: System, i: nat, x: Trans, r: Reply): System {
    if r.status == Accepted then s
    else if r.status == Updated && r.phase == EndReq then ReturnUpdated(s, i, x, r)
    else
      var s1 := Ready(s, i, x);
      if i in s1.ic.rspSlot then QueueRsp(s1, i, x, r.delay)
      else if r.status == Updated then ReturnResp(s1, i, x, r)
      else ReturnCompleted(s1, i, x, r)
  }

  // TLM_UPDATED: the thread posts the phase in its own event queue
  function ReturnUpdated(s: System, i: nat, x: Trans, r: Reply): System {
    InitPosts(s, i, x, r.phase, r.delay)
  }

  function ReturnResp(s: System, i: nat, x: Trans, r: Reply): System {
    Move(ReturnUpdated(TakeRspSlot(s, i, x), i, x, r), x, RspSent)
  }

  // TLM_COMPLETED: the thread is done with the transaction
  function ReturnCompleted(s: System, i: nat, x: Trans, r: Reply): System {
    var s1 := Show(s.(delivered := List(s.delivered, i, x)), InitHop(i), x, FwCompleted(true), r.delay);
    Move(Release(PutInit(s1, i, Init(s1, i).(reqInProgress := None)), x), x, Free)
  }

  // peq_cb of initiator i
  function InitCallback(s: System, i: nat, x: Trans, rnd: nat): System {
    var lane := Lane(Init(s, i).peq, x);
    if |lane| == 0 then s else
    match lane[0].phase
    case EndReq => TakeEndReq(s, i, x)
    case BeginResp => CompleteResp(s, i, x, rnd)
    case _ => Check(s, false)
  }

  function CompleteResp(s: System, i: nat, x: Trans, rnd: nat): System {
    Release(IcEndResp(TakeBeginResp(s, i, x), i, x, rnd), x)
  }

  function TakeEndReq(s: System, i: nat, x: Trans): System {
    var n := Init(s, i);
    PutInit(s, i, n.(peq := Take(n.peq, x), reqInProgress := None))
  }

  function TakeBeginResp(s: System, i: nat, x: Trans): System {
    var n := Init(s, i);
    PutInit(s, i, n.(peq := Take(n.peq, x),
                     reqInProgress := if n.reqInProgress == Some(x) then None else n.reqInProgress))
  }

  // nb_transport_fw of the interconnect with END_RESP
  function IcEndResp(s: System, i: nat, x: Trans, delay: nat): System {
    var o := EndOnTarget(EndRsp(s, i, x, delay), x, delay);
    if o.r.status == Completed then Show(o.s, InitHop(i), x, FwCompleted(false), o.r.delay) else o.s
  }

  // Up to the test of dont_propagate_fw
  function EndRsp(s: System, i: nat, x: Trans, delay: nat): System {
    var s1 := Move(Show(s, InitHop(i), x, Forward(EndResp), delay), x, Closing);
    NotifyEndRsp(Check(s1, x in s1.ic.ext && RouteOf(s1, x).init == i), i)
  }

  // ---------- Processes of the interconnect ----------

  function EndReqProcess(s: System, t: nat, acc: nat, lat: nat, rnd: nat): System {
    var q := Queue(s.ic.reqQueue, t);
    if |q| == 0 then ClearReqSlot(Check(s, t in s.ic.reqSlot), t)
    else ForwardNext(Check(s, t in s.ic.reqSlot), t, q[0].trans, Since(q[0].time, s.now), acc, lat, rnd)
  }

  function ClearReqSlot(s: System, t: nat): System {
    s.(ic := s.ic.(reqSlot := s.ic.reqSlot - {t}, endReq := s.ic.endReq - {t}))
  }

  // The head of the queue goes to its target
  function ForwardNext(s: System, t: nat, x: Trans, delay: nat, acc: nat, lat: nat, rnd: nat): System {
    var s1 := PopReq(Check(s, x in s.ic.ext && RouteOf(s, x).target == t), t);
    AfterForward(ForwardReq(s1, t, x, delay, acc, lat), RouteOf(s, x).init, x, rnd)
  }

  function AfterForward(o: Outcome, i: nat, x: Trans, rnd: nat): System {
    SendBwAfterRequest(o.s, i, x, o.r, rnd)
  }

  function PopReq(s: System, t: nat): System {
    var q := Queue(s.ic.reqQueue, t);
    if |q| == 0 then s
    else Move(s.(ic := s.ic.(reqQueue := s.ic.reqQueue[t := q[1..]])), q[0].trans, ReqReady)
  }

  // The rest of end_req_process; queueing the response returns before the release
  function SendBwAfterRequest(s: System, i: nat, x: Trans, r: Reply, rnd: nat): System {
    if r.status == Accepted then Release(s, x)
    else if r.status == Updated && r.phase == EndReq then Release(InitPosts(s, i, x, EndReq, r.delay), x)
    else
      var s1 := Ready(s, i, x);
      if i in s1.ic.rspSlot then QueueRsp(s1, i, x, r.delay)
      else Release(SendRspBw(s1, i, x, r.delay, rnd), x)
  }

  function EndRspProcess(s: System, i: nat, rnd: nat): System {
    var q := Queue(s.ic.rspQueue, i);
    if |q| == 0 then ClearRspSlot(Check(s, i in s.ic.rspSlot), i)
    else DeliverNext(Check(s, i in s.ic.rspSlot), i, q[0].trans, Since(q[0].time, s.now), rnd)
  }

  function ClearRspSlot(s: System, i: nat): System {
    s.(ic := s.ic.(rspSlot := s.ic.rspSlot - {i}, endRsp := s.ic.endRsp - {i}))
  }

  // The head of the queue goes to its initiator
  function DeliverNext(s: System, i: nat, x: Trans, delay: nat, rnd: nat): System {
    Release(SendRspBw(PopRsp(s, i), i, x, delay, rnd), x)
  }

  function PopRsp(s: System, i: nat): System {
    var q := Queue(s.ic.rspQueue, i);
    if |q| == 0 then s
    else Move(s.(ic := s.ic.(rspQueue := s.ic.rspQueue[i := q[1..]])), q[0].trans, RspReady)
  }

  // ---------- Steps and runs ----------

  datatype Action =
    | Allocates(i: nat, x: Trans)
    | Issues(i: nat, t: nat, delay: nat, acc: nat, lat: nat)
    | InitPeq(i: nat, x: Trans, rnd: nat)
    | TargPeq(t: nat, x: Trans, rnd: nat, acc: nat, lat: nat)
    | RunsSendRsp(t: nat, rnd: nat)
    | RunsEndReq(t: nat, acc: nat, lat: nat, rnd: nat)
    | RunsEndRsp(i: nat, rnd: nat)
    | Tick(time: nat)

  predicate Due(s: System, q: Peq, x: Trans) {
    |Lane(q, x)| > 0 && Lane(q, x)[0].time <= s.now
  }

  // No event of the queue is earlier than `time`
  ghost predicate NoneBefore(q: Peq, time: nat) {
    forall x, k :: 0 <= k < |Lane(q, x)| ==> time <= Lane(q, x)[k].time
  }

  // Time advances only when no process is runnable and never past a posted event
  ghost predicate MayAdvance(s: System, time: nat) {
    && s.now <= time
    && s.ic.endReq == {} && s.ic.endRsp == {}
    && (forall t :: t in s.targets ==> !s.targets[t].rspEvent && NoneBefore(s.targets[t].peq, time))
    && (forall i :: i in s.inits ==> NoneBefore(s.inits[i].peq, time))
  }

  ghost predicate Enabled(s: System, a: Action) {
    match a
    case Allocates(i, x) => i in s.inits && s.inits[i].held.None? && Refs(s, x) == 0
    case Issues(i, t, _, _, lat) =>
      i in s.inits && t in s.targets && s.inits[i].held.Some? && s.inits[i].reqInProgress.None? && s.minLatency <= lat
    case InitPeq(i, x, _) => i in s.inits && Due(s, s.inits[i].peq, x)
    case TargPeq(t, x, _, _, lat) => t in s.targets && Due(s, s.targets[t].peq, x) && s.minLatency <= lat
    case RunsSendRsp(t, _) => t in s.targets && s.targets[t].rspEvent
    case RunsEndReq(t, _, lat, _) => t in s.ic.endReq && s.minLatency <= lat
    case RunsEndRsp(i, _) => i in s.ic.endRsp
    case Tick(time) => MayAdvance(s, time)
  }

  function Apply(s: System, a: Action): System {
    match a
    case Allocates(i, x) => Allocate(s, i, x)
    case Issues(i, t, delay, acc, lat) => Issue(s, i, t, delay, acc, lat)
    case InitPeq(i, x, rnd) => InitCallback(s, i, x, rnd)
    case TargPeq(t, x, rnd, acc, lat) => TargetCallback(s, t, x, rnd, acc, lat)
    case RunsSendRsp(t, rnd) => DeferredResponse(s, t, rnd)
    case RunsEndReq(t, acc, lat, rnd) => EndReqProcess(s, t, acc, lat, rnd)
    case RunsEndRsp(i, rnd) => EndRspProcess(s, i, rnd)
    case Tick(time) => s.(now := time)
  }

  // The states after elaboration
  ghost predicate Initial(s: System) {
    && !s.failed
    && (forall i :: i in s.inits ==> s.inits[i] == Initiator(s.inits[i].kind, None, None, map[]))
    && (forall t :: t in s.targets ==> s.targets[t] == Target(s.targets[t].kind, 0, false, None, None, 0, false, map[]))
    && s.ic == Interconnect(map[], map[], {}, {}, map[], map[], map[])
    && s.refs == map[] && s.tokens == map[] && s.responder == map[] && s.log == []
    && s.arrived == map[] && s.forwarded == map[] && s.ready == map[] && s.delivered == map[]
  }

  ghost predicate Runs(s: System, actions: seq<Action>)
    decreases |actions|
  {
    |actions| > 0 ==> Enabled(s, actions[0]) && Runs(Apply(s, actions[0]), actions[1..])
  }

  function After(s: System, actions: seq<Action>): System
    decreases |actions|
  {
    if |actions| == 0 then s else After(Apply(s, actions[0]), actions[1..])
  }
}
