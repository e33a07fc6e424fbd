/** The invariant of the transport system: what the interconnect and every module hold, told by the stages. */
module AtInvariant {
  import opened Tlm
  import opened AtSystem

  function StageOf(s: System, x: Trans): Stage { Tok(s, x).stage }
  function KindOf(s: System, x: Trans): TargetKind { Targ(s, Tok(s, x).target).kind }

  // Target t holds x at one of the given stages
  predicate At(s: System, t: nat, x: Trans, stage: Stage) {
    Tok(s, x).stage == stage && Tok(s, x).target == t
  }

  // The BEGIN_REQ of x has been sent to its target and not been ended
  predicate Open(s: System, x: Trans) {
    match StageOf(s, x)
    case PeqReq => true
    case ReqTaken => true
    case ReqDeferred => true
    case Executing => Implicit(KindOf(s, x))
    case Executed => Implicit(KindOf(s, x))
    case RspDeferred => Implicit(KindOf(s, x))
    case _ => false
  }

  // Targets that send no END_REQ
  predicate Implicit(k: TargetKind) { k.TypeC? || k.TypeD? }

  predicate Pipelined(k: TargetKind) { k.TypeA? || k.TypeB? }

  // The target of x is busy with the response to x
  predicate Responding(s: System, x: Trans) {
    !KindOf(s, x).TypeE? && StageOf(s, x) in {RspReady, RspQueued, RspSent, Closing, Closed, PeqEnd}
  }

  // Stages that last only while a process runs
  predicate Passing(g: Stage) {
    g in {ReqReady, ReqTaken, Executed, RspReady, Closing, Closed}
  }

  // ---------- Reference counts ----------

  // One for the initiator, one for the queue, one for the target
  function Holders(g: Stage, k: TargetKind): nat {
    match g
    case Free => 0
    case Held => 1
    case ReqReady => 1
    case ReqQueued => 2
    case PeqReq => 1
    case ReqTaken => 2
    case ReqDeferred => 2
    case Executing => 2
    case Executed => 2
    case RspDeferred => 2
    case RspReady => if k.TypeE? then 1 else 2
    case RspQueued => if k.TypeE? then 2 else 3
    case RspSent => if k.TypeE? then 1 else 2
    case Closing => if k.TypeE? then 0 else 1
    case Closed => 1
    case PeqEnd => 1
  }

  function Spare(s: System, x: Trans): int {
    Refs(s, x) - Holders(StageOf(s, x), KindOf(s, x))
  }

  // ---------- One transaction ----------

  predicate Fits(g: Stage, k: TargetKind) {
    match g
    case PeqReq => !k.TypeD? && !k.TypeE?
    case ReqTaken => Pipelined(k)
    case ReqDeferred => Pipelined(k)
    case Executing => !k.TypeD? && !k.TypeE?
    case Executed => !k.TypeE?
    case RspDeferred => !k.TypeE?
    case Closed => !k.TypeE?
    case PeqEnd => !k.TypeD? && !k.TypeE?
    case _ => true
  }

  predicate Routed(s: System, x: Trans) {
    var k := Tok(s, x);
    && k.target in s.targets
    && x in s.ic.ext
    && s.ic.ext[x] == Route(k.init, k.target,
                            KindOf(s, x).TypeE? && k.stage in {RspReady, RspQueued, RspSent, Closing})
  }

  ghost predicate TransOk(s: System, x: Trans) {
    var k := Tok(s, x);
    && Spare(s, x) >= 0
    && (!k.stage.Free? ==> k.init in s.inits)
    && (!k.stage.Free? && !k.stage.Held? ==> Routed(s, x) && Fits(k.stage, KindOf(s, x)))
    && (k.stage.Held? ==> Init(s, k.init).held == Some(x))
    && (k.stage.ReqQueued? ==> InQueue(Queue(s.ic.reqQueue, k.target), x))
    && (Open(s, x) ==> k.target in s.ic.reqSlot && s.ic.reqSlot[k.target] == x && k.target !in s.ic.endReq)
    && (k.stage.ReqDeferred? ==> Targ(s, k.target).endReqPending == Some(x))
    && (k.stage.RspDeferred? ==> Targ(s, k.target).nextRsp == Some(x))
    && (Responding(s, x) ==> k.target in s.responder && s.responder[k.target] == x)
    && (k.stage.RspQueued? ==> InQueue(Queue(s.ic.rspQueue, k.init), x))
    && (k.stage.RspSent? ==> k.init in s.ic.rspSlot && s.ic.rspSlot[k.init] == x && k.init !in s.ic.endRsp)
  }

  predicate InQueue(q: seq<Queued>, x: Trans) {
    exists k :: 0 <= k < |q| && q[k].trans == x
  }

  ghost predicate Distinct(q: seq<Queued>) {
    forall j, k :: 0 <= j < k < |q| ==> q[j].trans != q[k].trans
  }

  // ---------- One target-side socket ----------

  ghost predicate ReqSideOk(s: System, t: nat) {
    && (t in s.ic.reqSlot && t !in s.ic.endReq ==> Open(s, s.ic.reqSlot[t]) && Tok(s, s.ic.reqSlot[t]).target == t)
    && (t in s.ic.endReq ==> t in s.ic.reqSlot)
    && (Queue(s.ic.reqQueue, t) != [] ==> t in s.ic.reqSlot)
    && (forall k :: 0 <= k < |Queue(s.ic.reqQueue, t)| ==> At(s, t, Queue(s.ic.reqQueue, t)[k].trans, ReqQueued))
    && Distinct(Queue(s.ic.reqQueue, t))
  }

  // ---------- One initiator-side socket ----------

  ghost predicate RspSideOk(s: System, i: nat) {
    && (i in s.ic.rspSlot && i !in s.ic.endRsp ==> FromInit(s, i, s.ic.rspSlot[i], RspSent))
    && (i in s.ic.endRsp ==> i in s.ic.rspSlot)
    && (Queue(s.ic.rspQueue, i) != [] ==> i in s.ic.rspSlot)
    && (forall k :: 0 <= k < |Queue(s.ic.rspQueue, i)| ==> FromInit(s, i, Queue(s.ic.rspQueue, i)[k].trans, RspQueued))
    && Distinct(Queue(s.ic.rspQueue, i))
  }

  predicate FromInit(s: System, i: nat, x: Trans, stage: Stage) {
    Tok(s, x).stage == stage && Tok(s, x).init == i
  }

  // ---------- One initiator ----------

  // Initiator i has sent BEGIN_REQ for x and not yet taken its response
  predicate Awaited(s: System, i: nat, x: Trans) {
    Tok(s, x).init == i && Tok(s, x).stage !in {Free, Held, Closing, Closed, PeqEnd}
  }

  ghost predicate InitOk(s: System, i: nat) {
    var n := Init(s, i);
    && (n.held.Some? ==> FromInit(s, i, n.held.value, Held))
    && (n.reqInProgress.Some? ==> Awaited(s, i, n.reqInProgress.value))
    && (forall x :: InitLaneOk(s, i, n.peq, x))
  }

  // END_REQs, then BEGIN_RESP exactly when the response is with the initiator
  ghost predicate InitLaneOk(s: System, i: nat, q: Peq, x: Trans) {
    var lane := Lane(q, x);
    && (FromInit(s, i, x, RspSent) ==> |lane| > 0 && lane[|lane| - 1].phase == BeginResp)
    && (forall k :: 0 <= k < |lane| ==>
          s.now <= lane[k].time
          && ((k == |lane| - 1 && FromInit(s, i, x, RspSent)) || lane[k].phase == EndReq))
  }

  // ---------- One target ----------

  ghost function Executions(s: System, t: nat): set<Trans> {
    set x | x in s.tokens && (At(s, t, x, Executing) || At(s, t, x, Executed))
  }

  function Bit(b: bool): nat { if b then 1 else 0 }

  ghost predicate TargOk(s: System, t: nat) {
    var g := Targ(s, t);
    && (g.endReqPending.Some? ==> At(s, t, g.endReqPending.value, ReqDeferred))
    && (g.nextRsp.Some? ==> At(s, t, g.nextRsp.value, RspDeferred))
    && (g.responding <==> t in s.responder)
    && (t in s.responder ==> Responding(s, s.responder[t]) && Tok(s, s.responder[t]).target == t)
    && (g.rspEvent ==> g.kind.TypeD? && g.nextRsp.Some? && !g.responding)
    && CountOk(s, t)
    && (forall x :: TargLaneOk(s, t, g.peq, x))
  }

  // The pipeline of a target of type A or B holds at most two transactions
  ghost predicate CountOk(s: System, t: nat) {
    var g := Targ(s, t);
    && g.nTrans <= 2
    && (Pipelined(g.kind) ==> g.nTrans == |Executions(s, t)| + Bit(g.responding) + Bit(g.nextRsp.Some?))
  }

  // A transaction has one event in a target's queue, at three of its stages
  predicate TargLaneOk(s: System, t: nat, q: Peq, x: Trans) {
    var lane := Lane(q, x);
    if At(s, t, x, PeqReq) then OneEvent(lane, s.now, BeginReq)
    else if At(s, t, x, Executing) then OneEvent(lane, s.now, Internal)
    else if At(s, t, x, PeqEnd) then OneEvent(lane, s.now, EndResp)
    else lane == []
  }

  predicate OneEvent(lane: seq<Timed>, now: nat, phase: Phase) {
    |lane| == 1 && lane[0].phase == phase && now <= lane[0].time
  }

  // Deferred work is waiting for something that will come
  predicate Settled(s: System, t: nat) {
    var g := Targ(s, t);
    && (g.endReqPending.Some? ==> g.nTrans == 2)
    && (g.nextRsp.Some? ==> g.responding || g.rspEvent)
  }

  // ---------- Order through the queues ----------

  function TransOf(q: seq<Queued>): seq<Trans> {
    seq(|q|, k requires 0 <= k < |q| => q[k].trans)
  }

  // ---------- Everything ----------

  ghost predicate Inv(s: System) {
    && !s.failed
    && (forall x :: TransOk(s, x))
    && (forall t :: ReqSideOk(s, t))
    && (forall i :: RspSideOk(s, i))
    && (forall i :: InitOk(s, i))
    && (forall t :: TargOk(s, t))
  }

  // Between two steps
  ghost predicate Quiet(s: System) {
    && (forall x :: !Passing(StageOf(s, x)))
    && (forall t :: Settled(s, t))
  }
}
