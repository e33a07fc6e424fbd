/**
 The exact reference count of every transaction in every run. end_req_process releases the reference of
 its queue on all paths but two: when the response that comes back has to wait, it returns too early. Each
 such return strands one reference for ever, and nothing else does.
 */
module AtReferences {
  import opened Tlm
  import opened AtSystem
  import opened AtInvariant
  import opened AtSteps
  import opened AtTheorems
  import opened AtWatchMoves

  // How many references of x end_req_process strands along the run
  function Stranded(s: System, actions: seq<Action>, x: Trans): nat
    decreases |actions|
  {
    if |actions| == 0 then 0
    else Bit(actions[0].RunsEndReq? && Strands(s, actions[0].t, x)) + Stranded(Apply(s, actions[0]), actions[1..], x)
  }

  lemma {:induction false} SpareGrows(s: System, actions: seq<Action>, x: Trans)
    requires Good(s) && Quiet(s) && Runs(s, actions)
    ensures Spare(After(s, actions), x) == Spare(s, x) + Stranded(s, actions, x)
    decreases |actions|
  {
    hide Good, Quiet, Enabled, Apply, Spare, Strands;
    if |actions| > 0 {
      StepKeeps(s, actions[0]);
      SpareGrows(Apply(s, actions[0]), actions[1..], x);
    }
  }

  // The count is that of the holders and of the stranded references
  lemma RefsAreExact(s0: System, actions: seq<Action>, s: System, x: Trans)
    requires Reaches(s0, actions, s)
    ensures Refs(s, x) == Holders(StageOf(s, x), KindOf(s, x)) + Stranded(s0, actions, x)
  {
    hide Inv, Quiet;
    InitialKeeps(s0);
    SpareGrows(s0, actions, x);
    assert Spare(s0, x) == 0;
  }

  // A transaction that is over goes back to the pool if and only if none of its references has been stranded
  lemma ReturnsIff(s0: System, actions: seq<Action>, s: System, x: Trans)
    requires Reaches(s0, actions, s)
    ensures Refs(s, x) == 0 <==> StageOf(s, x) == Free && Stranded(s0, actions, x) == 0
  {
    ReachedIsSound(s0, actions, s);
    RefsAreExact(s0, actions, s, x);
    assert !Passing(StageOf(s, x));
  }

  lemma {:induction false} StrandedAdds(s: System, first: seq<Action>, rest: seq<Action>, x: Trans)
    ensures Stranded(s, first + rest, x) == Stranded(s, first, x) + Stranded(After(s, first), rest, x)
    decreases |first|
  {
    hide Apply, Strands;
    if first == [] {
      assert [] + rest == rest;
    } else {
      assert (first + rest)[1..] == first[1..] + rest;
      StrandedAdds(Apply(s, first[0]), first[1..], rest, x);
    }
  }

  // No continuation of the run brings it back
  lemma NeverReturns(s0: System, first: seq<Action>, rest: seq<Action>, s: System, x: Trans)
    requires Reaches(s0, first + rest, s) && Stranded(s0, first, x) > 0
    ensures Refs(s, x) > 0
  {
    StrandedAdds(s0, first, rest, x);
    RefsAreExact(s0, first + rest, s, x);
  }

  // ---------- A run that strands a reference ----------

  // The response to transaction 0 waits in the event queue of initiator i
  predicate Answered(s: System, i: nat, t: nat) {
    var n, g := Init(s, i), Targ(s, t);
    && Refs(s, 1) == 0 && s.minLatency == 0 && i in s.inits && t in s.targets
    && n.held == None && n.reqInProgress == Some(0) && Lane(n.peq, 0) == [Timed(s.now, BeginResp)]
    && g.kind.TypeD? && g.responding && g.nextRsp == None
    && t in s.ic.reqSlot && t in s.ic.endReq && i in s.ic.rspSlot && Queue(s.ic.reqQueue, t) == []
    && 0 in s.ic.ext && RouteOf(s, 0) == Route(i, t, false)
  }

  // Transaction 0 is over, and the processes of the interconnect have not run yet
  predicate Over(s: System, i: nat, t: nat) {
    var n, g := Init(s, i), Targ(s, t);
    && Refs(s, 1) == 0 && s.minLatency == 0 && i in s.inits && t in s.targets
    && n.held == None && n.reqInProgress == None && g.kind.TypeD? && !g.responding
    && t in s.ic.reqSlot && t in s.ic.endReq && i in s.ic.rspSlot && Queue(s.ic.reqQueue, t) == []
  }

  lemma UpdatedIs(s: System, t: nat, r: Reply)
    requires r == Reply(Updated, BeginResp, 0)
    ensures OnReply(s, t, 0, r) == NotifyEndReq(Show(s, TargHop(t), 0, Backward(BeginResp), 0), t)
  {
  }

  lemma Posts(s: System, i: nat, t: nat, r: Reply)
    requires r == Reply(Updated, BeginResp, 0) && s.minLatency == 0 && i in s.inits && t in s.targets && Refs(s, 1) == 0
    requires Init(s, i).held == None && Init(s, i).reqInProgress == Some(0) && Lane(Init(s, i).peq, 0) == []
    requires Targ(s, t).kind.TypeD? && Targ(s, t).responding && Targ(s, t).nextRsp == None
    requires t in s.ic.reqSlot && t in s.ic.endReq && Queue(s.ic.reqQueue, t) == []
    requires 0 in s.ic.ext && RouteOf(s, 0) == Route(i, t, false)
    ensures Answered(ReturnResp(s, i, 0, r), i, t)
  {
  }

  lemma Forwards(s: System, i: nat, t: nat)
    requires s.minLatency == 0 && i in s.inits && t in s.targets && Refs(s, 1) == 0
    requires Init(s, i).held == None && Init(s, i).reqInProgress == Some(0) && Lane(Init(s, i).peq, 0) == []
    requires Targ(s, t).kind.TypeD? && !Targ(s, t).responding && Targ(s, t).nextRsp == None
    requires i !in s.ic.rspSlot && Queue(s.ic.reqQueue, t) == [] && 0 in s.ic.ext && RouteOf(s, 0) == Route(i, t, false)
    ensures var o := ForwardReq(s, t, 0, 0, 0, 0); Answered(ReturnToInit(o.s, i, 0, o.r), i, t)
  {
    hide OnReply, ReturnResp;
    var s1 := OpenReq(s, t, 0, 0);
    var o := TargetResponds(s1, t, 0, 0, 0);
    var s2 := NotifyEndReq(Show(o.s, TargHop(t), 0, Backward(BeginResp), 0), t);
    UpdatedIs(o.s, t, o.r);
    assert ForwardReq(s, t, 0, 0, 0, 0) == Outcome(s2, o.r);
    Posts(Ready(s2, i, 0), i, t, o.r);
  }

  lemma Responds(s: System, i: nat, t: nat)
    requires Initial(s) && s.minLatency == 0 && i in s.inits && t in s.targets && s.targets[t].kind.TypeD?
    ensures Enabled(s, Allocates(i, 0)) && Enabled(Allocate(s, i, 0), Issues(i, t, 0, 0, 0))
    ensures Answered(Issue(Allocate(s, i, 0), i, t, 0, 0, 0), i, t)
  {
    hide ForwardReq, ReturnToInit, Answered;
    var s1 := Allocate(s, i, 0);
    var s2 := SendReq(s1, i, t, 0, 0);
    var o := ForwardReq(s2, t, 0, 0, 0, 0);
    Forwards(s2, i, t);
    assert Issue(s1, i, t, 0, 0, 0) == ReturnToInit(o.s, i, 0, o.r);
  }

  lemma Completes(s: System, i: nat, t: nat)
    requires Answered(s, i, t)
    ensures Enabled(s, InitPeq(i, 0, 0)) && Over(InitCallback(s, i, 0, 0), i, t)
  {
    hide EndOnTarget;
    var s1 := EndRsp(TakeBeginResp(s, i, 0), i, 0, 0);
    var o := EndOnTarget(s1, 0, 0);
    Clears(s1, i, t);
    assert IcEndResp(TakeBeginResp(s, i, 0), i, 0, 0) == Show(o.s, InitHop(i), 0, FwCompleted(false), o.r.delay);
  }

  lemma Clears(s: System, i: nat, t: nat)
    requires Targ(s, t).kind.TypeD? && Targ(s, t).nextRsp == None && RouteOf(s, 0) == Route(i, t, false)
    ensures var o := EndOnTarget(s, 0, 0);
            && o.r.status == Completed && o.s.ic == s.ic && o.s.inits == s.inits && o.s.minLatency == s.minLatency
            && t in o.s.targets && Targ(o.s, t).kind.TypeD? && !Targ(o.s, t).responding && Refs(o.s, 1) == Refs(s, 1)
  {
  }

  lemma Repeats(s: System, i: nat, t: nat)
    requires Over(s, i, t)
    ensures var s1 := Allocate(s, i, 1);
            var s2 := Issue(s1, i, t, 0, 0, 0);
            && Enabled(s, Allocates(i, 1)) && Enabled(s1, Issues(i, t, 0, 0, 0))
            && Enabled(s2, RunsEndReq(t, 0, 0, 0)) && Strands(s2, t, 1)
  {
  }

  // Any system without a least latency that has an initiator and a target of type D
  lemma ReferencesCanBeStranded(s0: System, i: nat, t: nat) returns (actions: seq<Action>)
    requires Initial(s0) && s0.minLatency == 0 && i in s0.inits && t in s0.targets && s0.targets[t].kind.TypeD?
    ensures Runs(s0, actions) && Stranded(s0, actions, 1) > 0
  {
    hide Answered, Over, Allocate, Issue, InitCallback, EndReqProcess, Enabled, Strands;
    var send := Issues(i, t, 0, 0, 0);
    var s1 := Allocate(s0, i, 0);
    var s2 := Issue(s1, i, t, 0, 0, 0);
    var s3 := InitCallback(s2, i, 0, 0);
    var s4 := Allocate(s3, i, 1);
    var s5 := Issue(s4, i, t, 0, 0, 0);
    Responds(s0, i, t);
    Completes(s2, i, t);
    Repeats(s3, i, t);
    actions := Before(s5, RunsEndReq(t, 0, 0, 0), []);
    actions := Before(s4, send, actions);
    actions := Before(s3, Allocates(i, 1), actions);
    actions := Before(s2, InitPeq(i, 0, 0), actions);
    actions := Before(s1, send, actions);
    actions := Before(s0, Allocates(i, 0), actions);
  }

  lemma Before(s: System, a: Action, rest: seq<Action>) returns (actions: seq<Action>)
    requires Enabled(s, a) && Runs(Apply(s, a), rest)
    ensures Runs(s, actions) && After(s, actions) == After(Apply(s, a), rest)
    ensures Stranded(s, actions, 1) == Bit(a.RunsEndReq? && Strands(s, a.t, 1)) + Stranded(Apply(s, a), rest, 1)
  {
    hide Enabled, Apply, Strands;
    actions := [a] + rest;
    assert actions[1..] == rest;
  }
}
