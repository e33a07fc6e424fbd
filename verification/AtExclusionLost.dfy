/**
 A system at risk does break the request exclusion rule. The END_REQ of a transaction that is over is
 still in the event queue of its initiator, of type B, and clears the flag that a later request has set.
 */
module AtExclusionLost {
  import opened Tlm
  import opened ProtocolChecker
  import opened AtSystem
  import opened AtInvariant
  import opened AtCallbacks
  import opened AtSteps
  import opened AtWatch
  import opened AtCheckers
  import opened AtTheorems

  // Nobody has heard of the transactions but 0
  predicate Unused(s: System) { Refs(s, 1) == 0 && Refs(s, 2) == 0 }

  // Target t has sent END_REQ for transaction 0 and is about to respond; the initiator has seen neither
  predicate Answering(s: System, i: nat, t: nat) {
    var n, g := Init(s, i), Targ(s, t);
    && Unused(s) && s.minLatency == 0 && i in s.inits && t in s.targets && t in s.ic.reqSlot && i !in s.ic.rspSlot
    && n.kind.InitB? && n.held == None && n.reqInProgress == Some(0) && Lane(n.peq, 0) == [Timed(s.now, EndReq)]
    && Pipelined(g.kind) && !g.responding && g.endReqPending == None && Lane(g.peq, 0) == [Timed(s.now, Internal)]
    && 0 in s.ic.ext && RouteOf(s, 0) == Route(i, t, false)
  }

  // Transaction 0 is over, but for its END_REQ
  predicate Stale(s: System, i: nat, t: nat) {
    var n := Init(s, i);
    && Unused(s) && s.minLatency == 0 && i in s.inits && t in s.targets && t in s.ic.reqSlot
    && n.held == None && n.reqInProgress == None && Lane(n.peq, 0) == [Timed(s.now, EndReq)]
  }

  function Send(i: nat, t: nat): Action { Issues(i, t, 0, 0, 0) }

  // ---------- Transaction 0 ----------

  lemma Sends(s: System, i: nat, t: nat)
    requires Initial(s) && s.minLatency == 0 && i in s.inits && s.inits[i].kind.InitB? && t in s.targets
    ensures Enabled(s, Allocates(i, 0))
    ensures var s1 := Allocate(s, i, 0);
            && Enabled(s1, Send(i, t)) && Init(s1, i).held == Some(0)
            && s1 == s.(inits := s.inits[i := s.inits[i].(held := Some(0))], refs := map[0 := 1],
                 tokens := map[0 := Token(Held, i, 0)])
  {
  }

  // The request of transaction 0 is under way; q: its events in the queue of the target
  predicate Underway(s: System, i: nat, t: nat, q: seq<Timed>) {
    var n, g := Init(s, i), Targ(s, t);
    && Unused(s) && s.minLatency == 0 && i in s.inits && t in s.targets && i !in s.ic.rspSlot
    && n.kind.InitB? && n.held == None && n.reqInProgress == Some(0)
    && Lane(n.peq, 0) == []
    && !g.responding && g.endReqPending == None && g.nTrans == 0 && Lane(g.peq, 0) == q
    && 0 in s.ic.ext && RouteOf(s, 0) == Route(i, t, false)
  }

  lemma Enters0(s: System, i: nat, t: nat)
    requires Initial(s) && s.minLatency == 0 && i in s.inits && s.inits[i].kind.InitB? && t in s.targets
    ensures var s1 := Allocate(s, i, 0);
            var s2 := SendReq(s1, i, t, 0, 0);
            && Underway(s2, i, t, []) && Targ(s2, t).kind == s.targets[t].kind && t !in s2.ic.reqSlot
            && Issue(s1, i, t, 0, 0, 0) == Replied0(s2, i, t)
  {
    hide ForwardReq, ReturnToInit;
    Sends(s, i, t);
  }

  // Transaction 0 is forwarded, and the initiator has got the reply
  function Replied0(s: System, i: nat, t: nat): System {
    var o := ForwardReq(s, t, 0, 0, 0, 0);
    ReturnToInit(o.s, i, 0, o.r)
  }

  lemma Accepts(s: System, i: nat, t: nat)
    requires Underway(s, i, t, []) && Targ(s, t).kind.TypeB? && t in s.ic.reqSlot
    ensures var o := TargetAccepts(s, t, 0, 0, 0, 0);
            o.r == Reply(Updated, EndReq, 0) && Answering(ReturnUpdated(OnReply(o.s, t, 0, o.r), i, 0, o.r), i, t)
  {
    var o := TargetAccepts(s, t, 0, 0, 0, 0);
    var s1 := NotifyEndReq(Show(o.s, TargHop(t), 0, Backward(EndReq), 0), t);
    assert OnReply(o.s, t, 0, o.r) == s1;
  }

  // Type B replies with END_REQ
  lemma Accepted(s: System, i: nat, t: nat)
    requires Underway(s, i, t, []) && Targ(s, t).kind.TypeB?
    ensures Answering(Replied0(s, i, t), i, t)
  {
    hide TargetAccepts, OnReply, ReturnUpdated;
    var s1 := OpenReq(s, t, 0, 0);
    var o := TargetAccepts(s1, t, 0, 0, 0, 0);
    assert ForwardReq(s, t, 0, 0, 0, 0) == Outcome(OnReply(o.s, t, 0, o.r), o.r);
    Accepts(s1, i, t);
  }

  // Type A puts BEGIN_REQ in its queue
  lemma Posted(s: System, i: nat, t: nat)
    requires Underway(s, i, t, []) && Targ(s, t).kind.TypeA?
    ensures var s' := Replied0(s, i, t);
            && Underway(s', i, t, [Timed(s'.now, BeginReq)])
            && Targ(s', t).kind.TypeA? && t in s'.ic.reqSlot
  {
    var o := TargetPostReq(OpenReq(s, t, 0, 0), t, 0, 0);
    assert ForwardReq(s, t, 0, 0, 0, 0) == o;
  }

  // And ends the request when BEGIN_REQ comes out of it
  lemma Ended(s: System, i: nat, t: nat)
    requires Underway(s, i, t, [Timed(s.now, BeginReq)]) && Targ(s, t).kind.TypeA? && t in s.ic.reqSlot
    ensures Enabled(s, TargPeq(t, 0, 0, 0, 0)) && Answering(TargetCallback(s, t, 0, 0, 0, 0), i, t)
  {
    hide SendEndReq;
    var s1 := AcceptReq(s, t, 0);
    assert TargetCallback(s, t, 0, 0, 0, 0) == SendEndReq(s1, t, 0, 0, 0);
    EndsReq(s1, i, t);
  }

  lemma EndsReq(s: System, i: nat, t: nat)
    requires Underway(s, i, t, []) && Pipelined(Targ(s, t).kind) && t in s.ic.reqSlot
    ensures Answering(SendEndReq(s, t, 0, 0, 0), i, t)
  {
  }

  // The target is sending its response
  predicate Responds(s: System, i: nat, t: nat) {
    var n, g := Init(s, i), Targ(s, t);
    && Unused(s) && s.minLatency == 0 && i in s.inits && t in s.targets && t in s.ic.reqSlot && i !in s.ic.rspSlot
    && n.kind.InitB? && n.held == None && n.reqInProgress == Some(0) && Lane(n.peq, 0) == [Timed(s.now, EndReq)]
    && g.endReqPending == None && 0 in s.ic.ext && RouteOf(s, 0) == Route(i, t, false)
  }

  lemma Executes(s: System, i: nat, t: nat)
    requires Answering(s, i, t)
    ensures Responds(Execute(s, t, 0), i, t)
    ensures TargetCallback(s, t, 0, 0, 0, 0) == SendResponse(Execute(s, t, 0), t, 0, 0, 0, 0)
  {
    hide SendResponse;
  }

  lemma Enters(s: System, i: nat, t: nat)
    requires Responds(s, i, t)
    ensures Responds(Enter(s, t, 0, 0), i, t)
  {
  }

  lemma Delivers(s: System, i: nat, t: nat)
    requires Responds(s, i, t)
    ensures var s' := DeliverToB(s, i, 0, EXTRA_RESPONSE_DELAY, 0);
            && Stale(s', i, t) && Targ(s', t) == Targ(s, t)
            && DeliverRsp(s, i, 0, EXTRA_RESPONSE_DELAY, 0)
                 == Outcome(s', Reply(Completed, BeginResp, EXTRA_RESPONSE_DELAY))
  {
  }

  lemma Finishes(s: System, i: nat, t: nat)
    requires Stale(s, i, t) && Targ(s, t).endReqPending == None
    ensures var s1 := Move(Show(s, TargHop(t), 0, BwCompleted, EXTRA_RESPONSE_DELAY), 0, Closed);
            && Stale(Finish(s1, t, 0), i, t) && Unblock(Finish(s1, t, 0), t, 0, 0) == Finish(s1, t, 0)
  {
  }

  lemma Ends(s: System, i: nat, t: nat)
    requires Answering(s, i, t)
    ensures Enabled(s, TargPeq(t, 0, 0, 0, 0)) && Stale(TargetCallback(s, t, 0, 0, 0, 0), i, t)
  {
    hide Enter, Finish, DeliverRsp, IcBeginResp, Unblock, Execute, DeliverToB, TargetCallback, Move, Show;
    var s1 := Execute(s, t, 0);
    var s2 := Enter(s1, t, 0, 0);
    var s3 := DeliverToB(s2, i, 0, EXTRA_RESPONSE_DELAY, 0);
    Executes(s, i, t);
    IcBeginRespIs(s1, t, 0, 0, 0);
    Enters(s1, i, t);
    Delivers(s2, i, t);
    Finishes(s3, i, t);
  }

  // ---------- Transactions 1 and 2 ----------

  lemma RunFirst(s: System, a: Action, rest: seq<Action>)
    requires Enabled(s, a) && Runs(Apply(s, a), rest)
    ensures Runs(s, [a] + rest) && After(s, [a] + rest) == After(Apply(s, a), rest)
  {
    hide Enabled, Apply;
    assert ([a] + rest)[1..] == rest;
  }

  // What the initiator's checker sees of a request that finds the target's slot taken
  lemma Waits(s: System, i: nat, t: nat, x: Trans)
    requires i in s.inits && Init(s, i).held == Some(x) && t in s.ic.reqSlot
    ensures var s', n := Issue(s, i, t, 0, 0, 0), Init(s, i);
            && s'.log == s.log + [Event(InitHop(i), x, Forward(BeginReq), s.now)]
            && s'.inits == s.inits[i := n.(held := None, reqInProgress := Some(x))] && s'.targets == s.targets
            && s'.ic.reqSlot == s.ic.reqSlot && s'.now == s.now && s'.minLatency == s.minLatency
            && (forall y :: y != x ==> Refs(s', y) == Refs(s, y))
  {
  }

  // The checker's flag is set by BEGIN_REQ, and a BEGIN_REQ that finds it set is reported
  lemma Flags(log: seq<Event>, h: Hop, x: Trans, when: nat)
    ensures var m, m' := Watch(log), Watch(log + [Event(h, x, Forward(BeginReq), when)]);
            && h in m'.req && (h in m.req ==> m'.errors != [])
  {
    hide Watch;
    WatchOne(log, Event(h, x, Forward(BeginReq), when));
  }

  lemma Repeats(s: System, i: nat, t: nat)
    requires i in s.inits && t in s.targets && t in s.ic.reqSlot && s.minLatency == 0 && Refs(s, 2) == 0
    requires Init(s, i).held == None && Init(s, i).reqInProgress == None && InitHop(i) in Watch(s.log).req
    ensures var actions := [Allocates(i, 2)] + ([Send(i, t)] + []);
            Runs(s, actions) && Watch(After(s, actions).log).errors != []
  {
    hide Watch;
    var s1 := Allocate(s, i, 2);
    var s2 := Issue(s1, i, t, 0, 0, 0);
    Waits(s1, i, t, 2);
    Flags(s.log, InitHop(i), 2, s1.now);
    assert Enabled(s1, Send(i, t)) && Apply(s1, Send(i, t)) == s2;
    RunFirst(s1, Send(i, t), []);
    assert Enabled(s, Allocates(i, 2)) && Apply(s, Allocates(i, 2)) == s1;
    RunFirst(s, Allocates(i, 2), [Send(i, t)] + []);
  }

  lemma Clears(s: System, i: nat)
    requires i in s.inits && Lane(Init(s, i).peq, 0) == [Timed(s.now, EndReq)]
    ensures Enabled(s, InitPeq(i, 0, 0))
    ensures var s', n := InitCallback(s, i, 0, 0), Init(s, i);
            s' == s.(inits := s.inits[i := n.(peq := Take(n.peq, 0), reqInProgress := None)])
  {
  }

  lemma Breaks(s: System, i: nat, t: nat) returns (actions: seq<Action>)
    requires Stale(s, i, t)
    ensures Runs(s, actions) && Watch(After(s, actions).log).errors != []
  {
    hide Watch, Allocate, Issue, InitCallback;
    var s1 := Allocate(s, i, 1);
    var s2 := Issue(s1, i, t, 0, 0, 0);
    var s3 := InitCallback(s2, i, 0, 0);
    var rest := [Allocates(i, 2)] + ([Send(i, t)] + []);
    Allocated(s, i, 1);
    Waits(s1, i, t, 1);
    Flags(s.log, InitHop(i), 1, s1.now);
    Clears(s2, i);
    Repeats(s3, i, t);
    RunFirst(s2, InitPeq(i, 0, 0), rest);
    RunFirst(s1, Send(i, t), [InitPeq(i, 0, 0)] + rest);
    RunFirst(s, Allocates(i, 1), [Send(i, t)] + ([InitPeq(i, 0, 0)] + rest));
    actions := [Allocates(i, 1)] + ([Send(i, t)] + ([InitPeq(i, 0, 0)] + rest));
  }

  lemma Allocated(s: System, i: nat, x: Trans)
    requires i in s.inits && Init(s, i).held == None && Refs(s, x) == 0
    ensures Enabled(s, Allocates(i, x))
    ensures var s' := Allocate(s, i, x);
            && s'.inits == s.inits[i := Init(s, i).(held := Some(x))] && s'.log == s.log && s'.targets == s.targets
            && s'.ic == s.ic && s'.now == s.now && s'.minLatency == s.minLatency
            && (forall y :: y != x ==> Refs(s', y) == Refs(s, y))
  {
  }

  // ---------- Every system at risk ----------

  lemma RiskIsReal(s0: System) returns (actions: seq<Action>)
    requires Initial(s0) && AtRisk(s0)
    ensures Runs(s0, actions) && Watch(After(s0, actions).log).errors != []
  {
    hide Watch, Answering, Stale, Underway, Allocate, Issue, SendReq, Replied0, TargetCallback, Runs;
    var i :| i in s0.inits && s0.inits[i].kind.InitB?;
    var t :| t in s0.targets && Pipelined(s0.targets[t].kind);
    var s1 := Allocate(s0, i, 0);
    var s2 := Issue(s1, i, t, 0, 0, 0);
    Sends(s0, i, t);
    var s' := SendReq(s1, i, t, 0, 0);
    Enters0(s0, i, t);
    if s0.targets[t].kind.TypeB? {
      Accepted(s', i, t);
      actions := Concludes(s2, i, t);
    } else {
      Posted(s', i, t);
      Ended(s2, i, t);
      actions := Concludes(TargetCallback(s2, t, 0, 0, 0, 0), i, t);
      RunFirst(s2, TargPeq(t, 0, 0, 0, 0), actions);
      actions := [TargPeq(t, 0, 0, 0, 0)] + actions;
    }
    RunFirst(s1, Send(i, t), actions);
    RunFirst(s0, Allocates(i, 0), [Send(i, t)] + actions);
    actions := [Allocates(i, 0)] + ([Send(i, t)] + actions);
  }

  lemma Concludes(s: System, i: nat, t: nat) returns (actions: seq<Action>)
    requires Answering(s, i, t)
    ensures Runs(s, actions) && Watch(After(s, actions).log).errors != []
  {
    hide Watch, Answering, Stale, TargetCallback, Runs;
    Ends(s, i, t);
    actions := Breaks(TargetCallback(s, t, 0, 0, 0, 0), i, t);
    RunFirst(s, TargPeq(t, 0, 0, 0, 0), actions);
    actions := [TargPeq(t, 0, 0, 0, 0)] + actions;
  }

  // The checkers stay silent in every run of a system if and only if it is not at risk
  lemma SilentIff(s0: System)
    requires Initial(s0)
    ensures (forall actions :: Runs(s0, actions) ==> Watch(After(s0, actions).log).errors == []) <==> !AtRisk(s0)
  {
    if AtRisk(s0) {
      var _ := RiskIsReal(s0);
    } else {
      forall actions | Runs(s0, actions) ensures Watch(After(s0, actions).log).errors == [] {
        SilentUnlessAtRisk(s0, actions, After(s0, actions));
      }
    }
  }
}
