/** What the base-protocol checkers on all hops report, in every run of the transport system. */
module AtCheckers {
  import opened Tlm
  import opened ProtocolChecker
  import opened PhaseGrammar
  import opened CheckerTimes
  import opened AtSystem
  import opened AtInvariant
  import opened AtFrame
  import opened AtWatch
  import opened AtWatchMoves
  import opened AtTheorems

  // Some initiator of type B meets a target that may respond at the very time of its END_REQ
  predicate AtRisk(s: System) {
    Hasty(s) && exists i :: i in s.inits && s.inits[i].kind.InitB?
  }

  // The only report there can be is a second BEGIN_REQ from such an initiator
  lemma OnlyRequestExclusion(s0: System, actions: seq<Action>, s: System, v: Violation)
    requires Reaches(s0, actions, s) && v in Watch(s.log).errors
    ensures v.rule == RequestExclusion && v.hop.InitHop? && Init(s0, v.hop.i).kind.InitB? && AtRisk(s0)
  {
    hide Inv, Watch;
    ReachedIsSound(s0, actions, s);
    assert Mon(s) == Watch(s.log);
    assert Excused(s, v);
    assert v.hop.i in s0.inits;
  }

  // No system that is not at risk is ever reported
  lemma SilentUnlessAtRisk(s0: System, actions: seq<Action>, s: System)
    requires Reaches(s0, actions, s) && !AtRisk(s0)
    ensures Watch(s.log).errors == []
  {
    var errors := Watch(s.log).errors;
    if errors != [] {
      var v := errors[0];
      OnlyRequestExclusion(s0, actions, s, v);
    }
  }

  // On every hop, every transaction goes through the phases in the order that the base protocol allows
  lemma TracesConform(s0: System, actions: seq<Action>, s: System, h: Hop, x: Trans)
    requires Reaches(s0, actions, s)
    ensures Conforms(Trace(s.log, h, x))
  {
    forall rule | Violation(rule, h, x) in Watch(s.log).errors ensures rule == RequestExclusion {
      OnlyRequestExclusion(s0, actions, s, Violation(rule, h, x));
    }
    CheckerIsExact(s.log, h, x);
  }

  // On every hop, the annotated times of a transaction never decrease within a lifetime
  lemma TimesRise(s0: System, actions: seq<Action>, s: System, h: Hop, x: Trans)
    requires Reaches(s0, actions, s)
    ensures Rising(s.log, h, x)
  {
    if Violation(DecreasingTime, h, x) in Watch(s.log).errors {
      OnlyRequestExclusion(s0, actions, s, Violation(DecreasingTime, h, x));
    }
    TimeIsExact(s.log, h, x);
  }

  // ---------- Paths ----------

  // The path of a transaction is its initiator's hop and then its target's, as far as the response
  // has not passed them, and is empty when the pool may hand it out again
  lemma PathsAreStacks(s0: System, actions: seq<Action>, s: System, x: Trans)
    requires Reaches(s0, actions, s)
    ensures var hops := PathOf(Watch(s.log), x).hops;
            && hops <= [InitHop(Tok(s, x).init), TargHop(Tok(s, x).target)]
            && (Refs(s, x) == 0 ==> PathOf(Watch(s.log), x) == Path([], false))
  {
    hide Watch;
    ReachedIsSound(s0, actions, s);
    assert Mon(s) == Watch(s.log);
    assert PhasesOk(s, Mon(s), x) && TransOk(s, x) && !Passing(StageOf(s, x));
  }

  // ---------- END_REQ ----------

  lemma PhaseAtTarget(s: System, t: nat, x: Trans)
    requires Good(s) && Pipelined(Targ(s, t).kind)
    ensures HasEvent(s, t, x, Internal) || Targ(s, t).nextRsp == Some(x) ==> Ph(Mon(s), TargHop(t), x) == EndReq
    ensures HasEvent(s, t, x, BeginReq) || Targ(s, t).endReqPending == Some(x) ==> Ph(Mon(s), TargHop(t), x) == BeginReq
  {
    hide Watch, Inv, Watched, PhasesOk;
    StageAtTarget(s, t, x);
    PhaseOfStage(s, t, x);
  }

  lemma StageAtTarget(s: System, t: nat, x: Trans)
    requires Good(s)
    ensures HasEvent(s, t, x, Internal) ==> At(s, t, x, Executing)
    ensures HasEvent(s, t, x, BeginReq) ==> At(s, t, x, PeqReq)
    ensures Targ(s, t).nextRsp == Some(x) ==> At(s, t, x, RspDeferred)
    ensures Targ(s, t).endReqPending == Some(x) ==> At(s, t, x, ReqDeferred)
  {
    assert TargOk(s, t) && TargLaneOk(s, t, Targ(s, t).peq, x);
  }

  lemma PhaseOfStage(s: System, t: nat, x: Trans)
    requires Good(s) && Pipelined(Targ(s, t).kind)
    ensures At(s, t, x, Executing) || At(s, t, x, RspDeferred) ==> Ph(Mon(s), TargHop(t), x) == EndReq
    ensures At(s, t, x, PeqReq) || At(s, t, x, ReqDeferred) ==> Ph(Mon(s), TargHop(t), x) == BeginReq
  {
    hide Watch, Inv;
    assert PhasesOk(s, Mon(s), x);
  }

  // A target of type A or B has sent END_REQ for whatever it executes or has executed, and for nothing before
  lemma EndReqIsSentOnce(s0: System, actions: seq<Action>, s: System, t: nat, x: Trans)
    requires Reaches(s0, actions, s) && Pipelined(Targ(s, t).kind)
    ensures HasEvent(s, t, x, Internal) || Targ(s, t).nextRsp == Some(x) ==> Ph(Watch(s.log), TargHop(t), x) == EndReq
    ensures HasEvent(s, t, x, BeginReq) || Targ(s, t).endReqPending == Some(x) ==>
            Ph(Watch(s.log), TargHop(t), x) == BeginReq
  {
    hide Watch, Inv, Watched, PhasesOk;
    ReachedIsSound(s0, actions, s);
    assert Mon(s) == Watch(s.log);
    PhaseAtTarget(s, t, x);
  }

  // ---------- Requests of one initiator ----------

  // Unless the system is at risk, an initiator has at most one request that has not been ended
  lemma OneRequestPerInitiator(s0: System, actions: seq<Action>, s: System, x: Trans, y: Trans)
    requires Reaches(s0, actions, s) && !AtRisk(s0)
    requires Asking(StageOf(s, x)) && Asking(StageOf(s, y)) && Tok(s, x).init == Tok(s, y).init
    ensures x == y
  {
    hide Watch;
    var i := Tok(s, x).init;
    ReachedIsSound(s0, actions, s);
    assert i in s0.inits || Init(s0, i).kind.InitA?;
    assert Strict(s, i);
    assert StrictOk(s, Mon(s), i) && StrictLane(s, Mon(s), i, x) && StrictLane(s, Mon(s), i, y);
  }
}
