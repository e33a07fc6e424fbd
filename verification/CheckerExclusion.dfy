/**
 When the checkers report a second open request or response (7.2.4 b and c), told by what has passed the hop and not
 by the flags that the checkers keep.
 */
module CheckerExclusion {
  import opened Tlm
  import opened ProtocolChecker
  import opened PhaseGrammar
  import opened CheckerTimes

  // ---------- Which events open and end requests and responses ----------

  predicate IsReq(e: Event, h: Hop) { e.hop == h && e.signal == Forward(BeginReq) }

  // END_REQ and TLM_COMPLETED end any request on the hop, BEGIN_RESP that of its own transaction
  predicate EndsReq(e: Event, h: Hop, x: Trans) {
    e.hop == h && (e.signal == Backward(EndReq) || e.signal.FwCompleted?
        || (e.signal == Backward(BeginResp) && e.trans == x))
  }

  predicate EndsRsp(e: Event, h: Hop) {
    e.hop == h && (e.signal == Forward(EndResp) || e.signal == BwUpdated(EndResp) || e.signal.BwCompleted?)
  }

  // Of the first n events j is the last BEGIN_REQ on h, and nothing after it has ended that request
  ghost predicate OpenReq(log: seq<Event>, n: nat, h: Hop, j: nat) {
    && j < n <= |log| && IsReq(log[j], h)
    && forall k :: j < k < n ==> !IsReq(log[k], h) && !EndsReq(log[k], h, log[j].trans)
  }

  // Of the first n events j is a BEGIN_RESP on h, and nothing after it has ended a response there
  ghost predicate OpenRsp(log: seq<Event>, n: nat, h: Hop, j: nat) {
    j < n <= |log| && IsResp(log[j], h) && forall k :: j < k < n ==> !EndsRsp(log[k], h)
  }

  predicate PhaseChecked(e: Event) { e.signal.Forward? || e.signal.Backward? || e.signal.BwUpdated? }

  // The flags of h in m', and the reports of x there, are those of m after the event
  ghost predicate Adds(m: Monitor, m': Monitor, e: Event, h: Hop, x: Trans, rule: Rule) {
    && (h in m'.req <==> IsReq(e, h) || (h in m.req && !EndsReq(e, h, m.req[h])))
    && (h in m'.req ==> m'.req[h] == if IsReq(e, h) then e.trans else m.req[h])
    && (h in m'.rsp <==> IsResp(e, h) || (h in m.rsp && !EndsRsp(e, h)))
    && (Violation(rule, h, x) in m'.errors <==>
        || Violation(rule, h, x) in m.errors
        || (rule.RequestExclusion? && e.trans == x && IsReq(e, h) && h in m.req)
        || (rule.ResponseExclusion? && e.trans == x && IsResp(e, h) && h in m.rsp))
  }

  lemma FwAdds(m: Monitor, e: Event, h: Hop, x: Trans, rule: Rule)
    requires e.signal.Forward? && (rule.RequestExclusion? || rule.ResponseExclusion?)
    ensures Adds(m, FwSequence(m, e.hop, e.trans, e.signal.phase), e, h, x, rule)
  {
    hide Require, StartPath, Ph;
    var v, g, y := Violation(rule, h, x), e.hop, e.trans;
    if e.signal.phase == BeginReq {
      BeginReqAdds(m, g, y, v);
    } else if e.signal.phase == EndResp {
      RequireAdds(m, Ph(m, g, y) == BeginResp, OutOfSequence, g, y, v);
      RequireKeeps(m, Ph(m, g, y) == BeginResp, OutOfSequence, g, y);
    } else {
      RequireAdds(m, false, WrongPath, g, y, v);
      RequireKeeps(m, false, WrongPath, g, y);
    }
  }

  lemma BwAdds(m: Monitor, e: Event, h: Hop, x: Trans, rule: Rule)
    requires e.signal.Backward? && (rule.RequestExclusion? || rule.ResponseExclusion?)
    ensures Adds(m, BwSequence(m, e.hop, e.trans, e.signal.phase), e, h, x, rule)
  {
    hide Require, BeginsResp, Ph;
    var v, g, y := Violation(rule, h, x), e.hop, e.trans;
    if e.signal.phase == BeginResp {
      BeginRespAdds(m, g, y, v);
    } else if e.signal.phase == EndReq {
      RequireAdds(m, Ph(m, g, y) == BeginReq, OutOfSequence, g, y, v);
      RequireKeeps(m, Ph(m, g, y) == BeginReq, OutOfSequence, g, y);
    } else {
      RequireAdds(m, false, WrongPath, g, y, v);
      RequireKeeps(m, false, WrongPath, g, y);
    }
  }

  lemma BwReturnAdds(m: Monitor, e: Event, h: Hop, x: Trans, rule: Rule)
    requires e.signal.BwUpdated? && (rule.RequestExclusion? || rule.ResponseExclusion?)
    ensures Adds(m, BwReturnSequence(m, e.hop, e.trans, e.signal.phase), e, h, x, rule)
  {
    hide Require, Ph;
    var v, g, y := Violation(rule, h, x), e.hop, e.trans;
    if e.signal.phase == EndResp {
      RequireAdds(m, Ph(m, g, y) == BeginResp, OutOfSequence, g, y, v);
      RequireKeeps(m, Ph(m, g, y) == BeginResp, OutOfSequence, g, y);
    } else {
      RequireAdds(m, false, OutOfSequence, g, y, v);
      RequireAdds(m, false, WrongPath, g, y, v);
      RequireKeeps(m, false, OutOfSequence, g, y);
      RequireKeeps(m, false, WrongPath, g, y);
    }
  }

  lemma CheckedAdds(m: Monitor, e: Event, h: Hop, x: Trans, rule: Rule)
    requires PhaseChecked(e) && (rule.RequestExclusion? || rule.ResponseExclusion?)
    ensures Adds(m, Checked(m, e), e, h, x, rule)
  {
    hide Adds, FwSequence, BwSequence, BwReturnSequence;
    match e.signal
    case Forward(_) => FwAdds(m, e, h, x, rule);
    case Backward(_) => BwAdds(m, e, h, x, rule);
    case BwUpdated(_) => BwReturnAdds(m, e, h, x, rule);
  }

  lemma OneAdds(m: Monitor, e: Event, h: Hop, x: Trans, rule: Rule)
    requires rule.RequestExclusion? || rule.ResponseExclusion?
    ensures Adds(m, Observe(m, e), e, h, x, rule)
  {
    hide BackOnPath, Checked;
    if e.signal.FwCompleted? {
      BackAdds(m, e.hop, e.trans, Violation(rule, h, x));
    } else if PhaseChecked(e) {
      CheckedAdds(m, e, h, x, rule);
      var m2 := SetPhase(Checked(m, e), e.hop, e.trans, e.signal.phase);
      assert Observe(m, e) == CheckTime(m2, e.hop, e.trans, e.when) by { ObserveIs(m, e); }
      RequireAdds(m2, Time(m2, e.hop, e.trans) <= e.when, DecreasingTime, e.hop, e.trans, Violation(rule, h, x));
    }
  }

  lemma ObserveIs(m: Monitor, e: Event)
    requires PhaseChecked(e)
    ensures Observe(m, e) == CheckTime(SetPhase(Checked(m, e), e.hop, e.trans, e.signal.phase), e.hop, e.trans, e.when)
  {
    hide CheckTime, SetPhase, FwSequence, BwSequence, BwReturnSequence;
  }

  // ---------- Whole runs ----------

  // The flags tell what is open
  lemma {:induction false} FlagsTell(log: seq<Event>, n: nat, h: Hop)
    requires n <= |log|
    ensures var m := Watch(log[..n]);
            && (h in m.req <==> exists j: nat :: OpenReq(log, n, h, j))
            && (forall j: nat :: OpenReq(log, n, h, j) ==> h in m.req && m.req[h] == log[j].trans)
            && (h in m.rsp <==> exists j: nat :: OpenRsp(log, n, h, j))
  {
    hide Observe, Watch, IsReq, IsResp, EndsReq, EndsRsp;
    if n == 0 {
      NoFlags(log, h);
    } else {
      var m, e := Watch(log[..n - 1]), log[n - 1];
      FlagsTell(log, n - 1, h);
      OneMore(log, n);
      OneAdds(m, e, h, e.trans, RequestExclusion);
      if IsReq(e, h) { assert OpenReq(log, n, h, n - 1); }
      if IsResp(e, h) { assert OpenRsp(log, n, h, n - 1); }
      forall j: nat | j < n - 1
        ensures OpenReq(log, n, h, j) <==>
                  OpenReq(log, n - 1, h, j) && !IsReq(e, h) && !EndsReq(e, h, log[j].trans)
        ensures OpenRsp(log, n, h, j) <==> OpenRsp(log, n - 1, h, j) && !EndsRsp(e, h)
      {
      }
    }
  }

  lemma NoFlags(log: seq<Event>, h: Hop)
    ensures h !in Watch(log[..0]).req && h !in Watch(log[..0]).rsp && Watch(log[..0]).errors == []
  {
  }

  lemma OneMore(log: seq<Event>, n: nat)
    requires 0 < n <= |log|
    ensures Watch(log[..n]) == Observe(Watch(log[..n - 1]), log[n - 1])
  {
    assert log[..n] == log[..n - 1] + [log[n - 1]];
    WatchOne(log[..n - 1], log[n - 1]);
  }

  lemma {:induction false} ExclusionUpTo(log: seq<Event>, n: nat, h: Hop, x: Trans)
    requires n <= |log|
    ensures Violation(ResponseExclusion, h, x) in Watch(log[..n]).errors
            <==> exists k: nat, j: nat :: k < n && IsResp(log[k], h) && log[k].trans == x && OpenRsp(log, k, h, j)
    ensures Violation(RequestExclusion, h, x) in Watch(log[..n]).errors
            <==> exists k: nat, j: nat :: k < n && IsReq(log[k], h) && log[k].trans == x && OpenReq(log, k, h, j)
  {
    hide Observe, Watch, IsReq, IsResp, EndsReq, EndsRsp, OpenReq, OpenRsp;
    if n == 0 {
      NoFlags(log, h);
    } else {
      var m, e := Watch(log[..n - 1]), log[n - 1];
      ExclusionUpTo(log, n - 1, h, x);
      FlagsTell(log, n - 1, h);
      OneMore(log, n);
      OneAdds(m, e, h, x, RequestExclusion);
      OneAdds(m, e, h, x, ResponseExclusion);
    }
  }

  // A response of x on h is reported exactly when its BEGIN_RESP comes while an earlier BEGIN_RESP there, of whatever
  // transaction, has not been ended by END_RESP or by TLM_COMPLETED of the initiator (7.2.4 c)
  lemma ResponseExclusionIsExact(log: seq<Event>, h: Hop, x: Trans)
    ensures Violation(ResponseExclusion, h, x) in Watch(log).errors
            <==> exists k: nat, j: nat :: k < |log| && IsResp(log[k], h) && log[k].trans == x && OpenRsp(log, k, h, j)
  {
    assert log[..|log|] == log;
    ExclusionUpTo(log, |log|, h, x);
  }

  // A request of x on h is reported exactly when its BEGIN_REQ comes while the last BEGIN_REQ there has not been ended
  // by END_REQ, by TLM_COMPLETED of the target or by BEGIN_RESP of its own transaction (7.2.4 b)
  lemma RequestExclusionIsExact(log: seq<Event>, h: Hop, x: Trans)
    ensures Violation(RequestExclusion, h, x) in Watch(log).errors
            <==> exists k: nat, j: nat :: k < |log| && IsReq(log[k], h) && log[k].trans == x && OpenReq(log, k, h, j)
  {
    assert log[..|log|] == log;
    ExclusionUpTo(log, |log|, h, x);
  }
}
