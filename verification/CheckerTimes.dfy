/** The checkers report a decreasing time exactly when the annotated times of some lifetime do decrease. */
module CheckerTimes {
  import opened Tlm
  import opened ProtocolChecker
  import opened PhaseGrammar

  // A call or return with a phase: it carries a time
  predicate Stamped(e: Event, h: Hop, x: Trans) {
    e.hop == h && e.trans == x && (e.signal.Forward? || e.signal.Backward? || e.signal.BwUpdated?)
  }

  predicate Begins(e: Event, h: Hop, x: Trans) {
    e.hop == h && e.trans == x && e.signal == Forward(BeginReq)
  }

  // No lifetime of x on h starts after event j and up to event k
  ghost predicate SameLife(log: seq<Event>, j: nat, k: nat, h: Hop, x: Trans) {
    forall p :: j < p <= k && p < |log| ==> !Begins(log[p], h, x)
  }

  // Within one lifetime the time never decreases (7.2.5 e)
  ghost predicate Rising(log: seq<Event>, h: Hop, x: Trans) {
    forall j: nat, k: nat :: j < k < |log| && Stamped(log[j], h, x) && Stamped(log[k], h, x)
        && SameLife(log, j, k, h, x)
      ==> log[j].when <= log[k].when
  }

  // ---------- One event ----------

  lemma RequireAdds(m: Monitor, ok: bool, rule: Rule, g: Hop, y: Trans, v: Violation)
    ensures v in Require(m, ok, rule, g, y).errors <==> v in m.errors || (!ok && v == Violation(rule, g, y))
  {
    assert m.errors + [] == m.errors;
  }

  lemma BackAdds(m: Monitor, g: Hop, y: Trans, v: Violation)
    ensures var m', hops := BackOnPath(m, g, y), PathOf(m, y).hops;
            && m'.req == m.req && m'.rsp == m.rsp
            && (v in m'.errors <==>
                v in m.errors || (v == Violation(PathNotReversed, g, y) && hops != [] && hops[|hops| - 1] != g))
  {
    var hops := PathOf(m, y).hops;
    if hops != [] { RequireAdds(m, hops[|hops| - 1] == g, PathNotReversed, g, y, v); }
  }

  lemma BeginReqAdds(m: Monitor, g: Hop, y: Trans, v: Violation)
    ensures var m' := FwSequence(m, g, y, BeginReq);
            && m'.req == m.req[g := y] && m'.rsp == m.rsp
            && (v in m'.errors <==>
                || v in m.errors
                || (v == Violation(StillResponding, g, y) && PathOf(m, y).responding)
                || (v == Violation(OutOfSequence, g, y) && Between(Ph(m, g, y)))
                || (v == Violation(RequestExclusion, g, y) && g in m.req))
  {
    var m0 := StartPath(m, g, y);
    var m1 := Require(m0, !Between(Ph(m, g, y)), OutOfSequence, g, y);
    RequireAdds(m, !PathOf(m, y).responding, StillResponding, g, y, v);
    RequireAdds(m0, !Between(Ph(m, g, y)), OutOfSequence, g, y, v);
    RequireAdds(m1, g !in m1.req, RequestExclusion, g, y, v);
  }

  lemma BeginRespAdds(m: Monitor, g: Hop, y: Trans, v: Violation)
    ensures var m', hops := BeginsResp(m, g, y), PathOf(m, y).hops;
            && m'.req == (if g in m.req && m.req[g] == y then m.req - {g} else m.req) && m'.rsp == m.rsp[g := y]
            && (v in m'.errors <==>
                || v in m.errors
                || (v == Violation(OutOfSequence, g, y) && Ph(m, g, y) != BeginReq && Ph(m, g, y) != EndReq)
                || (v == Violation(ResponseExclusion, g, y) && g in m.rsp)
                || (v == Violation(PathNotReversed, g, y) && hops != [] && hops[|hops| - 1] != g))
  {
    hide BackOnPath, Require, Ph;
    var ok := Ph(m, g, y) == BeginReq || Ph(m, g, y) == EndReq;
    var m1 := Require(m, ok, OutOfSequence, g, y);
    var m2 := if g in m1.req && m1.req[g] == y then m1.(req := m1.req - {g}) else m1;
    var m3 := Require(m2, g !in m2.rsp, ResponseExclusion, g, y);
    RequireAdds(m, ok, OutOfSequence, g, y, v);
    RequireKeeps(m, ok, OutOfSequence, g, y);
    RequireAdds(m2, g !in m2.rsp, ResponseExclusion, g, y, v);
    RequireKeeps(m2, g !in m2.rsp, ResponseExclusion, g, y);
    BackAdds(m3.(rsp := m3.rsp[g := y]), g, y, v);
  }

  lemma BackOnPathTimes(m: Monitor, g: Hop, y: Trans, h: Hop, x: Trans)
    ensures var m', v := BackOnPath(m, g, y), Violation(DecreasingTime, h, x);
            m'.time == m.time && (v in m'.errors <==> v in m.errors)
  {
    BackAdds(m, g, y, Violation(DecreasingTime, h, x));
  }

  lemma BeginReqTimes(m: Monitor, g: Hop, y: Trans, h: Hop, x: Trans)
    ensures var m', v := FwSequence(m, g, y, BeginReq), Violation(DecreasingTime, h, x);
            m'.time == m.time[Key(g, y) := 0] && (v in m'.errors <==> v in m.errors)
  {
    BeginReqAdds(m, g, y, Violation(DecreasingTime, h, x));
  }

  lemma BeginRespTimes(m: Monitor, g: Hop, y: Trans, h: Hop, x: Trans)
    ensures var m', v := BwSequence(m, g, y, BeginResp), Violation(DecreasingTime, h, x);
            m'.time == m.time && (v in m'.errors <==> v in m.errors)
  {
    BeginRespAdds(m, g, y, Violation(DecreasingTime, h, x));
  }

  lemma CheckedTimes(m: Monitor, e: Event, h: Hop, x: Trans)
    requires e.signal.Forward? || e.signal.Backward? || e.signal.BwUpdated?
    ensures var m', v := Checked(m, e), Violation(DecreasingTime, h, x);
            && (v in m'.errors <==> v in m.errors)
            && Time(m', h, x) == if Begins(e, h, x) then 0 else Time(m, h, x)
  {
    hide BackOnPath, Require, StartPath;
    var v, phase, g, y := Violation(DecreasingTime, h, x), e.signal.phase, e.hop, e.trans;
    if e.signal == Forward(BeginReq) {
      BeginReqTimes(m, g, y, h, x);
    } else if e.signal == Backward(BeginResp) {
      BeginRespTimes(m, g, y, h, x);
    } else {
      RequireAdds(m, Ph(m, g, y) == BeginResp, OutOfSequence, g, y, v);
      RequireAdds(m, Ph(m, g, y) == BeginReq, OutOfSequence, g, y, v);
      RequireAdds(m, false, OutOfSequence, g, y, v);
      RequireAdds(m, false, WrongPath, g, y, v);
      RequireKeeps(m, Ph(m, g, y) == BeginResp, OutOfSequence, g, y);
      RequireKeeps(m, Ph(m, g, y) == BeginReq, OutOfSequence, g, y);
      RequireKeeps(m, false, OutOfSequence, g, y);
      RequireKeeps(m, false, WrongPath, g, y);
    }
  }

  lemma OneTime(m: Monitor, e: Event, h: Hop, x: Trans)
    ensures var m', v := Observe(m, e), Violation(DecreasingTime, h, x);
            && Time(m', h, x) == (if Stamped(e, h, x) then e.when else Time(m, h, x))
            && (v in m'.errors <==>
                v in m.errors || (Stamped(e, h, x) && !Begins(e, h, x) && e.when < Time(m, h, x)))
  {
    hide BackOnPath, FwSequence, BwSequence, BwReturnSequence;
    if e.signal.FwCompleted? {
      BackOnPathTimes(m, e.hop, e.trans, h, x);
    } else if !e.signal.BwCompleted? {
      CheckedTimes(m, e, h, x);
      var m2 := SetPhase(Checked(m, e), e.hop, e.trans, e.signal.phase);
      assert Observe(m, e) == CheckTime(m2, e.hop, e.trans, e.when);
      RequireAdds(m2, Time(m2, e.hop, e.trans) <= e.when, DecreasingTime, e.hop, e.trans,
          Violation(DecreasingTime, h, x));
    }
  }

  // ---------- A whole run ----------

  // The last stamped event of x on h, if any, carries the time that the checker remembers
  lemma {:induction false} Remembers(log: seq<Event>, h: Hop, x: Trans) returns (last: int)
    ensures -1 <= last < |log| && forall p :: last < p < |log| ==> !Stamped(log[p], h, x)
    ensures last >= 0 ==> Stamped(log[last], h, x)
    ensures Time(Watch(log), h, x) == if last < 0 then 0 else log[last].when
  {
    if |log| == 0 {
      last := -1;
    } else {
      var n := |log| - 1;
      last := Remembers(log[..n], h, x);
      OneTime(Watch(log[..n]), log[n], h, x);
      if Stamped(log[n], h, x) { last := n; }
    }
  }

  lemma RisingOnce(log: seq<Event>, last: int, h: Hop, x: Trans)
    requires |log| > 0 && -1 <= last < |log| - 1 && forall p :: last < p < |log| - 1 ==> !Stamped(log[p], h, x)
    requires last >= 0 ==> Stamped(log[last], h, x)
    requires Rising(log[..|log| - 1], h, x)
    ensures var n := |log| - 1;
            Rising(log, h, x) <==>
            !(last >= 0 && Stamped(log[n], h, x) && !Begins(log[n], h, x) && log[n].when < log[last].when)
  {
    var n := |log| - 1;
    var init := log[..n];
    if last >= 0 && Stamped(log[n], h, x) && !Begins(log[n], h, x) { assert SameLife(log, last, n, h, x); }
    if !(last >= 0 && Stamped(log[n], h, x) && !Begins(log[n], h, x) && log[n].when < log[last].when) {
      forall j: nat, k: nat | j < k < |log| && Stamped(log[j], h, x) && Stamped(log[k], h, x)
          && SameLife(log, j, k, h, x)
        ensures log[j].when <= log[k].when
      {
        if k < n {
          assert init[j] == log[j] && init[k] == log[k] && SameLife(init, j, k, h, x);
        } else if j < last {
          assert init[j] == log[j] && init[last] == log[last] && SameLife(init, j, last, h, x);
        }
      }
    }
  }

  lemma RisingPrefix(log: seq<Event>, h: Hop, x: Trans)
    requires |log| > 0 && Rising(log, h, x)
    ensures Rising(log[..|log| - 1], h, x)
  {
    var init := log[..|log| - 1];
    forall j: nat, k: nat | j < k < |init| && Stamped(init[j], h, x) && Stamped(init[k], h, x)
        && SameLife(init, j, k, h, x)
      ensures init[j].when <= init[k].when
    {
      assert forall p :: j < p <= k ==> init[p] == log[p];
      assert log[j] == init[j] && log[k] == init[k] && SameLife(log, j, k, h, x);
    }
  }

  lemma TimeIsExactOnce(log: seq<Event>, h: Hop, x: Trans)
    requires |log| > 0
    requires Violation(DecreasingTime, h, x) !in Watch(log[..|log| - 1]).errors <==> Rising(log[..|log| - 1], h, x)
    ensures Violation(DecreasingTime, h, x) !in Watch(log).errors <==> Rising(log, h, x)
  {
    hide Observe, Watch, Rising, Begins, Stamped;
    var n := |log| - 1;
    var last := Remembers(log[..n], h, x);
    WatchOne(log[..n], log[n]);
    assert log[..n] + [log[n]] == log;
    OneTime(Watch(log[..n]), log[n], h, x);
    if Rising(log, h, x) { RisingPrefix(log, h, x); }
    if Rising(log[..n], h, x) { RisingOnce(log, last, h, x); }
  }

  // No report of a decreasing time for x on h if and only if the times of x there rise within every lifetime
  lemma {:induction false} TimeIsExact(log: seq<Event>, h: Hop, x: Trans)
    ensures Violation(DecreasingTime, h, x) !in Watch(log).errors <==> Rising(log, h, x)
  {
    if |log| > 0 {
      var n := |log| - 1;
      TimeIsExact(log[..n], h, x);
      TimeIsExactOnce(log, h, x);
    }
  }
}
