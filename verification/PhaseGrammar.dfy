/**
 The phase sequences that the base protocol allows, stated without a state machine, and the proof that the
 checkers report a sequence or direction error exactly when some transaction departs from them.
 */
module PhaseGrammar {
  import opened Tlm
  import opened ProtocolChecker

  // What one signal means for the phase sequence of its transaction on its hop
  datatype Sign = Req | ReqEnd | Resp | RespEnd | Done | Ignored | Wrong

  function SignOf(signal: Signal): Sign {
    match signal
    case Forward(phase) =>
      if phase.BeginReq? then Req else if phase.EndResp? then RespEnd else if phase.Internal? then Ignored else Wrong
    case Backward(phase) =>
      if phase.EndReq? then ReqEnd else if phase.BeginResp? then Resp else if phase.Internal? then Ignored else Wrong
    case BwUpdated(phase) =>
      if phase.EndResp? then RespEnd else if phase.Internal? then Ignored else Wrong
    case FwCompleted(_) => Done
    case BwCompleted => Done
  }

  // The signs of transaction x on hop h, without the extended phases
  function Trace(log: seq<Event>, h: Hop, x: Trans): seq<Sign> {
    if |log| == 0 then [] else
    var e := log[|log| - 1];
    Trace(log[..|log| - 1], h, x) +
    if e.hop == h && e.trans == x && SignOf(e.signal) != Ignored then [SignOf(e.signal)] else []
  }

  const LONG: seq<Sign> := [Req, ReqEnd, Resp, RespEnd]
  const SHORT: seq<Sign> := [Req, Resp, RespEnd]

  // A lifetime as far as it has come: END_REQ may be left out
  predicate Begun(p: seq<Sign>) { p <= LONG || p <= SHORT }

  // A whole lifetime: complete, or cut short by TLM_COMPLETED
  predicate Lifetime(l: seq<Sign>) {
    l == LONG || l == SHORT || (|l| > 0 && l[|l| - 1] == Done && Begun(l[..|l| - 1]))
  }

  function Flat(lives: seq<seq<Sign>>): seq<Sign> {
    if |lives| == 0 then [] else Flat(lives[..|lives| - 1]) + lives[|lives| - 1]
  }

  // trace is a number of lifetimes one after the other, then a lifetime as far as it has come
  ghost predicate Splits(trace: seq<Sign>, lives: seq<seq<Sign>>, open: seq<Sign>) {
    trace == Flat(lives) + open && (forall k :: 0 <= k < |lives| ==> Lifetime(lives[k])) && Begun(open)
  }

  ghost predicate Conforms(trace: seq<Sign>) {
    exists lives, open :: Splits(trace, lives, open)
  }

  // ---------- The checker's view of a trace ----------

  // The sign is in sequence when the last phase was ph
  predicate InSequence(ph: Phase, g: Sign) {
    match g
    case Req => !Between(ph)
    case ReqEnd => ph == BeginReq
    case Resp => ph == BeginReq || ph == EndReq
    case RespEnd => ph == BeginResp
    case Done => true
    case Ignored => true
    case Wrong => false
  }

  function PhaseAfter(ph: Phase, g: Sign): Phase {
    match g
    case Req => BeginReq
    case ReqEnd => EndReq
    case Resp => BeginResp
    case RespEnd => EndResp
    case Done => Uninit
    case Ignored => ph
    case Wrong => ph
  }

  // The phase after a lifetime as far as it has come
  function PhaseOf(open: seq<Sign>): Phase {
    if |open| == 0 then Uninit else PhaseAfter(Uninit, open[|open| - 1])
  }

  // The phase tells how far the current lifetime has come
  predicate Tells(ph: Phase, open: seq<Sign>) {
    ph == PhaseOf(open) || (open == [] && ph == EndResp)
  }

  // One sign more, in sequence
  lemma Extends(trace: seq<Sign>, lives: seq<seq<Sign>>, open: seq<Sign>, ph: Phase, g: Sign)
    requires Splits(trace, lives, open) && Tells(ph, open) && InSequence(ph, g) && g != Ignored
    ensures Conforms(trace + [g])
  {
    if g == Done {
      assert (open + [g])[..|open|] == open;
      Closes(trace + [g], lives, open + [g], []);
    } else if open == LONG || open == SHORT {
      assert [g] == LONG[..1];
      Closes(trace + [g], lives, open, [g]);
    } else {
      ExtendsOpen(open, ph, g);
      assert (Flat(lives) + open) + [g] == Flat(lives) + (open + [g]);
      assert Splits(trace + [g], lives, open + [g]);
    }
  }

  lemma Closes(trace: seq<Sign>, lives: seq<seq<Sign>>, life: seq<Sign>, open: seq<Sign>)
    requires (forall k :: 0 <= k < |lives| ==> Lifetime(lives[k])) && Lifetime(life) && Begun(open)
    requires trace == Flat(lives) + life + open
    ensures Conforms(trace)
  {
    FlatPush(lives, life);
    assert Splits(trace, lives + [life], open);
  }

  lemma ExtendsOpen(open: seq<Sign>, ph: Phase, g: Sign)
    requires Begun(open) && open != LONG && open != SHORT
    requires Tells(ph, open) && InSequence(ph, g) && g != Ignored && g != Done
    ensures Begun(open + [g])
  {
    if |open| == 0 {
      assert open + [g] == LONG[..1];
    } else if |open| == 1 {
      assert open + [g] == if g == ReqEnd then LONG[..2] else SHORT[..2];
    } else if |open| == 2 {
      assert open + [g] == if open == LONG[..2] then LONG[..3] else SHORT;
    } else {
      assert open == LONG[..3] && open + [g] == LONG;
    }
  }

  lemma FlatPush(lives: seq<seq<Sign>>, life: seq<Sign>)
    ensures Flat(lives + [life]) == Flat(lives) + life
  {
    assert (lives + [life])[..|lives|] == lives;
  }

  // One sign less
  lemma Shortens(trace: seq<Sign>, g: Sign, lives: seq<seq<Sign>>, open: seq<Sign>)
      returns (lives': seq<seq<Sign>>, open': seq<Sign>)
    requires Splits(trace + [g], lives, open)
    ensures Splits(trace, lives', open')
    ensures g == Done || (open' == [] && g == Req) || (open' + [g] <= LONG) || (open' + [g] <= SHORT)
  {
    if |open| > 0 {
      lives', open' := lives, open[..|open| - 1];
      assert trace == (trace + [g])[..|trace|];
      assert open' + [g] == open;
    } else {
      var n := |lives|;
      assert n == 0 ==> Flat(lives) + open == [];
      var life := lives[n - 1];
      lives', open' := lives[..n - 1], life[..|life| - 1];
      assert trace == (trace + [g])[..|trace|];
      assert trace == Flat(lives') + open';
      assert open' + [g] == life;
    }
  }

  // The checkers' verdict on a trace: every sign in sequence
  predicate Accepted(trace: seq<Sign>) {
    |trace| == 0 || (Accepted(trace[..|trace| - 1]) && InSequence(PhaseAt(trace[..|trace| - 1]), trace[|trace| - 1]))
  }

  function PhaseAt(trace: seq<Sign>): Phase {
    if |trace| == 0 then Uninit else PhaseAfter(PhaseAt(trace[..|trace| - 1]), trace[|trace| - 1])
  }

  // However a trace is split, the phase tells where in the current lifetime it is
  lemma {:induction false} PhaseTells(trace: seq<Sign>, lives: seq<seq<Sign>>, open: seq<Sign>)
    requires Splits(trace, lives, open)
    ensures Tells(PhaseAt(trace), open)
  {
    if |trace| == 0 {
      assert open == [];
    } else if |open| > 0 {
      assert trace[|trace| - 1] == open[|open| - 1];
      assert open[|open| - 1] != Wrong && open[|open| - 1] != Ignored;
    } else {
      var life := lives[|lives| - 1];
      assert trace[|trace| - 1] == life[|life| - 1];
    }
  }

  lemma {:induction false} AcceptedIsConforming(trace: seq<Sign>)
    requires forall k :: 0 <= k < |trace| ==> trace[k] != Ignored
    ensures Accepted(trace) <==> Conforms(trace)
  {
    if |trace| == 0 {
      assert Splits(trace, [], []);
    } else {
      var init, g := trace[..|trace| - 1], trace[|trace| - 1];
      assert init + [g] == trace;
      AcceptedIsConforming(init);
      if Accepted(trace) {
        var lives, open :| Splits(init, lives, open);
        PhaseTells(init, lives, open);
        Extends(init, lives, open, PhaseAt(init), g);
      }
      if Conforms(trace) {
        var lives, open :| Splits(trace, lives, open);
        var lives', open' := Shortens(init, g, lives, open);
        PhaseTells(init, lives', open');
        FollowsOpen(open', PhaseAt(init), g);
      }
    }
  }

  lemma FollowsOpen(open: seq<Sign>, ph: Phase, g: Sign)
    requires Begun(open) && Tells(ph, open)
    requires g == Done || (open == [] && g == Req) || (open + [g] <= LONG) || (open + [g] <= SHORT)
    ensures InSequence(ph, g)
  {
    if open + [g] <= LONG {
      assert g == LONG[|open|] && open == LONG[..|open|];
    } else if open + [g] <= SHORT {
      assert g == SHORT[|open|] && open == SHORT[..|open|];
    }
  }

  // ---------- The checkers accept exactly what the grammar allows ----------

  predicate Reported(m: Monitor, h: Hop, x: Trans) {
    Violation(OutOfSequence, h, x) in m.errors || Violation(WrongPath, h, x) in m.errors
  }

  // What a check adds to the reports about x on h
  lemma RequireReports(m: Monitor, ok: bool, rule: Rule, g: Hop, y: Trans, h: Hop, x: Trans)
    ensures Reported(Require(m, ok, rule, g, y), h, x)
            <==> Reported(m, h, x) || (!ok && g == h && y == x && (rule.OutOfSequence? || rule.WrongPath?))
  {
    var v := Violation(rule, g, y);
    assert forall w :: w in m.errors + [v] <==> w in m.errors || w == v;
    assert m.errors + [] == m.errors;
  }

  lemma BackOnPathReports(m: Monitor, g: Hop, y: Trans, h: Hop, x: Trans)
    ensures Reported(BackOnPath(m, g, y), h, x) <==> Reported(m, h, x)
  {
    var p := PathOf(m, y);
    if |p.hops| > 0 { RequireReports(m, p.hops[|p.hops| - 1] == g, PathNotReversed, g, y, h, x); }
  }

  // The sequence checks that a call or return with a phase meets
  function Checked(m: Monitor, e: Event): Monitor {
    match e.signal
    case Forward(phase) => FwSequence(m, e.hop, e.trans, phase)
    case Backward(phase) => BwSequence(m, e.hop, e.trans, phase)
    case BwUpdated(phase) => BwReturnSequence(m, e.hop, e.trans, phase)
    case _ => m
  }

  lemma SequenceReports(m: Monitor, e: Event, h: Hop, x: Trans)
    requires e.signal.Forward? || e.signal.Backward? || e.signal.BwUpdated?
    ensures var m' := Checked(m, e);
            && m'.ph == m.ph
            && (Reported(m', h, x) <==>
                Reported(m, h, x) || (e.hop == h && e.trans == x && !InSequence(Ph(m, h, x), SignOf(e.signal))))
  {
    match e.signal
    case Forward(phase) => FwReports(m, e.hop, e.trans, phase, h, x);
    case Backward(phase) => BwReports(m, e.hop, e.trans, phase, h, x);
    case BwUpdated(phase) => BwReturnReports(m, e.hop, e.trans, phase, h, x);
    case _ =>
  }

  lemma FwBeginReports(m: Monitor, g: Hop, y: Trans, h: Hop, x: Trans)
    ensures var m' := FwSequence(m, g, y, BeginReq);
            && m'.ph == m.ph
            && (Reported(m', h, x) <==> Reported(m, h, x) || (g == h && y == x && Between(Ph(m, h, x))))
  {
    hide Require, Reported;
    var fresh' := !PathOf(m, y).responding;
    var m1 := StartPath(m, g, y);
    var m2 := Require(m1, !Between(Ph(m, g, y)), OutOfSequence, g, y);
    var m3 := Require(m2, g !in m2.req, RequestExclusion, g, y);
    RequireReports(m, fresh', StillResponding, g, y, h, x);
    RequireKeeps(m, fresh', StillResponding, g, y);
    SameReports(Require(m, fresh', StillResponding, g, y), m1, h, x);
    RequireReports(m1, !Between(Ph(m, g, y)), OutOfSequence, g, y, h, x);
    RequireKeeps(m1, !Between(Ph(m, g, y)), OutOfSequence, g, y);
    RequireReports(m2, g !in m2.req, RequestExclusion, g, y, h, x);
    RequireKeeps(m2, g !in m2.req, RequestExclusion, g, y);
    SameReports(m3, FwSequence(m, g, y, BeginReq), h, x);
  }

  lemma FwReports(m: Monitor, g: Hop, y: Trans, phase: Phase, h: Hop, x: Trans)
    ensures var m' := FwSequence(m, g, y, phase);
            && m'.ph == m.ph
            && (Reported(m', h, x) <==>
                Reported(m, h, x) || (g == h && y == x && !InSequence(Ph(m, h, x), SignOf(Forward(phase)))))
  {
    if phase.BeginReq? {
      FwBeginReports(m, g, y, h, x);
    } else if phase.EndResp? {
      RequireReports(m, Ph(m, g, y) == BeginResp, OutOfSequence, g, y, h, x);
    } else {
      RequireReports(m, false, WrongPath, g, y, h, x);
    }
  }

  lemma RequireKeeps(m: Monitor, ok: bool, rule: Rule, h: Hop, x: Trans)
    ensures var m' := Require(m, ok, rule, h, x);
            m'.ph == m.ph && m'.req == m.req && m'.rsp == m.rsp && m'.time == m.time && m'.paths == m.paths
  {
  }

  lemma EndReqReports(m: Monitor, g: Hop, y: Trans, h: Hop, x: Trans)
    ensures var m' := BwSequence(m, g, y, EndReq);
            && m'.ph == m.ph
            && (Reported(m', h, x) <==> Reported(Require(m, Ph(m, g, y) == BeginReq, OutOfSequence, g, y), h, x))
  {
  }

  lemma SameReports(m: Monitor, m': Monitor, h: Hop, x: Trans)
    requires m'.errors == m.errors
    ensures Reported(m', h, x) <==> Reported(m, h, x)
  {
  }

  lemma RestReports(m: Monitor, g: Hop, y: Trans, h: Hop, x: Trans)
    ensures var m1 := Require(m, g !in m.rsp, ResponseExclusion, g, y);
            var m' := BackOnPath(m1.(rsp := m1.rsp[g := y]), g, y);
            m'.ph == m.ph && (Reported(m', h, x) <==> Reported(m, h, x))
  {
    hide BackOnPath, Require, Reported;
    var m1 := Require(m, g !in m.rsp, ResponseExclusion, g, y);
    var m2 := m1.(rsp := m1.rsp[g := y]);
    RequireReports(m, g !in m.rsp, ResponseExclusion, g, y, h, x);
    RequireKeeps(m, g !in m.rsp, ResponseExclusion, g, y);
    SameReports(m1, m2, h, x);
    BackOnPathReports(m2, g, y, h, x);
    BackOnPathKeeps(m2, g, y);
  }

  lemma BeginRespReports(m: Monitor, g: Hop, y: Trans, h: Hop, x: Trans)
    ensures var m' := BwSequence(m, g, y, BeginResp);
            && m'.ph == m.ph
            && (Reported(m', h, x) <==>
                Reported(m, h, x) || (g == h && y == x && !InSequence(Ph(m, h, x), Resp)))
  {
    hide BackOnPath, Require, Reported;
    var ok := Ph(m, g, y) == BeginReq || Ph(m, g, y) == EndReq;
    var m1 := Require(m, ok, OutOfSequence, g, y);
    var m2 := if g in m1.req && m1.req[g] == y then m1.(req := m1.req - {g}) else m1;
    RequireReports(m, ok, OutOfSequence, g, y, h, x);
    RequireKeeps(m, ok, OutOfSequence, g, y);
    SameReports(m1, m2, h, x);
    RestReports(m2, g, y, h, x);
  }

  lemma BackOnPathKeeps(m: Monitor, g: Hop, y: Trans)
    ensures BackOnPath(m, g, y).ph == m.ph
  {
  }

  lemma BwReports(m: Monitor, g: Hop, y: Trans, phase: Phase, h: Hop, x: Trans)
    ensures var m' := BwSequence(m, g, y, phase);
            && m'.ph == m.ph
            && (Reported(m', h, x) <==>
                Reported(m, h, x) || (g == h && y == x && !InSequence(Ph(m, h, x), SignOf(Backward(phase)))))
  {
    hide BackOnPath, Require, Reported;
    if phase.EndReq? {
      RequireReports(m, Ph(m, g, y) == BeginReq, OutOfSequence, g, y, h, x);
      EndReqReports(m, g, y, h, x);
    } else if phase.BeginResp? {
      BeginRespReports(m, g, y, h, x);
    } else if phase.Internal? {
    } else {
      RequireReports(m, false, WrongPath, g, y, h, x);
      RequireKeeps(m, false, WrongPath, g, y);
    }
  }

  lemma BwReturnReports(m: Monitor, g: Hop, y: Trans, phase: Phase, h: Hop, x: Trans)
    ensures var m' := BwReturnSequence(m, g, y, phase);
            && m'.ph == m.ph
            && (Reported(m', h, x) <==>
                Reported(m, h, x) || (g == h && y == x && !InSequence(Ph(m, h, x), SignOf(BwUpdated(phase)))))
  {
    RequireReports(m, Ph(m, g, y) == BeginResp, OutOfSequence, g, y, h, x);
    RequireReports(m, false, OutOfSequence, g, y, h, x);
    RequireReports(m, false, WrongPath, g, y, h, x);
  }

  lemma OneCompletion(m: Monitor, e: Event, h: Hop, x: Trans)
    requires e.signal.FwCompleted? || e.signal.BwCompleted?
    ensures var m', g := Observe(m, e), SignOf(e.signal);
            if e.hop == h && e.trans == x
            then (Reported(m', h, x) <==> Reported(m, h, x) || !InSequence(Ph(m, h, x), g))
                 && (g != Wrong ==> Ph(m', h, x) == PhaseAfter(Ph(m, h, x), g))
            else (Reported(m', h, x) <==> Reported(m, h, x)) && Ph(m', h, x) == Ph(m, h, x)
  {
    hide Reported, BackOnPath;
    if e.signal.FwCompleted? {
      BackOnPathReports(m, e.hop, e.trans, h, x);
      BackOnPathKeeps(m, e.hop, e.trans);
      var m1 := if e.signal.ofRequest then BackOnPath(m, e.hop, e.trans) else m;
      SameReports(m1, Observe(m, e), h, x);
    } else {
      SameReports(m, Observe(m, e), h, x);
    }
  }

  lemma OnePhase(m: Monitor, e: Event, h: Hop, x: Trans)
    requires e.signal.Forward? || e.signal.Backward? || e.signal.BwUpdated?
    ensures var m', g := Observe(m, e), SignOf(e.signal);
            if e.hop == h && e.trans == x
            then (Reported(m', h, x) <==> Reported(m, h, x) || !InSequence(Ph(m, h, x), g))
                 && (g != Wrong ==> Ph(m', h, x) == PhaseAfter(Ph(m, h, x), g))
            else (Reported(m', h, x) <==> Reported(m, h, x)) && Ph(m', h, x) == Ph(m, h, x)
  {
    hide Reported, Checked, Observe;
    SequenceReports(m, e, h, x);
    TimeReports(m, e, h, x);
  }

  lemma OneSignal(m: Monitor, e: Event, h: Hop, x: Trans)
    ensures var m', g := Observe(m, e), SignOf(e.signal);
            if e.hop == h && e.trans == x
            then (Reported(m', h, x) <==> Reported(m, h, x) || !InSequence(Ph(m, h, x), g))
                 && (g != Wrong ==> Ph(m', h, x) == PhaseAfter(Ph(m, h, x), g))
            else (Reported(m', h, x) <==> Reported(m, h, x)) && Ph(m', h, x) == Ph(m, h, x)
  {
    if e.signal.FwCompleted? || e.signal.BwCompleted? {
      OneCompletion(m, e, h, x);
    } else {
      OnePhase(m, e, h, x);
    }
  }

  // The last part of a call or return with a phase
  lemma TimeReports(m: Monitor, e: Event, h: Hop, x: Trans)
    requires e.signal.Forward? || e.signal.Backward? || e.signal.BwUpdated?
    ensures var m1 := Checked(m, e);
            var m2 := SetPhase(m1, e.hop, e.trans, e.signal.phase);
            && (Reported(Observe(m, e), h, x) <==> Reported(m1, h, x))
            && Observe(m, e).ph == m2.ph
  {
    var m1 := Checked(m, e);
    var m2 := SetPhase(m1, e.hop, e.trans, e.signal.phase);
    assert Observe(m, e) == CheckTime(m2, e.hop, e.trans, e.when);
    RequireReports(m2, Time(m2, e.hop, e.trans) <= e.when, DecreasingTime, e.hop, e.trans, h, x);
  }

  lemma TraceOnce(log: seq<Event>, h: Hop, x: Trans)
    requires |log| > 0
    ensures var e, trace := log[|log| - 1], Trace(log, h, x);
            var init, g := Trace(log[..|log| - 1], h, x), SignOf(log[|log| - 1].signal);
            if e.hop == h && e.trans == x && g != Ignored
            then trace != [] && trace[..|trace| - 1] == init && trace[|trace| - 1] == g
            else trace == init
  {
  }

  lemma VerdictOnce(log: seq<Event>, h: Hop, x: Trans)
    requires |log| > 0
    requires var init := log[..|log| - 1];
             && (!Reported(Watch(init), h, x) <==> Accepted(Trace(init, h, x)))
             && (Accepted(Trace(init, h, x)) ==> Ph(Watch(init), h, x) == PhaseAt(Trace(init, h, x)))
    ensures !Reported(Watch(log), h, x) <==> Accepted(Trace(log, h, x))
    ensures Accepted(Trace(log, h, x)) ==> Ph(Watch(log), h, x) == PhaseAt(Trace(log, h, x))
  {
    hide Observe, Watch, Reported, Ph, Trace, SignOf;
    var init, e := log[..|log| - 1], log[|log| - 1];
    TraceOnce(log, h, x);
    OneSignal(Watch(init), e, h, x);
    assert init + [e] == log;
    WatchOne(init, e);
  }

  lemma {:induction false} Verdict(log: seq<Event>, h: Hop, x: Trans)
    ensures !Reported(Watch(log), h, x) <==> Accepted(Trace(log, h, x))
    ensures Accepted(Trace(log, h, x)) ==> Ph(Watch(log), h, x) == PhaseAt(Trace(log, h, x))
  {
    if |log| > 0 {
      Verdict(log[..|log| - 1], h, x);
      VerdictOnce(log, h, x);
    }
  }

  lemma {:induction false} NoneIgnored(log: seq<Event>, h: Hop, x: Trans)
    ensures forall k :: 0 <= k < |Trace(log, h, x)| ==> Trace(log, h, x)[k] != Ignored
  {
    if |log| > 0 { NoneIgnored(log[..|log| - 1], h, x); }
  }

  // No sequence or direction error for x on h if and only if the trace of x there conforms
  lemma CheckerIsExact(log: seq<Event>, h: Hop, x: Trans)
    ensures !Reported(Watch(log), h, x) <==> Conforms(Trace(log, h, x))
  {
    NoneIgnored(log, h, x);
    Verdict(log, h, x);
    AcceptedIsConforming(Trace(log, h, x));
  }

  // ---------- Responses after END_REQ ----------

  // Every response comes right after BEGIN_REQ and END_REQ
  predicate Explicit(trace: seq<Sign>) {
    forall k :: 0 <= k < |trace| && trace[k] == Resp ==> k >= 2 && trace[k - 1] == ReqEnd && trace[k - 2] == Req
  }

  predicate IsResp(e: Event, h: Hop) { e.hop == h && e.signal == Backward(BeginResp) }

  // Whenever BEGIN_RESP is seen of x on h, END_REQ was the phase that went before
  ghost predicate EndedFor(log: seq<Event>, h: Hop, x: Trans) {
    forall k :: 0 <= k < |log| && IsResp(log[k], h) && log[k].trans == x ==> Ph(Watch(log[..k]), h, x) == EndReq
  }

  lemma EndsWith(trace: seq<Sign>)
    requires Accepted(trace) && (forall k :: 0 <= k < |trace| ==> trace[k] != Ignored)
    ensures PhaseAt(trace) == BeginReq ==> |trace| >= 1 && trace[|trace| - 1] == Req
    ensures PhaseAt(trace) == EndReq ==> |trace| >= 2 && trace[|trace| - 1] == ReqEnd && trace[|trace| - 2] == Req
  {
    if |trace| > 0 {
      var init := trace[..|trace| - 1];
      assert Accepted(init) && InSequence(PhaseAt(init), trace[|trace| - 1]);
      if |init| > 0 { assert init[|init| - 1] == trace[|trace| - 2] && init[|init| - 1] != Ignored; }
    }
  }

  lemma EndedIsExplicit(log: seq<Event>, h: Hop, x: Trans)
    requires Conforms(Trace(log, h, x)) && EndedFor(log, h, x)
    ensures Explicit(Trace(log, h, x))
  {
    NoneIgnored(log, h, x);
    AcceptedIsConforming(Trace(log, h, x));
    AcceptedIsExplicit(log, h, x);
  }

  lemma NoTrace(h: Hop, x: Trans)
    ensures Trace([], h, x) == []
  {
  }

  lemma EndedBefore(log: seq<Event>, h: Hop, x: Trans)
    requires |log| > 0 && EndedFor(log, h, x)
    ensures var init, e := log[..|log| - 1], log[|log| - 1];
            && EndedFor(init, h, x)
            && (e.hop == h && e.trans == x && SignOf(e.signal) == Resp ==> Ph(Watch(init), h, x) == EndReq)
  {
    hide Watch, Ph;
    var init, e := log[..|log| - 1], log[|log| - 1];
    assert SignOf(e.signal) == Resp ==> e.signal == Backward(BeginResp);
    forall k | 0 <= k < |init| && IsResp(init[k], h) && init[k].trans == x
      ensures Ph(Watch(init[..k]), h, x) == EndReq
    {
      assert init[..k] == log[..k] && init[k] == log[k];
    }
  }

  lemma {:induction false} AcceptedIsExplicit(log: seq<Event>, h: Hop, x: Trans)
    requires Accepted(Trace(log, h, x)) && EndedFor(log, h, x)
    ensures Explicit(Trace(log, h, x))
  {
    hide Watch, Trace, Ph, EndedFor, SignOf;
    if |log| == 0 {
      NoTrace(h, x);
    } else {
      var init, e := log[..|log| - 1], log[|log| - 1];
      var trace, before := Trace(log, h, x), Trace(init, h, x);
      TraceOnce(log, h, x);
      EndedBefore(log, h, x);
      AcceptedIsExplicit(init, h, x);
      if trace != before {
        NoneIgnored(init, h, x);
        Verdict(init, h, x);
        EndsWith(before);
        assert forall k :: 0 <= k < |before| ==> before[k] == trace[k];
      }
    }
  }
}
