/**
 When the checkers report a transaction that is still responding (6.5) or a response off its path (7.2.5 m-n), told by
 the requests and responses that have passed and not by the table of paths.
 */
module CheckerPaths {
  import opened Tlm
  import opened ProtocolChecker
  import opened PhaseGrammar
  import opened CheckerTimes
  import opened CheckerExclusion

  // BEGIN_REQ takes a transaction over one hop more, BEGIN_RESP or a completion of the request over one hop less
  predicate Enters(e: Event, x: Trans) { e.trans == x && e.signal == Forward(BeginReq) }

  predicate Leaves(e: Event, x: Trans) {
    e.trans == x && (e.signal == Backward(BeginResp) || e.signal == FwCompleted(true))
  }

  // How many hops x has passed after n events
  function Level(log: seq<Event>, n: nat, x: Trans): nat
    requires n <= |log|
  {
    if n == 0 then 0
    else
      var l := Level(log, n - 1, x);
      if Enters(log[n - 1], x) then l + 1 else if Leaves(log[n - 1], x) && l > 0 then l - 1 else l
  }

  // BEGIN_REQ j of x has not been answered on its hop after n events
  ghost predicate Unanswered(log: seq<Event>, n: nat, x: Trans, j: nat) {
    j < n <= |log| && Enters(log[j], x) && forall q :: j < q <= n ==> Level(log, q, x) >= Level(log, j + 1, x)
  }

  // And it is the last such
  ghost predicate Innermost(log: seq<Event>, n: nat, x: Trans, j: nat) {
    Unanswered(log, n, x, j) && Level(log, j + 1, x) == Level(log, n, x)
  }

  // The last response of x has not got all the way back
  ghost predicate Returning(log: seq<Event>, n: nat, x: Trans) {
    exists k :: 0 <= k < n <= |log| && Leaves(log[k], x) && Level(log, k + 1, x) > 0
                && forall q :: k < q < n ==> !Leaves(log[q], x)
  }

  // ---------- One event ----------

  // The path of x, and the reports about it on h, after an event
  ghost predicate Follows(m: Monitor, m': Monitor, e: Event, h: Hop, x: Trans) {
    var p, p' := PathOf(m, x), PathOf(m', x);
    && p' == (if Enters(e, x) then p.(hops := p.hops + [e.hop])
              else if Leaves(e, x) && p.hops != [] then Path(p.hops[..|p.hops| - 1], |p.hops| > 1)
              else p)
    && (Violation(StillResponding, h, x) in m'.errors <==>
        || Violation(StillResponding, h, x) in m.errors
        || (Enters(e, x) && e.hop == h && p.responding))
    && (Violation(PathNotReversed, h, x) in m'.errors <==>
        || Violation(PathNotReversed, h, x) in m.errors
        || (Leaves(e, x) && e.hop == h && p.hops != [] && p.hops[|p.hops| - 1] != h))
  }

  lemma EnterFollows(m: Monitor, e: Event, h: Hop, x: Trans)
    requires e.signal == Forward(BeginReq)
    ensures Follows(m, FwSequence(m, e.hop, e.trans, BeginReq), e, h, x)
  {
    BeginReqAdds(m, e.hop, e.trans, Violation(StillResponding, h, x));
    BeginReqAdds(m, e.hop, e.trans, Violation(PathNotReversed, h, x));
  }

  lemma BackPath(m: Monitor, g: Hop, y: Trans, x: Trans)
    ensures var p, p' := PathOf(m, x), PathOf(BackOnPath(m, g, y), x);
            p' == if y == x && p.hops != [] then Path(p.hops[..|p.hops| - 1], |p.hops| > 1) else p
  {
  }

  lemma SamePath(m: Monitor, m1: Monitor, g: Hop, y: Trans, x: Trans)
    requires m1.paths == m.paths
    ensures PathOf(BackOnPath(m1, g, y), x) == PathOf(BackOnPath(m, g, y), x)
  {
    hide BackOnPath;
    BackPath(m, g, y, x);
    BackPath(m1, g, y, x);
  }

  lemma RespPath(m: Monitor, g: Hop, y: Trans, x: Trans)
    ensures PathOf(BeginsResp(m, g, y), x) == PathOf(BackOnPath(m, g, y), x)
  {
    hide Require, Ph, BackOnPath, PathOf;
    var ok := Ph(m, g, y) == BeginReq || Ph(m, g, y) == EndReq;
    var m1 := Require(m, ok, OutOfSequence, g, y);
    var m2 := if g in m1.req && m1.req[g] == y then m1.(req := m1.req - {g}) else m1;
    var m3 := Require(m2, g !in m2.rsp, ResponseExclusion, g, y);
    RequireKeeps(m, ok, OutOfSequence, g, y);
    RequireKeeps(m2, g !in m2.rsp, ResponseExclusion, g, y);
    SamePath(m, m3.(rsp := m3.rsp[g := y]), g, y, x);
  }

  lemma LeaveFollows(m: Monitor, e: Event, h: Hop, x: Trans)
    requires e.signal == Backward(BeginResp)
    ensures Follows(m, BeginsResp(m, e.hop, e.trans), e, h, x)
  {
    hide BeginsResp, BackOnPath;
    BeginRespAdds(m, e.hop, e.trans, Violation(StillResponding, h, x));
    BeginRespAdds(m, e.hop, e.trans, Violation(PathNotReversed, h, x));
    RespPath(m, e.hop, e.trans, x);
    BackPath(m, e.hop, e.trans, x);
  }

  lemma RequireFollows(m: Monitor, m': Monitor, ok: bool, rule: Rule, e: Event, h: Hop, x: Trans)
    requires !Enters(e, x) && !Leaves(e, x) && !rule.StillResponding? && !rule.PathNotReversed?
    requires m'.paths == m.paths && m'.errors == Require(m, ok, rule, e.hop, e.trans).errors
    ensures Follows(m, m', e, h, x)
  {
    hide Require;
    RequireAdds(m, ok, rule, e.hop, e.trans, Violation(StillResponding, h, x));
    RequireAdds(m, ok, rule, e.hop, e.trans, Violation(PathNotReversed, h, x));
  }

  // An event that is no step of a path is checked once at most
  lemma OtherForward(m: Monitor, e: Event, h: Hop, x: Trans)
    requires e.signal.Forward? && e.signal != Forward(BeginReq)
    ensures Follows(m, FwSequence(m, e.hop, e.trans, e.signal.phase), e, h, x)
  {
    hide Follows, Ph;
    var m', g, y := FwSequence(m, e.hop, e.trans, e.signal.phase), e.hop, e.trans;
    assert m.errors + [] == m.errors;
    match e.signal.phase
    case EndResp => RequireFollows(m, m', Ph(m, g, y) == BeginResp, OutOfSequence, e, h, x);
    case Internal => RequireFollows(m, m', true, WrongPath, e, h, x);
    case _ => RequireFollows(m, m', false, WrongPath, e, h, x);
  }

  lemma OtherBackward(m: Monitor, e: Event, h: Hop, x: Trans)
    requires e.signal.Backward? && e.signal != Backward(BeginResp)
    ensures Follows(m, BwSequence(m, e.hop, e.trans, e.signal.phase), e, h, x)
  {
    hide Follows, Ph;
    var m', g, y := BwSequence(m, e.hop, e.trans, e.signal.phase), e.hop, e.trans;
    assert m.errors + [] == m.errors;
    match e.signal.phase
    case EndReq => RequireFollows(m, m', Ph(m, g, y) == BeginReq, OutOfSequence, e, h, x);
    case Internal => RequireFollows(m, m', true, WrongPath, e, h, x);
    case _ => RequireFollows(m, m', false, WrongPath, e, h, x);
  }

  lemma OtherReturn(m: Monitor, e: Event, h: Hop, x: Trans)
    requires e.signal.BwUpdated?
    ensures Follows(m, BwReturnSequence(m, e.hop, e.trans, e.signal.phase), e, h, x)
  {
    hide Follows, Ph;
    var m', g, y := BwReturnSequence(m, e.hop, e.trans, e.signal.phase), e.hop, e.trans;
    assert m.errors + [] == m.errors;
    match e.signal.phase
    case EndResp => RequireFollows(m, m', Ph(m, g, y) == BeginResp, OutOfSequence, e, h, x);
    case BeginReq => RequireFollows(m, m', false, OutOfSequence, e, h, x);
    case Internal => RequireFollows(m, m', true, WrongPath, e, h, x);
    case _ => RequireFollows(m, m', false, WrongPath, e, h, x);
  }

  lemma CheckedFollows(m: Monitor, e: Event, h: Hop, x: Trans)
    requires PhaseChecked(e)
    ensures Follows(m, Checked(m, e), e, h, x)
  {
    hide Follows, BeginsResp, FwSequence, BwReturnSequence;
    match e.signal
    case Forward(phase) => if phase.BeginReq? { EnterFollows(m, e, h, x); } else { OtherForward(m, e, h, x); }
    case Backward(phase) => if phase.BeginResp? { LeaveFollows(m, e, h, x); } else { OtherBackward(m, e, h, x); }
    case BwUpdated(_) => OtherReturn(m, e, h, x);
  }

  lemma RestFollows(m: Monitor, m1: Monitor, e: Event, h: Hop, x: Trans)
    requires PhaseChecked(e) && Follows(m, m1, e, h, x)
    ensures Follows(m, CheckTime(SetPhase(m1, e.hop, e.trans, e.signal.phase), e.hop, e.trans, e.when), e, h, x)
  {
  }

  lemma OneFollows(m: Monitor, e: Event, h: Hop, x: Trans)
    ensures Follows(m, Observe(m, e), e, h, x)
  {
    hide BackOnPath, Checked, CheckTime, SetPhase;
    if PhaseChecked(e) {
      CheckedFollows(m, e, h, x);
      ObserveIs(m, e);
      RestFollows(m, Checked(m, e), e, h, x);
    } else if e.signal.FwCompleted? {
      BackAdds(m, e.hop, e.trans, Violation(StillResponding, h, x));
      BackAdds(m, e.hop, e.trans, Violation(PathNotReversed, h, x));
      BackPath(m, e.hop, e.trans, x);
    }
  }

  // ---------- Whole runs ----------

  // BEGIN_REQ j of x is unanswered and has taken x over its d-th hop
  ghost predicate AtDepth(log: seq<Event>, n: nat, x: Trans, j: nat, d: nat) {
    Unanswered(log, n, x, j) && Level(log, j + 1, x) == d
  }

  ghost predicate Reached(log: seq<Event>, n: nat, x: Trans, d: nat) {
    exists j: nat :: AtDepth(log, n, x, j, d)
  }

  // The path holds the hops of the unanswered requests, the outermost first
  ghost predicate Tells(log: seq<Event>, n: nat, x: Trans, p: Path)
    requires n <= |log|
  {
    && |p.hops| == Level(log, n, x)
    && (forall j: nat, d: nat :: AtDepth(log, n, x, j, d) ==> 0 < d <= |p.hops| && p.hops[d - 1] == log[j].hop)
    && (forall d: nat :: 0 < d <= |p.hops| ==> Reached(log, n, x, d))
    && (p.responding <==> Returning(log, n, x)) && (p.responding ==> p.hops != [])
  }

  // One event more
  lemma UnansweredOnce(log: seq<Event>, n: nat, x: Trans, j: nat, d: nat)
    requires 0 < n <= |log|
    ensures AtDepth(log, n, x, j, d) <==>
            if j == n - 1 then Enters(log[j], x) && Level(log, n, x) == d
            else AtDepth(log, n - 1, x, j, d) && Level(log, n, x) >= d
  {
    hide Level;
  }

  lemma DepthInside(log: seq<Event>, n: nat, x: Trans)
    requires n <= |log|
    ensures forall j: nat, d: nat :: AtDepth(log, n, x, j, d) ==> j < n
  {
  }

  lemma LevelOnce(log: seq<Event>, n: nat, x: Trans)
    requires 0 < n <= |log|
    ensures var l := Level(log, n - 1, x);
            Level(log, n, x) == if Enters(log[n - 1], x) then l + 1
                                else if Leaves(log[n - 1], x) && l > 0 then l - 1 else l
  {
  }

  lemma ReturningOnce(log: seq<Event>, n: nat, x: Trans)
    requires 0 < n <= |log|
    ensures Returning(log, n, x) <==>
            if Leaves(log[n - 1], x) then Level(log, n, x) > 0 else Returning(log, n - 1, x)
  {
    hide Level, Enters, Leaves;
    if Leaves(log[n - 1], x) && Level(log, n, x) > 0 { assert Leaves(log[n - 1], x) && Level(log, n - 1 + 1, x) > 0; }
  }

  lemma TellsOnce(log: seq<Event>, n: nat, x: Trans, p: Path, p': Path)
    requires 0 < n <= |log| && Tells(log, n - 1, x, p)
    requires var e := log[n - 1];
             p' == if Enters(e, x) then p.(hops := p.hops + [e.hop])
                   else if Leaves(e, x) && p.hops != [] then Path(p.hops[..|p.hops| - 1], |p.hops| > 1)
                   else p
    ensures Tells(log, n, x, p')
  {
    hide Level, AtDepth, Returning, Enters, Leaves;
    LevelOnce(log, n, x);
    ReturningOnce(log, n, x);
    Exclusive(log[n - 1], x);
    DepthInside(log, n, x);
    DepthInside(log, n - 1, x);
    assert |p'.hops| == Level(log, n, x);
    forall j: nat, d: nat | AtDepth(log, n, x, j, d) ensures 0 < d <= |p'.hops| && p'.hops[d - 1] == log[j].hop {
      UnansweredOnce(log, n, x, j, d);
    }
    forall d: nat | 0 < d <= |p'.hops| ensures Reached(log, n, x, d) {
      if d <= |p.hops| {
        assert Reached(log, n - 1, x, d);
        var j: nat :| AtDepth(log, n - 1, x, j, d);
        UnansweredOnce(log, n, x, j, d);
      } else {
        UnansweredOnce(log, n, x, n - 1, d);
      }
    }
  }

  lemma Exclusive(e: Event, x: Trans)
    ensures !(Enters(e, x) && Leaves(e, x))
  {
  }

  lemma {:induction false} PathTells(log: seq<Event>, n: nat, x: Trans)
    requires n <= |log|
    ensures Tells(log, n, x, PathOf(Watch(log[..n]), x))
  {
    hide Observe, Watch;
    if n == 0 {
      NoPath(log, x);
    } else {
      PathTells(log, n - 1, x);
      OneMore(log, n);
      OneFollows(Watch(log[..n - 1]), log[n - 1], log[n - 1].hop, x);
      TellsOnce(log, n, x, PathOf(Watch(log[..n - 1]), x), PathOf(Watch(log[..n]), x));
    }
  }

  lemma NoPath(log: seq<Event>, x: Trans)
    ensures PathOf(Watch(log[..0]), x) == Path([], false)
  {
  }

  lemma {:induction false} PathsUpTo(log: seq<Event>, n: nat, h: Hop, x: Trans)
    requires n <= |log|
    ensures Violation(StillResponding, h, x) in Watch(log[..n]).errors
            <==> exists k :: 0 <= k < n && Enters(log[k], x) && log[k].hop == h && Returning(log, k, x)
    ensures Violation(PathNotReversed, h, x) in Watch(log[..n]).errors
            <==> exists k: nat, j: nat :: k < n && Leaves(log[k], x) && log[k].hop == h && Innermost(log, k, x, j)
                                          && log[j].hop != h
  {
    hide Observe, Watch, Enters, Leaves, Returning, Innermost;
    if n == 0 {
      NoFlags(log, h);
    } else {
      var m, e := Watch(log[..n - 1]), log[n - 1];
      PathsUpTo(log, n - 1, h, x);
      OneMore(log, n);
      OneFollows(m, e, h, x);
      PathTells(log, n - 1, x);
      LastHop(log, n - 1, x, PathOf(m, x));
    }
  }

  lemma InnermostIs(log: seq<Event>, n: nat, x: Trans, j: nat)
    requires n <= |log|
    ensures Innermost(log, n, x, j) <==> AtDepth(log, n, x, j, Level(log, n, x))
    ensures Innermost(log, n, x, j) ==> j < n
  {
  }

  // The last hop of the path is that of the innermost request
  lemma LastHop(log: seq<Event>, n: nat, x: Trans, p: Path)
    requires n <= |log| && Tells(log, n, x, p)
    ensures p.responding <==> Returning(log, n, x)
    ensures p.hops != [] <==> exists j: nat :: Innermost(log, n, x, j)
    ensures forall j: nat :: Innermost(log, n, x, j) ==> j < n && p.hops != [] && p.hops[|p.hops| - 1] == log[j].hop
  {
    hide Level, Unanswered, Returning;
    forall j: nat
      ensures Innermost(log, n, x, j) ==> j < n && AtDepth(log, n, x, j, |p.hops|)
    {
      InnermostIs(log, n, x, j);
    }
    if p.hops != [] {
      assert Reached(log, n, x, |p.hops|);
      var j: nat :| AtDepth(log, n, x, j, |p.hops|);
      assert Innermost(log, n, x, j);
    }
  }

  // A BEGIN_REQ of x on h is reported as still responding exactly when the last response of x has not got all the way
  // back (6.5)
  lemma StillRespondingIsExact(log: seq<Event>, h: Hop, x: Trans)
    ensures Violation(StillResponding, h, x) in Watch(log).errors
            <==> exists k :: 0 <= k < |log| && Enters(log[k], x) && log[k].hop == h && Returning(log, k, x)
  {
    assert log[..|log|] == log;
    PathsUpTo(log, |log|, h, x);
  }

  // A response of x on h is reported to be off its path exactly when the innermost unanswered BEGIN_REQ of x was on
  // another hop (7.2.5 m-n)
  lemma PathNotReversedIsExact(log: seq<Event>, h: Hop, x: Trans)
    ensures Violation(PathNotReversed, h, x) in Watch(log).errors
            <==> exists k: nat, j: nat :: k < |log| && Leaves(log[k], x) && log[k].hop == h && Innermost(log, k, x, j)
                                          && log[j].hop != h
  {
    assert log[..|log|] == log;
    PathsUpTo(log, |log|, h, x);
  }
}
