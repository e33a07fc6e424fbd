/** What a checker on every hop of the transport system knows, told by the stages. */
module AtWatch {
  import opened Tlm
  import opened ProtocolChecker
  import opened AtSystem
  import opened AtInvariant
  import opened AtFrame

  function Mon(s: System): Monitor { Watch(s.log) }

  // ---------- Phases and paths ----------

  // The last phase that the checker on the initiator's hop has seen of a transaction at a stage
  predicate InitPhase(g: Stage, ph: Phase) {
    match g
    case ReqReady => ph == BeginReq
    case ReqQueued => ph == BeginReq
    case PeqReq => ph == BeginReq
    case ReqTaken => ph == BeginReq
    case ReqDeferred => ph == BeginReq
    case Executing => ph == BeginReq || ph == EndReq
    case Executed => ph == BeginReq || ph == EndReq
    case RspDeferred => ph == BeginReq || ph == EndReq
    case RspReady => ph == BeginReq || ph == EndReq
    case RspQueued => ph == BeginReq || ph == EndReq
    case RspSent => ph == BeginResp
    case _ => !Between(ph)
  }

  // And on the target's hop
  predicate TargPhase(g: Stage, k: TargetKind, ph: Phase) {
    match g
    case PeqReq => ph == BeginReq
    case ReqTaken => ph == BeginReq
    case ReqDeferred => ph == BeginReq
    case Executing => ph == if Implicit(k) then BeginReq else EndReq
    case Executed => ph == if Implicit(k) then BeginReq else EndReq
    case RspDeferred => ph == if Implicit(k) then BeginReq else EndReq
    case RspReady => if k.TypeE? then !Between(ph) else ph == BeginResp
    case RspQueued => if k.TypeE? then !Between(ph) else ph == BeginResp
    case RspSent => if k.TypeE? then !Between(ph) else ph == BeginResp
    case Closing => if k.TypeE? then !Between(ph) else ph == BeginResp
    case _ => !Between(ph)
  }

  function PathAt(g: Stage, i: nat, t: nat): Path {
    match g
    case ReqReady => Path([InitHop(i)], false)
    case ReqQueued => Path([InitHop(i)], false)
    case PeqReq => Path([InitHop(i), TargHop(t)], false)
    case ReqTaken => Path([InitHop(i), TargHop(t)], false)
    case ReqDeferred => Path([InitHop(i), TargHop(t)], false)
    case Executing => Path([InitHop(i), TargHop(t)], false)
    case Executed => Path([InitHop(i), TargHop(t)], false)
    case RspDeferred => Path([InitHop(i), TargHop(t)], false)
    case RspReady => Path([InitHop(i)], true)
    case RspQueued => Path([InitHop(i)], true)
    case _ => Path([], false)
  }

  ghost predicate PhasesOk(s: System, m: Monitor, x: Trans) {
    var k := Tok(s, x);
    && InitPhase(k.stage, Ph(m, InitHop(k.init), x))
    && TargPhase(k.stage, KindOf(s, x), Ph(m, TargHop(k.target), x))
    && (forall h :: h != InitHop(k.init) && h != TargHop(k.target) ==> !Between(Ph(m, h, x)))
    && PathOf(m, x) == PathAt(k.stage, k.init, k.target)
  }

  // ---------- Times ----------

  // Nothing has been seen of x later than `when`, on the initiator's hop and on the target's
  predicate Early(m: Monitor, i: nat, x: Trans, when: nat) { Time(m, InitHop(i), x) <= when }

  predicate Late(m: Monitor, i: nat, t: nat, x: Trans, when: nat) {
    Time(m, InitHop(i), x) <= when && Time(m, TargHop(t), x) <= when
  }

  // What comes next comes no earlier
  ghost predicate TimesOk(s: System, m: Monitor, x: Trans) {
    var i, t := Tok(s, x).init, Tok(s, x).target;
    match StageOf(s, x)
    case ReqQueued => forall e :: e in Queue(s.ic.reqQueue, t) && e.trans == x ==> Early(m, i, x, e.time)
    case PeqReq => Lane(Targ(s, t).peq, x) != [] ==> Late(m, i, t, x, Lane(Targ(s, t).peq, x)[0].time)
    case ReqTaken => Late(m, i, t, x, s.now)
    case ReqDeferred => Late(m, i, t, x, s.now)
    case Executing => Lane(Targ(s, t).peq, x) != [] ==> Late(m, i, t, x, Lane(Targ(s, t).peq, x)[0].time)
    case RspDeferred => Late(m, i, t, x, if Targ(s, t).kind.TypeD? then Targ(s, t).nextTime else s.now)
    case RspQueued => forall e :: e in Queue(s.ic.rspQueue, i) && e.trans == x ==> Late(m, i, t, x, e.time)
    case RspSent => var lane := Lane(Init(s, i).peq, x); lane != [] ==> Late(m, i, t, x, lane[|lane| - 1].time)
    case _ => true
  }

  // ---------- Exclusion ----------

  // The flags of the checkers
  ghost predicate Flagged(m: Monitor) {
    && (forall h :: h in m.req ==> Ph(m, h, m.req[h]) == BeginReq)
    && (forall h :: h in m.rsp ==> Ph(m, h, m.rsp[h]) == BeginResp)
  }

  // Some target that sends END_REQ may respond at the very time of its END_REQ
  predicate Hasty(s: System) {
    s.minLatency == 0 && exists t :: t in s.targets && Pipelined(s.targets[t].kind)
  }

  // Initiators that keep the request exclusion rule: type A, and type B unless targets are hasty
  predicate Strict(s: System, i: nat) { Init(s, i).kind.InitA? || !Hasty(s) }

  // The modules are of the same kinds, and as quick
  ghost predicate SameConfig(s: System, s': System) {
    Hasty(s') == Hasty(s) && forall j :: Init(s', j).kind == Init(s, j).kind
  }

  lemma HastyStays(s: System, s': System, x: Trans, t: nat, i: nat)
    requires Local(s, s', x, t, i)
    ensures Hasty(s') == Hasty(s)
  {
    forall u ensures Targ(s', u).kind == Targ(s, u).kind { KindsStay(s, s', x, t, i, u); }
    forall u | u in s.targets ensures s'.targets[u].kind == s.targets[u].kind {
      assert Targ(s', u).kind == Targ(s, u).kind;
    }
  }

  // The request of x has not been ended
  predicate Asking(g: Stage) { g in {ReqReady, ReqQueued, PeqReq, ReqTaken, ReqDeferred} }

  // Stages of x while its END_REQ may be on its way to the initiator
  predicate Answered(g: Stage, k: InitKind) {
    g.Executing? || (k.InitA? && g in {Executed, RspDeferred, RspReady, RspQueued, RspSent})
  }

  predicate EndReqDue(lane: seq<Timed>) { lane != [] && lane[0].phase == EndReq }

  ghost predicate StrictLane(s: System, m: Monitor, i: nat, x: Trans) {
    var n := Init(s, i);
    var lane := Lane(n.peq, x);
    && (Tok(s, x).init == i && Asking(StageOf(s, x)) ==> n.reqInProgress == Some(x))
    && (EndReqDue(lane) ==>
          && n.reqInProgress == Some(x) && InitHop(i) !in m.req
          && (forall k :: 0 < k < |lane| ==> lane[k].phase == BeginResp)
          && Tok(s, x).init == i && Answered(StageOf(s, x), n.kind)
          && (n.kind.InitB? ==> AfterEndReq(s, x, lane[0].time)))
  }

  // The target will respond later than that
  predicate AfterEndReq(s: System, x: Trans, time: nat) {
    var lane := Lane(Targ(s, Tok(s, x).target).peq, x);
    lane != [] ==> time < lane[0].time
  }

  ghost predicate StrictOk(s: System, m: Monitor, i: nat) {
    Strict(s, i) ==>
      && (InitHop(i) in m.req ==> Init(s, i).reqInProgress == Some(m.req[InitHop(i)]))
      && (forall x :: StrictLane(s, m, i, x))
  }

  // ---------- Everything ----------

  predicate Excused(s: System, v: Violation) {
    v.rule == RequestExclusion && v.hop.InitHop? && !Strict(s, v.hop.i)
  }

  ghost predicate AllExcused(s: System, m: Monitor) {
    forall v :: v in m.errors ==> Excused(s, v)
  }

  ghost predicate Watched(s: System, m: Monitor) {
    && (forall x :: PhasesOk(s, m, x))
    && (forall x :: TimesOk(s, m, x))
    && Flagged(m)
    && (forall i :: StrictOk(s, m, i))
    && AllExcused(s, m)
  }

  // ---------- Single events ----------

  // Nothing but what hop h knows of x, and the path of x, has changed
  ghost predicate SeesAt(m: Monitor, m': Monitor, h: Hop, x: Trans) {
    && (forall g, y :: g != h || y != x ==> Ph(m', g, y) == Ph(m, g, y) && Time(m', g, y) == Time(m, g, y))
    && (forall y :: y != x ==> PathOf(m', y) == PathOf(m, y))
  }

  // Flags elsewhere are as before
  ghost predicate FlagsAt(m: Monitor, m': Monitor, h: Hop) {
    && (forall g :: g != h ==> (g in m'.req <==> g in m.req) && (g in m.req ==> m'.req[g] == m.req[g]))
    && (forall g :: g != h ==> (g in m'.rsp <==> g in m.rsp) && (g in m.rsp ==> m'.rsp[g] == m.rsp[g]))
  }

  // The last part of a call or return with a phase
  lemma SeesPhase(m: Monitor, h: Hop, x: Trans, phase: Phase, when: nat)
    requires Time(m, h, x) <= when && phase != Internal
    ensures var m' := CheckTime(SetPhase(m, h, x, phase), h, x, when);
            && SeesAt(m, m', h, x) && Ph(m', h, x) == phase && Time(m', h, x) == when
            && m'.paths == m.paths && m'.req == m.req && m'.rsp == m.rsp && m'.errors == m.errors
  {
  }

  lemma ReqSequence(m: Monitor, h: Hop, x: Trans)
    requires !Between(Ph(m, h, x)) && !PathOf(m, x).responding
    ensures var m' := FwSequence(m, h, x, BeginReq);
            && m'.ph == m.ph && m'.time == m.time[Key(h, x) := 0] && m'.rsp == m.rsp && m'.req == m.req[h := x]
            && m'.paths == m.paths[x := Path(PathOf(m, x).hops + [h], false)]
            && m'.errors == m.errors + if h in m.req then [Violation(RequestExclusion, h, x)] else []
  {
    assert m.errors + [] + [] == m.errors;
  }

  lemma SeesBeginReq(m: Monitor, h: Hop, x: Trans, when: nat)
    requires Flagged(m)
    requires !Between(Ph(m, h, x)) && !PathOf(m, x).responding
    ensures var m' := Observe(m, Event(h, x, Forward(BeginReq), when));
            && SeesAt(m, m', h, x) && FlagsAt(m, m', h) && Flagged(m') && Ph(m', h, x) == BeginReq
            && Time(m', h, x) == when
            && PathOf(m', x) == Path(PathOf(m, x).hops + [h], false)
            && m'.req == m.req[h := x] && m'.rsp == m.rsp
            && m'.errors == m.errors + if h in m.req then [Violation(RequestExclusion, h, x)] else []
  {
    hide CheckTime, SetPhase, FwSequence;
    var m1 := FwSequence(m, h, x, BeginReq);
    ReqSequence(m, h, x);
    SeesPhase(m1, h, x, BeginReq, when);
  }

  lemma SeesEndReq(m: Monitor, h: Hop, x: Trans, when: nat)
    requires Flagged(m)
    requires Ph(m, h, x) == BeginReq && Time(m, h, x) <= when
    ensures var m' := Observe(m, Event(h, x, Backward(EndReq), when));
            && SeesAt(m, m', h, x) && FlagsAt(m, m', h) && Flagged(m') && Ph(m', h, x) == EndReq
            && Time(m', h, x) == when
            && PathOf(m', x) == PathOf(m, x) && m'.req == m.req - {h} && m'.rsp == m.rsp && m'.errors == m.errors
  {
  }

  lemma BackIs(m: Monitor, h: Hop, x: Trans)
    requires var hops := PathOf(m, x).hops; hops != [] && hops[|hops| - 1] == h
    ensures var hops := PathOf(m, x).hops;
            BackOnPath(m, h, x) == m.(paths := m.paths[x := Path(hops[..|hops| - 1], |hops| > 1)])
  {
    assert m.errors + [] == m.errors;
  }

  lemma SamePaths(m: Monitor, m': Monitor, x: Trans)
    requires m'.paths == m.paths
    ensures PathOf(m', x) == PathOf(m, x)
  {
  }

  lemma RespSequence(m: Monitor, h: Hop, x: Trans)
    requires (Ph(m, h, x) == BeginReq || Ph(m, h, x) == EndReq) && h !in m.rsp
    requires var hops := PathOf(m, x).hops; hops != [] && hops[|hops| - 1] == h
    ensures var m', hops := BwSequence(m, h, x, BeginResp), PathOf(m, x).hops;
            && m'.ph == m.ph && m'.time == m.time && m'.errors == m.errors
            && m'.paths == m.paths[x := Path(hops[..|hops| - 1], |hops| > 1)]
            && m'.req == (if h in m.req && m.req[h] == x then m.req - {h} else m.req) && m'.rsp == m.rsp[h := x]
  {
    hide BackOnPath, PathOf;
    assert m.errors + [] == m.errors;
    var m1 := if h in m.req && m.req[h] == x then m.(req := m.req - {h}) else m;
    var m2 := m1.(rsp := m.rsp[h := x]);
    SamePaths(m, m2, x);
    BackIs(m2, h, x);
  }

  lemma SeesBeginResp(m: Monitor, h: Hop, x: Trans, when: nat)
    requires Flagged(m)
    requires (Ph(m, h, x) == BeginReq || Ph(m, h, x) == EndReq) && Time(m, h, x) <= when && h !in m.rsp
    requires var hops := PathOf(m, x).hops; hops != [] && hops[|hops| - 1] == h
    ensures var m', hops := Observe(m, Event(h, x, Backward(BeginResp), when)), PathOf(m, x).hops;
            && SeesAt(m, m', h, x) && FlagsAt(m, m', h) && Flagged(m') && Ph(m', h, x) == BeginResp
            && Time(m', h, x) == when
            && PathOf(m', x) == Path(hops[..|hops| - 1], |hops| > 1)
            && m'.req == (if h in m.req && m.req[h] == x then m.req - {h} else m.req)
            && m'.rsp == m.rsp[h := x] && m'.errors == m.errors
  {
    hide CheckTime, SetPhase, BwSequence;
    var m1 := BwSequence(m, h, x, BeginResp);
    RespSequence(m, h, x);
    SeesPhase(m1, h, x, BeginResp, when);
  }

  lemma SeesEndResp(m: Monitor, h: Hop, x: Trans, when: nat)
    requires Flagged(m)
    requires Ph(m, h, x) == BeginResp && Time(m, h, x) <= when
    ensures var m' := Observe(m, Event(h, x, Forward(EndResp), when));
            && SeesAt(m, m', h, x) && FlagsAt(m, m', h) && Flagged(m') && Ph(m', h, x) == EndResp
            && Time(m', h, x) == when
            && PathOf(m', x) == PathOf(m, x) && m'.req == m.req && m'.rsp == m.rsp - {h} && m'.errors == m.errors
  {
  }

  lemma SeesFwCompleted(m: Monitor, h: Hop, x: Trans, when: nat)
    requires Flagged(m) && Ph(m, h, x) != BeginResp
    requires var hops := PathOf(m, x).hops; hops != [] && hops[|hops| - 1] == h
    ensures var m', hops := Observe(m, Event(h, x, FwCompleted(true), when)), PathOf(m, x).hops;
            && SeesAt(m, m', h, x) && FlagsAt(m, m', h) && Flagged(m') && Ph(m', h, x) == Uninit
            && Time(m', h, x) == Time(m, h, x)
            && PathOf(m', x) == Path(hops[..|hops| - 1], |hops| > 1)
            && m'.req == m.req - {h} && m'.rsp == m.rsp && m'.errors == m.errors
  {
  }

  lemma SeesFwCompletedEnd(m: Monitor, h: Hop, x: Trans, when: nat)
    requires Flagged(m) && Ph(m, h, x) != BeginResp
    ensures var m' := Observe(m, Event(h, x, FwCompleted(false), when));
            && SeesAt(m, m', h, x) && FlagsAt(m, m', h) && Flagged(m') && Ph(m', h, x) == Uninit
            && Time(m', h, x) == Time(m, h, x)
            && PathOf(m', x) == PathOf(m, x) && m'.req == m.req - {h} && m'.rsp == m.rsp && m'.errors == m.errors
  {
  }

  lemma SeesBwCompleted(m: Monitor, h: Hop, x: Trans, when: nat)
    requires Flagged(m) && Ph(m, h, x) != BeginReq
    ensures var m' := Observe(m, Event(h, x, BwCompleted, when));
            && SeesAt(m, m', h, x) && FlagsAt(m, m', h) && Flagged(m') && Ph(m', h, x) == Uninit
            && Time(m', h, x) == Time(m, h, x)
            && PathOf(m', x) == PathOf(m, x) && m'.req == m.req && m'.rsp == m.rsp - {h} && m'.errors == m.errors
  {
  }

  // ---------- Moves of one transaction ----------

  // The hops of x, and what is known of x, may have changed
  ghost predicate SeesOnly(m: Monitor, m': Monitor, x: Trans, t: nat, i: nat) {
    && (forall h, y :: y != x ==> Ph(m', h, y) == Ph(m, h, y) && Time(m', h, y) == Time(m, h, y))
    && (forall y :: y != x ==> PathOf(m', y) == PathOf(m, y))
    && (forall h :: h != InitHop(i) && h != TargHop(t) ==>
         (h in m'.req <==> h in m.req) && (h in m.req ==> m'.req[h] == m.req[h]))
  }

  // What is planned for other transactions is as before
  ghost predicate Beside(s: System, s': System, x: Trans, t: nat, i: nat) {
    && (forall y :: y != x ==> Lane(Targ(s', t).peq, y) == Lane(Targ(s, t).peq, y))
    && (forall y :: y != x ==> Lane(Init(s', i).peq, y) == Lane(Init(s, i).peq, y))
    && (Targ(s', t).nextTime == Targ(s, t).nextTime || forall y :: y != x ==> !At(s, t, y, RspDeferred))
    && (forall e :: e in Queue(s'.ic.reqQueue, t) && e.trans != x ==> e in Queue(s.ic.reqQueue, t))
    && (forall e :: e in Queue(s'.ic.rspQueue, i) && e.trans != x ==> e in Queue(s.ic.rspQueue, i))
  }

  lemma PhasesStay(s: System, s': System, m: Monitor, m': Monitor, x: Trans, t: nat, i: nat, y: Trans)
    requires Local(s, s', x, t, i) && SeesOnly(m, m', x, t, i) && y != x && PhasesOk(s, m, y)
    ensures PhasesOk(s', m', y)
  {
    assert SameTrans(s, s', y);
    KindsStay(s, s', x, t, i, Tok(s, y).target);
  }

  lemma LanesStay(s: System, s': System, x: Trans, t: nat, i: nat, y: Trans, u: nat, j: nat)
    requires Local(s, s', x, t, i) && Beside(s, s', x, t, i) && y != x
    ensures Lane(Targ(s', u).peq, y) == Lane(Targ(s, u).peq, y) && Lane(Init(s', j).peq, y) == Lane(Init(s, j).peq, y)
    ensures forall e :: e in Queue(s'.ic.reqQueue, u) && e.trans == y ==> e in Queue(s.ic.reqQueue, u)
    ensures forall e :: e in Queue(s'.ic.rspQueue, j) && e.trans == y ==> e in Queue(s.ic.rspQueue, j)
    ensures u != t ==> Targ(s', u).nextTime == Targ(s, u).nextTime
  {
    if u != t { assert SameReqSide(s, s', u) && SameTarget(s, s', u); }
    if j != i { assert SameRspSide(s, s', j) && Init(s', j) == Init(s, j); }
  }

  lemma OtherTimes(s: System, s': System, m: Monitor, m': Monitor, x: Trans, t: nat, i: nat, y: Trans)
    requires SeesOnly(m, m', x, t, i) && Beside(s, s', x, t, i) && y != x
    ensures forall h :: Time(m', h, y) == Time(m, h, y)
    ensures At(s, t, y, RspDeferred) ==> Targ(s', t).nextTime == Targ(s, t).nextTime
  {
  }

  lemma TimesStay(s: System, s': System, m: Monitor, m': Monitor, x: Trans, t: nat, i: nat, y: Trans)
    requires Local(s, s', x, t, i) && SeesOnly(m, m', x, t, i) && Beside(s, s', x, t, i) && y != x && TimesOk(s, m, y)
    ensures TimesOk(s', m', y)
  {
    hide Local, SeesOnly, Beside, Time;
    var u, j := Tok(s, y).target, Tok(s, y).init;
    OtherTrans(s, s', x, t, i, y);
    SameNow(s, s', x, t, i);
    LanesStay(s, s', x, t, i, y, u, j);
    OtherTimes(s, s', m, m', x, t, i, y);
  }

  lemma OtherInit(s: System, s': System, m: Monitor, m': Monitor, x: Trans, t: nat, i: nat, j: nat)
    requires Local(s, s', x, t, i) && SeesOnly(m, m', x, t, i) && j != i
    ensures Init(s', j) == Init(s, j) && Mine(s, x, t, i) && Mine(s', x, t, i)
    ensures InitHop(j) in m'.req <==> InitHop(j) in m.req
    ensures InitHop(j) in m.req ==> m'.req[InitHop(j)] == m.req[InitHop(j)]
  {
  }

  lemma StrictStays(s: System, s': System, m: Monitor, m': Monitor, x: Trans, t: nat, i: nat, j: nat)
    requires Local(s, s', x, t, i) && SeesOnly(m, m', x, t, i) && Beside(s, s', x, t, i) && j != i && StrictOk(s, m, j)
    ensures StrictOk(s', m', j)
  {
    hide Local, SeesOnly, Beside, Ph, Time, PathOf;
    OtherInit(s, s', m, m', x, t, i, j);
    HastyStays(s, s', x, t, i);
    if Strict(s, j) {
      forall y ensures StrictLane(s', m', j, y) {
        assert StrictLane(s, m, j, y);
        if y != x {
          OtherTrans(s, s', x, t, i, y);
          LanesStay(s, s', x, t, i, y, Tok(s, y).target, j);
        }
      }
    }
  }

  // It is enough to look at x and its initiator
  lemma WatchMoves(s: System, s': System, m: Monitor, m': Monitor, x: Trans, t: nat, i: nat)
    requires Watched(s, m) && Local(s, s', x, t, i) && SeesOnly(m, m', x, t, i) && Beside(s, s', x, t, i)
    requires PhasesOk(s', m', x) && TimesOk(s', m', x) && StrictOk(s', m', i)
    requires Flagged(m') && AllExcused(s', m')
    ensures Watched(s', m')
  {
    hide Local, SeesOnly, Beside, PhasesOk, TimesOk, StrictOk, Flagged, AllExcused;
    forall y ensures PhasesOk(s', m', y) { if y != x { PhasesStay(s, s', m, m', x, t, i, y); } }
    forall y ensures TimesOk(s', m', y) { if y != x { TimesStay(s, s', m, m', x, t, i, y); } }
    forall j ensures StrictOk(s', m', j) { if j != i { StrictStays(s, s', m, m', x, t, i, j); } }
  }

  // Initiator i after a change of x that leaves it alone, with at most its flag cleared
  lemma StrictKeeps(s: System, s': System, m: Monitor, m': Monitor, x: Trans, t: nat, i: nat)
    requires Local(s, s', x, t, i) && SeesOnly(m, m', x, t, i) && StrictOk(s, m, i) && Init(s', i) == Init(s, i)
    requires InitHop(i) in m'.req ==> InitHop(i) in m.req && m'.req[InitHop(i)] == m.req[InitHop(i)]
    requires forall y :: y != x ==> Lane(Targ(s', t).peq, y) == Lane(Targ(s, t).peq, y)
    requires Strict(s, i) ==> StrictLane(s', m', i, x)
    ensures StrictOk(s', m', i)
  {
    HastyStays(s, s', x, t, i);
    if Strict(s, i) {
      forall y ensures StrictLane(s', m', i, y) {
        if y != x {
          assert StrictLane(s, m, i, y) && SameTrans(s, s', y);
          if Tok(s, y).target != t { assert SameTarget(s, s', Tok(s, y).target); }
        }
      }
    }
  }
}
