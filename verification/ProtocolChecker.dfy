/**
 The base-protocol checker, one instance on each hop, all sharing one table of paths. It watches
 nb_transport calls and returns, and reports violations of clauses 7.2.3, 7.2.4, 7.2.5 and 6.5
 of the OSCI TLM-2.0 User Manual JA22.
 */
module ProtocolChecker {
  import opened Tlm

  datatype Rule =
    | OutOfSequence        // 7.2.3 i)
    | WrongPath            // 7.2.3 d)
    | RequestExclusion     // 7.2.4 b)
    | ResponseExclusion    // 7.2.4 c)
    | DecreasingTime       // 7.2.5 e)
    | PathNotReversed      // 7.2.5 m-n)
    | StillResponding      // 6.5

  datatype Violation = Violation(rule: Rule, hop: Hop, trans: Trans)

  datatype Key = Key(hop: Hop, trans: Trans)

  // The hops that BEGIN_REQ has passed and the response has not; whether a response is on its way
  datatype Path = Path(hops: seq<Hop>, responding: bool)

  // ph and time: the map of the checker on each hop; req and rsp: its two flags
  datatype Monitor = Monitor(ph: map<Key, Phase>, time: map<Key, nat>, req: map<Hop, Trans>, rsp: map<Hop, Trans>,
                             paths: map<Trans, Path>, errors: seq<Violation>)

  const START := Monitor(map[], map[], map[], map[], map[], [])

  function Ph(m: Monitor, h: Hop, x: Trans): Phase {
    if Key(h, x) in m.ph then m.ph[Key(h, x)] else Uninit
  }

  function Time(m: Monitor, h: Hop, x: Trans): nat {
    if Key(h, x) in m.time then m.time[Key(h, x)] else 0
  }

  function PathOf(m: Monitor, x: Trans): Path {
    if x in m.paths then m.paths[x] else Path([], false)
  }

  // Report a violation unless ok
  function Require(m: Monitor, ok: bool, rule: Rule, h: Hop, x: Trans): Monitor {
    m.(errors := m.errors + if ok then [] else [Violation(rule, h, x)])
  }

  // Ignore extended phases
  function SetPhase(m: Monitor, h: Hop, x: Trans, phase: Phase): Monitor {
    m.(ph := m.ph[Key(h, x) := if phase == Internal then Ph(m, h, x) else phase])
  }

  function CheckTime(m: Monitor, h: Hop, x: Trans, when: nat): Monitor {
    var m1 := Require(m, Time(m, h, x) <= when, DecreasingTime, h, x);
    m1.(time := m1.time[Key(h, x) := when])
  }

  // check_initial_state
  function StartPath(m: Monitor, h: Hop, x: Trans): Monitor {
    var p := PathOf(m, x);
    var m1 := Require(m, !p.responding, StillResponding, h, x);
    m1.(time := m1.time[Key(h, x) := 0], paths := m1.paths[x := p.(hops := p.hops + [h])])
  }

  // check_response_path
  function BackOnPath(m: Monitor, h: Hop, x: Trans): Monitor {
    var p := PathOf(m, x);
    var n := |p.hops|;
    if n == 0 then m
    else
      var m1 := Require(m, p.hops[n - 1] == h, PathNotReversed, h, x);
      m1.(paths := m1.paths[x := Path(p.hops[..n - 1], n > 1)])
  }

  predicate Between(phase: Phase) { phase.BeginReq? || phase.EndReq? || phase.BeginResp? }

  // nb_transport_fw_pre_checks
  function FwCall(m: Monitor, h: Hop, x: Trans, phase: Phase, when: nat): Monitor {
    CheckTime(SetPhase(FwSequence(m, h, x, phase), h, x, phase), h, x, when)
  }

  function FwSequence(m: Monitor, h: Hop, x: Trans, phase: Phase): Monitor {
    match phase
    case BeginReq =>
      var m1 := Require(StartPath(m, h, x), !Between(Ph(m, h, x)), OutOfSequence, h, x);
      var m2 := Require(m1, h !in m1.req, RequestExclusion, h, x);
      m2.(req := m2.req[h := x])
    case EndResp =>
      var m1 := Require(m, Ph(m, h, x) == BeginResp, OutOfSequence, h, x);
      m1.(rsp := m1.rsp - {h})
    case Internal => m
    case _ => Require(m, false, WrongPath, h, x)
  }

  // nb_transport_response_checks: a backward call, or TLM_UPDATED from a forward call
  function Response(m: Monitor, h: Hop, x: Trans, phase: Phase, when: nat): Monitor {
    CheckTime(SetPhase(BwSequence(m, h, x, phase), h, x, phase), h, x, when)
  }

  function BwSequence(m: Monitor, h: Hop, x: Trans, phase: Phase): Monitor {
    match phase
    case EndReq =>
      var m1 := Require(m, Ph(m, h, x) == BeginReq, OutOfSequence, h, x);
      m1.(req := m1.req - {h})
    case BeginResp => BeginsResp(m, h, x)
    case Internal => m
    case _ => Require(m, false, WrongPath, h, x)
  }

  // BEGIN_RESP; it ends the request if END_REQ has not
  function BeginsResp(m: Monitor, h: Hop, x: Trans): Monitor {
    var m1 := Require(m, Ph(m, h, x) == BeginReq || Ph(m, h, x) == EndReq, OutOfSequence, h, x);
    var m2 := if h in m1.req && m1.req[h] == x then m1.(req := m1.req - {h}) else m1;
    var m3 := Require(m2, h !in m2.rsp, ResponseExclusion, h, x);
    BackOnPath(m3.(rsp := m3.rsp[h := x]), h, x)
  }

  // nb_transport_fw_post_checks with TLM_COMPLETED
  function FwReturn(m: Monitor, h: Hop, x: Trans, ofRequest: bool): Monitor {
    var m1 := if ofRequest then BackOnPath(m, h, x) else m;
    m1.(req := m1.req - {h}, ph := m1.ph[Key(h, x) := Uninit])
  }

  // nb_transport_bw_post_checks with TLM_UPDATED
  function BwReturn(m: Monitor, h: Hop, x: Trans, phase: Phase, when: nat): Monitor {
    CheckTime(SetPhase(BwReturnSequence(m, h, x, phase), h, x, phase), h, x, when)
  }

  function BwReturnSequence(m: Monitor, h: Hop, x: Trans, phase: Phase): Monitor {
    match phase
    case EndResp =>
      var m1 := Require(m, Ph(m, h, x) == BeginResp, OutOfSequence, h, x);
      m1.(rsp := m1.rsp - {h})
    case BeginReq => Require(m, false, OutOfSequence, h, x)
    case Internal => m
    case _ => Require(m, false, WrongPath, h, x)
  }

  // nb_transport_bw_post_checks with TLM_COMPLETED
  function BwDone(m: Monitor, h: Hop, x: Trans): Monitor {
    m.(rsp := m.rsp - {h}, ph := m.ph[Key(h, x) := Uninit])
  }

  function Observe(m: Monitor, e: Event): Monitor {
    match e.signal
    case Forward(phase) => FwCall(m, e.hop, e.trans, phase, e.when)
    case Backward(phase) => Response(m, e.hop, e.trans, phase, e.when)
    case FwCompleted(ofRequest) => FwReturn(m, e.hop, e.trans, ofRequest)
    case BwUpdated(phase) => BwReturn(m, e.hop, e.trans, phase, e.when)
    case BwCompleted => BwDone(m, e.hop, e.trans)
  }

  // All checkers after a run
  function Watch(log: seq<Event>): Monitor {
    if |log| == 0 then START else Observe(Watch(log[..|log| - 1]), log[|log| - 1])
  }

  lemma WatchOne(log: seq<Event>, e: Event)
    ensures Watch(log + [e]) == Observe(Watch(log), e)
  {
    assert (log + [e])[..|log|] == log;
  }
}
