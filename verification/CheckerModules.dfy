/** The checkers as an object whose methods, named after those of the source, update their maps and flags. */
module CheckerModules {
  import opened Tlm
  import opened ProtocolChecker

  class Checkers {
    var phases: map<Key, Phase>
    var times: map<Key, nat>
    var requestInProgress: map<Hop, Trans>
    var responseInProgress: map<Hop, Trans>
    var paths: map<Trans, Path>
    var errors: seq<Violation>
    ghost var log: seq<Event>

    ghost function View(): Monitor
      reads this
    {
      Monitor(phases, times, requestInProgress, responseInProgress, paths, errors)
    }

    // The fields are what the events seen so far have made of them
    ghost predicate Valid()
      reads this
    {
      View() == Watch(log)
    }

    constructor ()
      ensures Valid() && log == [] && errors == []
    {
      phases, times, requestInProgress, responseInProgress := map[], map[], map[], map[];
      paths, errors, log := map[], [], [];
    }

    method Report(ok: bool, rule: Rule, h: Hop, x: Trans)
      modifies this`errors
      ensures View() == Require(old(View()), ok, rule, h, x)
    {
      if !ok { errors := errors + [Violation(rule, h, x)]; }
    }

    method RememberTime(h: Hop, x: Trans, when: nat)
      modifies this
      ensures View() == CheckTime(old(View()), h, x, when) && log == old(log)
    {
      Report((if Key(h, x) in times then times[Key(h, x)] else 0) <= when, DecreasingTime, h, x);
      times := times[Key(h, x) := when];
    }

    method RememberPhase(h: Hop, x: Trans, phase: Phase)
      modifies this
      ensures View() == SetPhase(old(View()), h, x, phase) && log == old(log)
    {
      phases := phases[Key(h, x) := if phase == Internal then LastPhase(h, x) else phase];
    }

    function LastPhase(h: Hop, x: Trans): (p: Phase)
      reads this
      ensures p == Ph(View(), h, x)
    {
      if Key(h, x) in phases then phases[Key(h, x)] else Uninit
    }

    function PathSeen(x: Trans): (p: Path)
      reads this
      ensures p == PathOf(View(), x)
    {
      if x in paths then paths[x] else Path([], false)
    }

    method CheckInitialState(h: Hop, x: Trans)
      modifies this
      ensures View() == StartPath(old(View()), h, x) && log == old(log)
    {
      var p := PathSeen(x);
      Report(!p.responding, StillResponding, h, x);
      times := times[Key(h, x) := 0];
      paths := paths[x := p.(hops := p.hops + [h])];
    }

    method CheckResponsePath(h: Hop, x: Trans)
      modifies this
      ensures View() == BackOnPath(old(View()), h, x) && log == old(log)
    {
      var hops := PathSeen(x).hops;
      if hops != [] {
        Report(hops[|hops| - 1] == h, PathNotReversed, h, x);
        paths := paths[x := Path(hops[..|hops| - 1], |hops| > 1)];
      }
    }

    method FwPreChecks(h: Hop, x: Trans, phase: Phase, when: nat)
      modifies this
      ensures View() == FwCall(old(View()), h, x, phase, when) && log == old(log)
    {
      hide StartPath, CheckTime, SetPhase;
      match phase {
        case BeginReq =>
          var between := Between(LastPhase(h, x));
          CheckInitialState(h, x);
          Report(!between, OutOfSequence, h, x);
          Report(h !in requestInProgress, RequestExclusion, h, x);
          requestInProgress := requestInProgress[h := x];
        case EndResp =>
          Report(LastPhase(h, x) == BeginResp, OutOfSequence, h, x);
          responseInProgress := responseInProgress - {h};
        case Internal =>
        case _ =>
          Report(false, WrongPath, h, x);
      }
      assert View() == FwSequence(old(View()), h, x, phase);
      RememberPhase(h, x, phase);
      RememberTime(h, x, when);
    }

    method CheckBeginResp(h: Hop, x: Trans)
      modifies this
      ensures View() == BeginsResp(old(View()), h, x) && log == old(log)
    {
      hide BackOnPath;
      Report(LastPhase(h, x) == BeginReq || LastPhase(h, x) == EndReq, OutOfSequence, h, x);
      if h in requestInProgress && requestInProgress[h] == x {
        requestInProgress := requestInProgress - {h};
      }
      Report(h !in responseInProgress, ResponseExclusion, h, x);
      responseInProgress := responseInProgress[h := x];
      CheckResponsePath(h, x);
    }

    method ResponseChecks(h: Hop, x: Trans, phase: Phase, when: nat)
      modifies this
      ensures View() == Response(old(View()), h, x, phase, when) && log == old(log)
    {
      hide BackOnPath, CheckTime, SetPhase, BeginsResp;
      match phase {
        case EndReq =>
          Report(LastPhase(h, x) == BeginReq, OutOfSequence, h, x);
          requestInProgress := requestInProgress - {h};
        case BeginResp =>
          CheckBeginResp(h, x);
        case Internal =>
        case _ =>
          Report(false, WrongPath, h, x);
      }
      assert View() == BwSequence(old(View()), h, x, phase);
      RememberPhase(h, x, phase);
      RememberTime(h, x, when);
    }

    // TLM_COMPLETED from nb_transport_fw
    method FwPostCompleted(h: Hop, x: Trans, ofRequest: bool)
      modifies this
      ensures View() == FwReturn(old(View()), h, x, ofRequest) && log == old(log)
    {
      if ofRequest { CheckResponsePath(h, x); }
      requestInProgress := requestInProgress - {h};
      phases := phases[Key(h, x) := Uninit];
    }

    // TLM_UPDATED from nb_transport_bw
    method BwPostUpdated(h: Hop, x: Trans, phase: Phase, when: nat)
      modifies this
      ensures View() == BwReturn(old(View()), h, x, phase, when) && log == old(log)
    {
      hide CheckTime, SetPhase;
      match phase {
        case EndResp =>
          Report(LastPhase(h, x) == BeginResp, OutOfSequence, h, x);
          responseInProgress := responseInProgress - {h};
        case BeginReq =>
          Report(false, OutOfSequence, h, x);
        case Internal =>
        case _ =>
          Report(false, WrongPath, h, x);
      }
      assert View() == BwReturnSequence(old(View()), h, x, phase);
      RememberPhase(h, x, phase);
      RememberTime(h, x, when);
    }

    // TLM_COMPLETED from nb_transport_bw
    method BwPostCompleted(h: Hop, x: Trans)
      modifies this
      ensures View() == BwDone(old(View()), h, x) && log == old(log)
    {
      responseInProgress := responseInProgress - {h};
      phases := phases[Key(h, x) := Uninit];
    }

    // Whatever passes a hop
    method See(e: Event)
      requires Valid()
      modifies this
      ensures Valid() && log == old(log) + [e]
    {
      WatchOne(log, e);
      match e.signal {
        case Forward(phase) => FwPreChecks(e.hop, e.trans, phase, e.when);
        case Backward(phase) => ResponseChecks(e.hop, e.trans, phase, e.when);
        case FwCompleted(ofRequest) => FwPostCompleted(e.hop, e.trans, ofRequest);
        case BwUpdated(phase) => BwPostUpdated(e.hop, e.trans, phase, e.when);
        case BwCompleted => BwPostCompleted(e.hop, e.trans);
      }
      log := log + [e];
    }
  }
}
