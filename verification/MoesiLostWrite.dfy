/** A write hit that loses the race for the bus and then does not look at its copy again loses a write. */
module MoesiLostWrite {
  import opened CacheLines
  import opened Moesi
  import opened MoesiSafety
  import opened MoesiData

  // The first set of the cache holds at most the line at address 0, in its last way
  ghost predicate Holds(c: Core, state: State, pc: Pc) {
    && Sized(c) && c.pc == pc
    && (forall k :: 0 <= k < 7 ==> c.lines[k].state.Invalid?)
    && c.lines[7].state == state && (Valid(c.lines[7]) ==> c.lines[7].tag == 0)
  }

  // One of the first two caches: the state of its copy of line 0, its thread, and the version it holds
  datatype Side = Side(state: State, pc: Pc, version: int)

  // The other caches take no part
  ghost predicate OthersIdle(s: System) {
    forall e :: 2 <= e < |s| ==> Holds(s[e], Invalid, Idle)
  }

  ghost predicate Fits(s: System, d: Data, x: Side, y: Side, latest: nat) {
    && Coherent(s) && Formed(s) && |s| >= 2 && Shaped(s, d)
    && Holds(s[0], x.state, x.pc) && Holds(s[1], y.state, y.pc) && OthersIdle(s)
    && d.held[0][7] == x.version && d.held[1][7] == y.version
    && At(d.mem, 0) == 0 && Last(d, 0) == latest
  }

  // The first two caches after a run, and the version of the last write
  ghost predicate Is(s0: System, d0: Data, actions: seq<Action>, x: Side, y: Side, latest: nat) {
    && Initial(s0) && |s0| >= 2 && Unwritten(s0, d0) && Runs(s0, actions)
    && Fits(After(s0, actions), DataAfter(s0, d0, actions), x, y, latest)
  }

  // The side of cache i, and the other one
  function Mine(i: nat, x: Side, y: Side): Side { if i == 0 then x else y }

  // Side k after the thread of cache i has gone to pc
  function With(i: nat, k: nat, z: Side, pc: Pc): Side { if i == k then z.(pc := pc) else z }

  lemma {:induction false} OneMore(s: System, d: Data, actions: seq<Action>, a: Action)
    requires Runs(s, actions) && Shaped(s, d) && Formed(After(s, actions)) && Enabled(After(s, actions), a)
    ensures Runs(s, actions + [a]) && After(s, actions + [a]) == Apply(After(s, actions), a)
    ensures Shaped(After(s, actions), DataAfter(s, d, actions))
    ensures DataAfter(s, d, actions + [a]) == Move(After(s, actions), DataAfter(s, d, actions), a)
    decreases |actions|
  {
    if |actions| == 0 {
      assert actions + [a] == [a];
    } else {
      assert (actions + [a])[1..] == actions[1..] + [a];
      OneMore(Apply(s, actions[0]), Move(s, d, actions[0]), actions[1..], a);
    }
  }

  lemma FirstSet()
    ensures Index(0) == 0 && Tag(0) == 0
  {
  }

  lemma LooksAtFirstSet(c: Core, state: State, func: Func)
    requires Holds(c, state, Looking(func, 0))
    ensures Holds(Look(c, func, 0), state, if state.Invalid? then Miss(func, 0, 7) else Hit(func, 0, 7))
  {
    var c' := Look(c, func, 0);
    FirstSet();
    FoundIsLast(c.lines, 0, 8, 0);
    assert FoundIn(c, 0) == if state.Invalid? then -1 else 7 by {
      if !state.Invalid? { assert Match(c.lines[7], 0); }
    }
    if state.Invalid? { assert Choose(c.lines, 0, 8, 0).id == 7; }
    forall k | 0 <= k < 8 ensures c'.lines[k].state == c.lines[k].state && c'.lines[k].tag == c.lines[k].tag { }
  }

  lemma SnoopsFirstSet(c: Core, state: State, pc: Pc, req: Request)
    requires Holds(c, state, pc) && CoreOk(c)
    ensures Holds(Snoop(c, req, 0), if state.Invalid? then Invalid else Snooped(state, req), pc)
    ensures FoundIn(c, 0) > -1 <==> !state.Invalid?
  {
    FirstSet();
    FoundIsLast(c.lines, 0, 8, 0);
    forall k | 0 <= k < 8
      ensures Snoop(c, req, 0).lines[k] ==
              if k == 7 && Valid(c.lines[7]) then c.lines[7].(state := Snooped(state, req)) else c.lines[k]
    {
      SnoopOne(c, req, 0, k);
    }
    if !state.Invalid? { assert Match(c.lines[7], 0); }
  }

  // ---------- What one step does to the two sides ----------

  lemma Takes(s0: System, d0: Data, actions: seq<Action>, x: Side, y: Side, latest: nat, a: Action, x': Side, y': Side,
        latest': nat)
    requires Is(s0, d0, actions, x, y, latest) && Enabled(After(s0, actions), a)
    requires var s, d := After(s0, actions), DataAfter(s0, d0, actions); Shaped(s, d) && Formed(s)
    requires var s, d := After(s0, actions), DataAfter(s0, d0, actions);
             Fits(Apply(s, a), Move(s, d, a), x', y', latest')
    ensures Is(s0, d0, actions + [a], x', y', latest')
  {
    OneMore(s0, d0, actions, a);
  }

  lemma RequestFits(s: System, d: Data, x: Side, y: Side, latest: nat, i: nat, func: Func)
    requires Fits(s, d, x, y, latest) && i < 2 && Mine(i, x, y).pc.Idle?
    ensures var pc, a := Looking(func, 0), Requests(i, func, 0);
            Fits(Apply(s, a), Move(s, d, a), With(i, 0, x, pc), With(i, 1, y, pc), latest)
  {
    StepKeeps(s, Requests(i, func, 0));
  }

  lemma LookFits(s: System, d: Data, x: Side, y: Side, latest: nat, i: nat, func: Func)
    requires Fits(s, d, x, y, latest) && i < 2 && Mine(i, x, y).pc == Looking(func, 0)
    ensures var pc := if Mine(i, x, y).state.Invalid? then Miss(func, 0, 7) else Hit(func, 0, 7);
            var a := Acts(i, true);
            Fits(Apply(s, a), Move(s, d, a), With(i, 0, x, pc), With(i, 1, y, pc), latest)
  {
    StepKeeps(s, Acts(i, true));
    LooksAtFirstSet(s[i], Mine(i, x, y).state, func);
  }

  lemma MissFits(s: System, d: Data, x: Side, y: Side, latest: nat, i: nat, func: Func)
    requires Fits(s, d, x, y, latest) && i < 2 && Mine(i, x, y).pc == Miss(func, 0, 7) && Mine(i, x, y).state.Invalid?
    ensures var pc, a := Filling(func, 0, 7), Acts(i, true);
            Fits(Apply(s, a), Move(s, d, a), With(i, 0, x, pc), With(i, 1, y, pc), latest)
  {
    StepKeeps(s, Acts(i, true));
  }

  // Cache 0 reads from memory
  lemma ReadFits(s: System, d: Data, x: Side, y: Side, latest: nat)
    requires Fits(s, d, x, y, latest) && x.pc == Filling(Read, 0, 7) && y.state.Invalid?
    ensures Fits(Apply(s, Acts(0, true)), Move(s, d, Acts(0, true)), Side(Exclusive, Idle, 0), y, latest)
  {
    StepKeeps(s, Acts(0, true));
    FirstSet();
    assert CoreOk(s[1]);
    SnoopsFirstSet(s[1], y.state, y.pc, Fetch);
  }

  // Cache 1 reads for a write what cache 0 holds
  lemma ShareFits(s: System, d: Data, x: Side, y: Side, latest: nat)
    requires Fits(s, d, x, y, latest) && y.pc == Filling(Write, 0, 7) && x.state.Exclusive?
    ensures Fits(Apply(s, Acts(1, true)), Move(s, d, Acts(1, true)),
                 x.(state := Shared), Side(Shared, Claiming(0, 7), x.version), latest)
  {
    StepKeeps(s, Acts(1, true));
    FirstSet();
    assert CoreOk(s[0]);
    SnoopsFirstSet(s[0], x.state, x.pc, Fetch);
    FoundIsLast(s[0].lines, 0, 8, 0);
    assert FoundIn(s[0], 0) == 7;
  }

  // Cache 1 claims what it has filled
  lemma ClaimFits(s: System, d: Data, x: Side, y: Side, latest: nat)
    requires Fits(s, d, x, y, latest) && y.pc == Claiming(0, 7) && y.version == latest && Valid(s[1].lines[7])
    requires !x.state.Invalid?
    ensures Fits(Apply(s, Acts(1, true)), Move(s, d, Acts(1, true)),
                 x.(state := Invalid), Side(Modified, Idle, latest + 1), latest + 1)
  {
    StepKeeps(s, Acts(1, true));
    FirstSet();
    assert CoreOk(s[0]);
    SnoopsFirstSet(s[0], x.state, x.pc, Invalidate);
  }

  // Cache 0 claims a copy that it no longer has
  lemma LateClaimFits(s: System, d: Data, x: Side, y: Side, latest: nat)
    requires Fits(s, d, x, y, latest) && x.pc == Hit(Write, 0, 7) && x.version != latest
    requires !y.state.Invalid?
    ensures Fits(Apply(s, Acts(0, true)), Move(s, d, Acts(0, true)),
                 Side(Modified, Idle, -1), y.(state := Invalid), latest + 1)
  {
    StepKeeps(s, Acts(0, true));
    FirstSet();
    assert CoreOk(s[0]) && CoreOk(s[1]);
    SnoopsFirstSet(s[1], y.state, y.pc, Invalidate);
  }

  // ---------- The run ----------

  // Cache i asks, looks and, on a miss, gives its way up
  lemma Asks(s0: System, d0: Data, actions: seq<Action>, x: Side, y: Side, latest: nat, i: nat, func: Func)
      returns (actions': seq<Action>)
    requires Is(s0, d0, actions, x, y, latest) && i < 2 && Mine(i, x, y).pc.Idle?
    ensures var pc := if Mine(i, x, y).state.Invalid? then Miss(func, 0, 7) else Hit(func, 0, 7);
            Is(s0, d0, actions', With(i, 0, x, pc), With(i, 1, y, pc), latest)
  {
    var looking := Looking(func, 0);
    var x1, y1 := With(i, 0, x, looking), With(i, 1, y, looking);
    RequestFits(After(s0, actions), DataAfter(s0, d0, actions), x, y, latest, i, func);
    Takes(s0, d0, actions, x, y, latest, Requests(i, func, 0), x1, y1, latest);
    actions' := actions + [Requests(i, func, 0)];
    var pc := if Mine(i, x, y).state.Invalid? then Miss(func, 0, 7) else Hit(func, 0, 7);
    var x2, y2 := With(i, 0, x, pc), With(i, 1, y, pc);
    LookFits(After(s0, actions'), DataAfter(s0, d0, actions'), x1, y1, latest, i, func);
    Takes(s0, d0, actions', x1, y1, latest, Acts(i, true), x2, y2, latest);
    actions' := actions' + [Acts(i, true)];
  }

  lemma GivesUp(s0: System, d0: Data, actions: seq<Action>, x: Side, y: Side, latest: nat, i: nat, func: Func)
    requires Is(s0, d0, actions, x, y, latest) && i < 2
    requires Mine(i, x, y).pc == Miss(func, 0, 7) && Mine(i, x, y).state.Invalid?
    ensures var pc := Filling(func, 0, 7);
            Is(s0, d0, actions + [Acts(i, true)], With(i, 0, x, pc), With(i, 1, y, pc), latest)
  {
    var pc := Filling(func, 0, 7);
    MissFits(After(s0, actions), DataAfter(s0, d0, actions), x, y, latest, i, func);
    Takes(s0, d0, actions, x, y, latest, Acts(i, true),
          With(i, 0, x, pc), With(i, 1, y, pc), latest);
  }

  // Cache 0 reads the line, then cache 1 reads it for a write
  lemma Shares(s0: System, d0: Data) returns (actions: seq<Action>)
    requires Initial(s0) && |s0| >= 2 && Unwritten(s0, d0)
    ensures Is(s0, d0, actions, Side(Shared, Idle, 0), Side(Shared, Claiming(0, 7), 0), 0)
  {
    InitialIsCoherent(s0);
    assert Empty(s0[0]) && Empty(s0[1]);
    var x, y := Side(Invalid, Idle, d0.held[0][7]), Side(Invalid, Idle, d0.held[1][7]);
    assert Is(s0, d0, [], x, y, 0);
    actions := Asks(s0, d0, [], x, y, 0, 0, Read);
    x := x.(pc := Miss(Read, 0, 7));
    GivesUp(s0, d0, actions, x, y, 0, 0, Read);
    actions, x := actions + [Acts(0, true)], x.(pc := Filling(Read, 0, 7));
    ReadFits(After(s0, actions), DataAfter(s0, d0, actions), x, y, 0);
    Takes(s0, d0, actions, x, y, 0, Acts(0, true), Side(Exclusive, Idle, 0), y, 0);
    actions, x := actions + [Acts(0, true)], Side(Exclusive, Idle, 0);
    actions := Asks(s0, d0, actions, x, y, 0, 1, Write);
    y := y.(pc := Miss(Write, 0, 7));
    GivesUp(s0, d0, actions, x, y, 0, 1, Write);
    actions, y := actions + [Acts(1, true)], y.(pc := Filling(Write, 0, 7));
    ShareFits(After(s0, actions), DataAfter(s0, d0, actions), x, y, 0);
    Takes(s0, d0, actions, x, y, 0, Acts(1, true), Side(Shared, Idle, 0), Side(Shared, Claiming(0, 7), 0), 0);
    actions := actions + [Acts(1, true)];
  }

  // Cache 0 finds its copy for a write; cache 1 gets the bus first
  lemma LosesTheBus(s0: System, d0: Data) returns (actions: seq<Action>)
    requires Initial(s0) && |s0| >= 2 && Unwritten(s0, d0)
    ensures Is(s0, d0, actions, Side(Invalid, Hit(Write, 0, 7), 0), Side(Modified, Idle, 1), 1)
  {
    actions := Shares(s0, d0);
    var x, y := Side(Shared, Idle, 0), Side(Shared, Claiming(0, 7), 0);
    actions := Asks(s0, d0, actions, x, y, 0, 0, Write);
    x := x.(pc := Hit(Write, 0, 7));
    ClaimFits(After(s0, actions), DataAfter(s0, d0, actions), x, y, 0);
    Takes(s0, d0, actions, x, y, 0, Acts(1, true), x.(state := Invalid), Side(Modified, Idle, 1), 1);
    actions := actions + [Acts(1, true)];
  }

  // Cache 0 gets the bus after it, and writes to the copy that it no longer has
  lemma WritesCanBeLost(s0: System, d0: Data) returns (actions: seq<Action>)
    requires Initial(s0) && |s0| >= 2 && Unwritten(s0, d0)
    ensures Runs(s0, actions)
    ensures var s, d := After(s0, actions), DataAfter(s0, d0, actions);
            && Shaped(s, d)
            && Copy(s, 0, 7, 0) && d.held[0][7] == -1 && Last(d, 0) == 2
            && !InMemory(d, 0) && !Copy(s, 1, 7, 0)
  {
    actions := LosesTheBus(s0, d0);
    var x, y := Side(Invalid, Hit(Write, 0, 7), 0), Side(Modified, Idle, 1);
    LateClaimFits(After(s0, actions), DataAfter(s0, d0, actions), x, y, 1);
    Takes(s0, d0, actions, x, y, 1, Acts(0, true), Side(Modified, Idle, -1), y.(state := Invalid), 2);
    actions := actions + [Acts(0, true)];
  }
}
