/** Coherence: what the copies of a line in different caches may be, over every interleaving. */
module MoesiSafety {
  import opened CacheLines
  import opened Moesi

  predicate Valid(l: Line) { !l.state.Invalid? }

  predicate Exclusively(l: Line) { l.state.Modified? || l.state.Exclusive? }

  // Two copies of one line in different caches
  predicate Agree(l: Line, m: Line) {
    Valid(l) && Valid(m) && l.tag == m.tag ==> !Exclusively(l) && !Exclusively(m) && !(l.state.Owned? && m.state.Owned?)
  }

  ghost predicate Compatible(c: Core, d: Core)
    requires Sized(c) && Sized(d)
  {
    forall j, k :: 0 <= j < CACHE_SIZE && 0 <= k < CACHE_SIZE && SameSet(j, k) ==> Agree(c.lines[j], d.lines[k])
  }

  // No way of the set but `way` holds the tag
  ghost predicate NoOther(lines: seq<Line>, way: nat, tag: nat)
    requires |lines| == CACHE_SIZE
  {
    forall k :: 0 <= k < CACHE_SIZE && SameSet(k, way) && k != way ==> !Match(lines[k], tag)
  }

  // At most one valid way for each line
  ghost predicate OneWay(lines: seq<Line>)
    requires |lines| == CACHE_SIZE
  {
    forall k :: 0 <= k < CACHE_SIZE && Valid(lines[k]) ==> NoOther(lines, k, lines[k].tag)
  }

  // What the execute thread remembers about the way it works on
  ghost predicate Remembers(c: Core)
    requires Sized(c)
  {
    match c.pc
    case Idle => true
    case Looking(_, _) => true
    case Hit(_, addr, way) => Keeps(c.lines, addr, way)
    case Reading(addr, way) => Keeps(c.lines, addr, way)
    case Claiming(addr, way) => Keeps(c.lines, addr, way)
    case Refused(addr, way, _) => Keeps(c.lines, addr, way)
    case Miss(_, addr, way) => Absent(c.lines, addr, way)
    case WriteRefused(_, addr, way) => Absent(c.lines, addr, way)
    case Filling(_, addr, way) => Absent(c.lines, addr, way)
  }

  ghost predicate Lacks(lines: seq<Line>, addr: nat, way: nat)
    requires |lines| == CACHE_SIZE
  {
    way < CACHE_SIZE && SameSet(way, Index(addr)) && NoOther(lines, way, Tag(addr))
  }

  ghost predicate Absent(lines: seq<Line>, addr: nat, way: nat)
    requires |lines| == CACHE_SIZE
  {
    Lacks(lines, addr, way) && !Match(lines[way], Tag(addr))
  }

  ghost predicate Keeps(lines: seq<Line>, addr: nat, way: nat)
    requires |lines| == CACHE_SIZE
  {
    Lacks(lines, addr, way) && lines[way].tag == Tag(addr)
  }

  ghost predicate CoreOk(c: Core) {
    Sized(c) && OneWay(c.lines) && Remembers(c)
  }

  ghost predicate Coherent(s: System) {
    && (forall c :: 0 <= c < |s| ==> CoreOk(s[c]))
    && (forall c, d :: 0 <= c < |s| && 0 <= d < |s| && c != d ==> Compatible(s[c], s[d]))
  }

  lemma SetMembers(addr: nat, k: nat)
    ensures InSet(k, addr) <==> SameSet(k, Index(addr))
  {
    IndexIs(addr);
  }

  lemma FormedWhenCoherent(s: System)
    requires Coherent(s)
    ensures Formed(s)
  {
    forall c | 0 <= c < |s| ensures Sized(s[c]) && (!s[c].pc.Idle? && !s[c].pc.Looking? ==> s[c].pc.way < CACHE_SIZE) {
      assert CoreOk(s[c]);
    }
  }

  // ---------- Snooping ----------

  // A copy after a snoop: the same, gone, or no longer exclusive
  predicate Weaker(l: Line, l': Line) {
    l'.tag == l.tag && l'.counter == l.counter
    && (l'.state == l.state || l'.state.Invalid? || l'.state == Snooped(l.state, Fetch))
  }

  lemma SnoopWeakens(c: Core, req: Request, addr: nat)
    requires Sized(c)
    ensures var c' := Snoop(c, req, addr);
            && (forall k :: 0 <= k < CACHE_SIZE ==> Weaker(c.lines[k], c'.lines[k]))
            && c' == c.(lines := c'.lines)
  {
  }

  lemma WeakerKeeps(c: Core, lines: seq<Line>)
    requires CoreOk(c) && |lines| == CACHE_SIZE && (forall k :: 0 <= k < CACHE_SIZE ==> Weaker(c.lines[k], lines[k]))
    ensures CoreOk(c.(lines := lines))
  {
    forall k | 0 <= k < CACHE_SIZE && Valid(lines[k]) ensures NoOther(lines, k, lines[k].tag) {
      assert Weaker(c.lines[k], lines[k]);
      NoOtherWeaker(c.lines, lines, k, lines[k].tag);
    }
    if !c.pc.Idle? && !c.pc.Looking? {
      assert Weaker(c.lines[c.pc.way], lines[c.pc.way]);
      NoOtherWeaker(c.lines, lines, c.pc.way, Tag(c.pc.addr));
    }
  }

  lemma NoOtherWeaker(lines: seq<Line>, lines': seq<Line>, way: nat, tag: nat)
    requires |lines| == |lines'| == CACHE_SIZE && (forall k :: 0 <= k < CACHE_SIZE ==> Weaker(lines[k], lines'[k]))
    requires NoOther(lines, way, tag)
    ensures NoOther(lines', way, tag)
  {
    forall k | 0 <= k < CACHE_SIZE && SameSet(k, way) && k != way ensures !Match(lines'[k], tag) {
      assert Weaker(lines[k], lines'[k]) && !Match(lines[k], tag);
    }
  }

  lemma SnoopKeeps(c: Core, req: Request, addr: nat)
    requires CoreOk(c)
    ensures CoreOk(Snoop(c, req, addr))
  {
    SnoopWeakens(c, req, addr);
    WeakerKeeps(c, Snoop(c, req, addr).lines);
  }

  // After a snoop the copy of the line, if any, is as the request leaves it
  lemma SnoopLeaves(c: Core, req: Request, addr: nat, k: nat)
    requires CoreOk(c) && k < CACHE_SIZE && SameSet(k, Index(addr)) && c.lines[k].tag == Tag(addr)
    ensures var l := Snoop(c, req, addr).lines[k];
            if Valid(c.lines[k]) then l == c.lines[k].(state := Snooped(c.lines[k].state, req)) && FoundIn(c, addr) == k
            else !Valid(l)
  {
    var lo, hi := Index(addr), Index(addr) + SET_SIZE;
    SetsAreInBounds(addr, addr);
    FoundIsLast(c.lines, lo, hi, Tag(addr));
    SetMembers(addr, k);
    var r := FoundIn(c, addr);
    if r > -1 {
      SetMembers(addr, r);
      assert NoOther(c.lines, r, Tag(addr));
    }
  }

  lemma SnoopMisses(c: Core, req: Request, addr: nat, k: nat)
    requires Sized(c) && k < CACHE_SIZE && !(SameSet(k, Index(addr)) && c.lines[k].tag == Tag(addr))
    ensures Snoop(c, req, addr).lines[k] == c.lines[k]
  {
    var lo, hi := Index(addr), Index(addr) + SET_SIZE;
    SetsAreInBounds(addr, addr);
    FoundIsLast(c.lines, lo, hi, Tag(addr));
    SetMembers(addr, k);
  }

  // Two caches that snoop the same request still agree
  lemma SnoopsAgree(c: Core, d: Core, req: Request, addr: nat)
    requires CoreOk(c) && CoreOk(d) && Compatible(c, d)
    ensures Compatible(Snoop(c, req, addr), Snoop(d, req, addr))
  {
    var c', d' := Snoop(c, req, addr), Snoop(d, req, addr);
    forall j, k | 0 <= j < CACHE_SIZE && 0 <= k < CACHE_SIZE && SameSet(j, k) ensures Agree(c'.lines[j], d'.lines[k]) {
      assert Agree(c.lines[j], d.lines[k]);
      SnoopOne(c, req, addr, j);
      SnoopOne(d, req, addr, k);
    }
  }

  // Both cases of a snoop at once
  lemma SnoopOne(c: Core, req: Request, addr: nat, k: nat)
    requires CoreOk(c) && k < CACHE_SIZE
    ensures Snoop(c, req, addr).lines[k]
            == if SameSet(k, Index(addr)) && c.lines[k].tag == Tag(addr) && Valid(c.lines[k])
               then c.lines[k].(state := Snooped(c.lines[k].state, req)) else c.lines[k]
  {
    if SameSet(k, Index(addr)) && c.lines[k].tag == Tag(addr) {
      if Valid(c.lines[k]) {
        SnoopLeaves(c, req, addr, k);
      } else {
        SnoopWeakens(c, req, addr);
        SetsAreInBounds(addr, addr);
        FoundIsLast(c.lines, Index(addr), Index(addr) + SET_SIZE, Tag(addr));
      }
    } else {
      SnoopMisses(c, req, addr, k);
    }
  }

  // ---------- The acting cache ----------

  ghost predicate SameCopies(lines: seq<Line>, lines': seq<Line>)
    requires |lines| == |lines'| == CACHE_SIZE
  {
    forall k :: 0 <= k < CACHE_SIZE ==> lines'[k].state == lines[k].state && lines'[k].tag == lines[k].tag
  }

  lemma SameCopiesKeep(lines: seq<Line>, lines': seq<Line>)
    requires |lines| == |lines'| == CACHE_SIZE && SameCopies(lines, lines')
    ensures OneWay(lines) ==> OneWay(lines')
    ensures forall addr, way :: Lacks(lines, addr, way) ==> Lacks(lines', addr, way)
    ensures forall addr, way :: Keeps(lines, addr, way) ==> Keeps(lines', addr, way)
    ensures forall addr, way :: Absent(lines, addr, way) ==> Absent(lines', addr, way)
  {
    forall way, tag | NoOther(lines, way, tag) ensures NoOther(lines', way, tag) {
      forall k | 0 <= k < CACHE_SIZE && SameSet(k, way) && k != way ensures !Match(lines'[k], tag) {
        assert !Match(lines[k], tag);
      }
    }
  }

  lemma LookKeeps(c: Core, func: Func, addr: nat)
    requires CoreOk(c)
    ensures CoreOk(Look(c, func, addr)) && SameCopies(c.lines, Look(c, func, addr).lines)
  {
    var c' := Look(c, func, addr);
    var lo, hi := Index(addr), Index(addr) + SET_SIZE;
    SetsAreInBounds(addr, addr);
    FoundIsLast(c.lines, lo, hi, Tag(addr));
    ChooseIsInSet(c.lines, lo, hi, Tag(addr));
    SameCopiesKeep(c.lines, c'.lines);
    var way := c'.pc.way;
    SetMembers(addr, way);
    assert Lacks(c.lines, addr, way) by {
      forall k | 0 <= k < CACHE_SIZE && SameSet(k, way) && k != way ensures !Match(c.lines[k], Tag(addr)) {
        SetMembers(addr, k);
        if FoundIn(c, addr) > -1 { assert NoOther(c.lines, way, Tag(addr)); }
      }
    }
  }

  lemma {:induction false} ChooseIsInSet(lines: seq<Line>, lo: nat, hi: nat, tag: nat)
    requires lo <= hi <= |lines|
    ensures lo <= Choose(lines, lo, hi, tag).id && (lo < hi ==> Choose(lines, lo, hi, tag).id < hi)
    decreases hi - lo
  {
    if lo < hi { ChooseIsInSet(lines, lo, hi - 1, tag); }
  }

  // A way whose line no other way holds may take any state
  lemma PutKeeps(c: Core, addr: nat, way: nat, l: Line, pc: Pc)
    requires CoreOk(c) && Lacks(c.lines, addr, way) && l.tag == Tag(addr)
    requires pc.Idle? || pc == Claiming(addr, way)
    ensures Sized(c.(lines := c.lines[way := l], pc := pc)) && CoreOk(c.(lines := c.lines[way := l], pc := pc))
  {
    var lines := c.lines[way := l];
    forall k | 0 <= k < CACHE_SIZE && Valid(lines[k]) ensures NoOther(lines, k, lines[k].tag) {
      if k != way { assert NoOther(c.lines, k, c.lines[k].tag); }
    }
  }

  lemma CoreOkIgnores(c: Core, d: Core)
    requires CoreOk(c) && Sized(d) && d.lines == c.lines && d.pc == c.pc
    ensures CoreOk(d)
  {
  }

  // ---------- One step ----------

  lemma AloneKeeps(s: System, i: nat, c: Core)
    requires Coherent(s) && i < |s| && CoreOk(c) && SameCopies(s[i].lines, c.lines)
    ensures Coherent(s[i := c])
  {
    var s' := s[i := c];
    forall a, b | 0 <= a < |s'| && 0 <= b < |s'| && a != b ensures Compatible(s'[a], s'[b]) {
      assert Compatible(s[a], s[b]);
      forall j, k | 0 <= j < CACHE_SIZE && 0 <= k < CACHE_SIZE && SameSet(j, k)
        ensures Agree(s'[a].lines[j], s'[b].lines[k])
      {
        assert Agree(s[a].lines[j], s[b].lines[k]);
      }
    }
  }

  // The tenure leaves c with something that agrees with what the request leaves elsewhere
  lemma TenureKeeps(s: System, i: nat, c: Core, req: Request, addr: nat)
    requires Coherent(s) && i < |s| && CoreOk(c) && Formed(s)
    requires forall d :: 0 <= d < |s| && d != i ==> Compatible(c, Snoop(s[d], req, addr))
    ensures Coherent(Broadcast(s, i, c, req, addr))
  {
    var s' := Broadcast(s, i, c, req, addr);
    forall d | 0 <= d < |s'| ensures CoreOk(s'[d]) { if d != i { SnoopKeeps(s[d], req, addr); } }
    forall a, b | 0 <= a < |s'| && 0 <= b < |s'| && a != b ensures Compatible(s'[a], s'[b]) {
      if a != i && b != i { SnoopsAgree(s[a], s[b], req, addr); }
      else if b == i { CompatibleIsSymmetric(s'[b], s'[a]); }
    }
  }

  lemma CompatibleIsSymmetric(c: Core, d: Core)
    requires Sized(c) && Sized(d) && Compatible(c, d)
    ensures Compatible(d, c)
  {
    forall j, k | 0 <= j < CACHE_SIZE && 0 <= k < CACHE_SIZE && SameSet(j, k) ensures Agree(d.lines[j], c.lines[k]) {
      assert Agree(c.lines[k], d.lines[j]);
    }
  }

  // The ways of c that are as before agree with what is left of d; way must be looked at
  lemma RestAgrees(c: Core, c': Core, d: Core, req: Request, addr: nat, way: nat)
    requires CoreOk(c) && CoreOk(d) && Sized(c') && Compatible(c, d)
    requires way < CACHE_SIZE && forall k :: 0 <= k < CACHE_SIZE && k != way ==> c'.lines[k] == c.lines[k]
    requires forall k :: 0 <= k < CACHE_SIZE && SameSet(k, way) ==> Agree(c'.lines[way], Snoop(d, req, addr).lines[k])
    ensures Compatible(c', Snoop(d, req, addr))
  {
    var d' := Snoop(d, req, addr);
    forall j, k | 0 <= j < CACHE_SIZE && 0 <= k < CACHE_SIZE && SameSet(j, k) ensures Agree(c'.lines[j], d'.lines[k]) {
      if j != way {
        assert Agree(c.lines[j], d.lines[k]);
        SnoopOne(d, req, addr, k);
      }
    }
  }

  lemma ClaimKeeps(s: System, i: nat, c: Core, addr: nat, way: nat, filled: bool, granted: bool)
    requires Coherent(s) && i < |s| && Formed(s)
    requires CoreOk(c) && SameCopies(s[i].lines, c.lines) && Keeps(c.lines, addr, way)
    ensures Coherent(Claim(s, i, c, addr, way, filled, granted))
  {
    if granted {
      GrantKeeps(s, i, c, addr, way);
    } else {
      AloneKeeps(s, i, c.(pc := Refused(addr, way, filled)));
    }
  }

  lemma GrantKeeps(s: System, i: nat, c: Core, addr: nat, way: nat)
    requires Coherent(s) && i < |s| && Formed(s)
    requires CoreOk(c) && SameCopies(s[i].lines, c.lines) && Keeps(c.lines, addr, way)
    ensures Coherent(Broadcast(s, i, SetState(c, way, Modified).(pc := Idle), Invalidate, addr))
  {
    var c' := SetState(c, way, Modified).(pc := Idle);
    PutKeeps(c, addr, way, c.lines[way].(state := Modified), Idle);
    AloneKeeps(s, i, c);
    forall d | 0 <= d < |s| && d != i ensures Compatible(c', Snoop(s[d], Invalidate, addr)) {
      assert Compatible(s[i := c][i], s[i := c][d]) && CoreOk(s[d]);
      forall k | 0 <= k < CACHE_SIZE && SameSet(k, way)
        ensures Agree(c'.lines[way], Snoop(s[d], Invalidate, addr).lines[k])
      {
        SnoopOne(s[d], Invalidate, addr, k);
      }
      RestAgrees(c, c', s[d], Invalidate, addr, way);
    }
    TenureKeeps(s, i, c', Invalidate, addr);
  }

  lemma EvictKeeps(s: System, i: nat, func: Func, addr: nat, way: nat, granted: bool)
    requires Coherent(s) && i < |s| && Formed(s) && Absent(s[i].lines, addr, way)
    ensures Coherent(Evict(s, i, func, addr, way, granted))
  {
    var c := s[i];
    var c' := c.(pc := Filling(func, addr, way));
    if !Dirty(c.lines[way]) {
      AloneKeeps(s, i, c');
    } else if granted {
      var wb := WriteBackAddress(c.lines[way].tag, addr);
      forall d | 0 <= d < |s| && d != i ensures Compatible(c', Snoop(s[d], Invalidate, wb)) {
        assert Compatible(c, s[d]) && CoreOk(s[d]);
        forall k | 0 <= k < CACHE_SIZE && SameSet(k, way)
          ensures Agree(c'.lines[way], Snoop(s[d], Invalidate, wb).lines[k])
        {
          assert Agree(c.lines[way], s[d].lines[k]);
          SnoopOne(s[d], Invalidate, wb, k);
        }
        RestAgrees(c, c', s[d], Invalidate, wb, way);
      }
      TenureKeeps(s, i, c', Invalidate, wb);
    } else {
      AloneKeeps(s, i, c.(pc := WriteRefused(func, addr, way)));
    }
  }

  lemma FillKeeps(s: System, i: nat, func: Func, addr: nat, way: nat)
    requires Coherent(s) && i < |s| && Formed(s) && Lacks(s[i].lines, addr, way)
    ensures Coherent(Broadcast(s, i, Fill(s[i], func, addr, way, Answered(s, i, addr)), Fetch, addr / 32 * 32))
  {
    var c, base := s[i], addr / 32 * 32;
    var c' := Fill(c, func, addr, way, Answered(s, i, addr));
    PlaceIsInjective(addr, base);
    PutKeeps(c, addr, way, c'.lines[way], c'.pc);
    CoreOkIgnores(c.(lines := c.lines[way := c'.lines[way]], pc := c'.pc), c');
    forall d | 0 <= d < |s| && d != i ensures Compatible(c', Snoop(s[d], Fetch, base)) {
      assert Compatible(c, s[d]) && CoreOk(s[d]);
      forall k | 0 <= k < CACHE_SIZE && SameSet(k, way)
        ensures Agree(c'.lines[way], Snoop(s[d], Fetch, base).lines[k])
      {
        SnoopOne(s[d], Fetch, base, k);
        if Match(s[d].lines[k], Tag(addr)) { SnoopLeaves(s[d], Fetch, addr, k); }
      }
      RestAgrees(c, c', s[d], Fetch, base, way);
    }
    TenureKeeps(s, i, c', Fetch, base);
  }

  lemma StepKeeps(s: System, a: Action)
    requires Coherent(s) && Formed(s) && Enabled(s, a)
    ensures Coherent(Apply(s, a)) && Formed(Apply(s, a))
  {
    var c := s[a.c];
    assert CoreOk(c);
    if a.Requests? {
      AloneKeeps(s, a.c, c.(pc := Looking(a.func, a.addr)));
    } else {
      ActKeeps(s, a.c, a.granted);
    }
    FormedWhenCoherent(Apply(s, a));
  }

  lemma ActKeeps(s: System, i: nat, granted: bool)
    requires Coherent(s) && Formed(s) && i < |s| && !s[i].pc.Idle?
    ensures Coherent(Apply(s, Acts(i, granted)))
  {
    var c := s[i];
    assert CoreOk(c);
    match c.pc
    case Looking(func, addr) =>
      LookKeeps(c, func, addr);
      AloneKeeps(s, i, Look(c, func, addr));
    case Hit(func, addr, way) => UseKeeps(s, i, func, addr, way, granted);
    case Reading(addr, way) => AloneKeeps(s, i, EndRead(c, addr, way));
    case Claiming(addr, way) => ClaimKeeps(s, i, c, addr, way, true, granted);
    case Refused(addr, way, filled) =>
      if c.lines[way].state.Invalid? {
        AloneKeeps(s, i, c.(pc := if filled then Filling(Write, addr, way) else Looking(Write, addr)));
      } else {
        ClaimKeeps(s, i, c, addr, way, filled, granted);
      }
    case Miss(func, addr, way) => EvictKeeps(s, i, func, addr, way, granted);
    case WriteRefused(func, addr, way) => EvictKeeps(s, i, func, addr, way, granted);
    case Filling(func, addr, way) => FillKeeps(s, i, func, addr, way);
  }

  lemma UseKeeps(s: System, i: nat, func: Func, addr: nat, way: nat, granted: bool)
    requires Coherent(s) && Formed(s) && i < |s| && s[i].pc == Hit(func, addr, way)
    ensures Coherent(Use(s, i, func, addr, way, granted))
  {
    var c := Touch(s[i], way, s[i].lines[way]);
    assert CoreOk(s[i]);
    SameCopiesKeep(s[i].lines, c.lines);
    if func.Read? { AloneKeeps(s, i, c.(pc := Reading(addr, way))); }
    else { ClaimKeeps(s, i, c, addr, way, false, granted); }
  }

  lemma InitialIsCoherent(s: System)
    requires Initial(s)
    ensures Coherent(s) && Formed(s)
  {
    forall c | 0 <= c < |s| ensures CoreOk(s[c]) { assert Empty(s[c]); }
    forall c, d | 0 <= c < |s| && 0 <= d < |s| && c != d ensures Compatible(s[c], s[d]) { assert Empty(s[c]); }
    FormedWhenCoherent(s);
  }

  lemma {:induction false} RunKeeps(s: System, actions: seq<Action>)
    requires Coherent(s) && Formed(s) && Runs(s, actions)
    ensures Coherent(After(s, actions))
    decreases |actions|
  {
    if |actions| > 0 {
      StepKeeps(s, actions[0]);
      RunKeeps(Apply(s, actions[0]), actions[1..]);
    }
  }

  // ---------- The claims ----------

  // The state of the copy of the line at addr
  function CopyState(c: Core, addr: nat): State
    requires Sized(c)
  {
    var r := FoundIn(c, addr);
    if r > -1 then WayFound(c, addr); c.lines[r].state else Invalid
  }

  lemma WayFound(c: Core, addr: nat)
    requires Sized(c)
    ensures var r := FoundIn(c, addr);
            r > -1 ==> r < CACHE_SIZE && SameSet(r, Index(addr)) && Match(c.lines[r], Tag(addr))
  {
    SetsAreInBounds(addr, addr);
    FoundIsLast(c.lines, Index(addr), Index(addr) + SET_SIZE, Tag(addr));
    if FoundIn(c, addr) > -1 { SetMembers(addr, FoundIn(c, addr)); }
  }

  // In every reachable state: a modified or exclusive copy is the only copy, and at most one copy is owned
  lemma Coherence(s0: System, actions: seq<Action>, c: nat, d: nat, addr: nat)
    requires Initial(s0) && Runs(s0, actions)
    requires c < |After(s0, actions)| && d < |After(s0, actions)| && c != d
    ensures var s := After(s0, actions);
            && Formed(s)
            && (CopyState(s[c], addr) in {Modified, Exclusive} ==> CopyState(s[d], addr) == Invalid)
            && (CopyState(s[c], addr) == Owned ==> CopyState(s[d], addr) in {Invalid, Shared})
  {
    InitialIsCoherent(s0);
    RunKeeps(s0, actions);
    CopiesAgree(After(s0, actions), c, d, addr);
  }

  lemma CopiesAgree(s: System, c: nat, d: nat, addr: nat)
    requires Coherent(s) && c < |s| && d < |s| && c != d
    ensures Formed(s)
    ensures CopyState(s[c], addr) in {Modified, Exclusive} ==> CopyState(s[d], addr) == Invalid
    ensures CopyState(s[c], addr) == Owned ==> CopyState(s[d], addr) in {Invalid, Shared}
  {
    FormedWhenCoherent(s);
    WayFound(s[c], addr);
    WayFound(s[d], addr);
    var j, k := FoundIn(s[c], addr), FoundIn(s[d], addr);
    if j > -1 && k > -1 { assert Compatible(s[c], s[d]) && Agree(s[c].lines[j], s[d].lines[k]); }
  }

  // In every reachable state a cache holds a line in at most one way, whatever was snooped meanwhile
  lemma OneWayPerLine(s0: System, actions: seq<Action>, c: nat, addr: nat, j: nat, k: nat)
    requires Initial(s0) && Runs(s0, actions)
    requires c < |After(s0, actions)| && j < CACHE_SIZE && k < CACHE_SIZE
    requires InSet(j, addr) && InSet(k, addr)
    ensures var s := After(s0, actions);
            && Formed(s)
            && (Match(s[c].lines[j], Tag(addr)) && Match(s[c].lines[k], Tag(addr)) ==> j == k)
  {
    InitialIsCoherent(s0);
    RunKeeps(s0, actions);
    var s := After(s0, actions);
    FormedWhenCoherent(s);
    SetMembers(addr, j);
    SetMembers(addr, k);
    assert CoreOk(s[c]);
    if Match(s[c].lines[j], Tag(addr)) { assert NoOther(s[c].lines, j, Tag(addr)); }
  }

  // Every write-back, in every reachable state, goes to the address of the victim's own line
  lemma WritesBackItsOwnLine(s0: System, actions: seq<Action>, i: nat)
    requires Initial(s0) && Runs(s0, actions) && i < |After(s0, actions)|
    requires After(s0, actions)[i].pc.Miss? || After(s0, actions)[i].pc.WriteRefused?
    ensures var s := After(s0, actions);
            var pc := s[i].pc;
            && Formed(s)
            && var wb := WriteBackAddress(s[i].lines[pc.way].tag, pc.addr);
               wb % 32 == 0 && InSet(pc.way, wb) && Tag(wb) == s[i].lines[pc.way].tag
  {
    InitialIsCoherent(s0);
    RunKeeps(s0, actions);
    var s := After(s0, actions);
    FormedWhenCoherent(s);
    assert CoreOk(s[i]);
    WriteBackIsExact(s[i].lines[s[i].pc.way].tag, s[i].pc.addr);
    SetMembers(s[i].pc.addr, s[i].pc.way);
  }
}
