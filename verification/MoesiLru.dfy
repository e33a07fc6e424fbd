/** The ageing counters choose the least recently used way of the set, until they run out. */
module MoesiLru {
  import opened CacheLines
  import opened Moesi
  import opened MoesiSafety

  // What ageing leaves of the counter that a use sets
  function Left(age: nat): int { if age >= MAX_COUNTER then 0 else MAX_COUNTER - age }

  // Of two ways of a set, the one used longer ago is the older one; a way just found is about to be used
  predicate Ranked(c: Core, j: nat, k: nat)
    requires Sized(c) && j < CACHE_SIZE && k < CACHE_SIZE
  {
    SameSet(j, k) && !(c.pc.Hit? && (c.pc.way == j || c.pc.way == k)) && c.used[j] < c.used[k] ==> c.age[j] > c.age[k]
  }

  predicate AtWork(pc: Pc) { !pc.Idle? && !pc.Looking? }

  ghost predicate Aging(c: Core) {
    && Sized(c)
    && (forall k :: 0 <= k < CACHE_SIZE ==> c.lines[k].counter == Left(c.age[k]))
    && (forall k :: 0 <= k < CACHE_SIZE ==> c.used[k] <= c.clock && (Valid(c.lines[k]) ==> c.used[k] > 0))
    && (forall j, k :: 0 <= j < k < CACHE_SIZE && c.used[j] == c.used[k] ==> c.used[j] == 0)
    && (forall j, k :: 0 <= j < CACHE_SIZE && 0 <= k < CACHE_SIZE ==> Ranked(c, j, k))
    && (AtWork(c.pc) ==> c.pc.way < CACHE_SIZE && OthersAged(c, c.pc.way))
    && (c.pc.Hit? || c.pc.Reading? || c.pc.Claiming? || c.pc.Refused? ==> c.used[c.pc.way] > 0)
  }

  // The scan before has passed over every other way of the set
  ghost predicate OthersAged(c: Core, way: nat)
    requires Sized(c)
  {
    forall k :: 0 <= k < CACHE_SIZE && SameSet(k, way) && k != way ==> c.age[k] > 0
  }

  lemma SnoopAges(c: Core, req: Request, addr: nat)
    requires Aging(c)
    ensures Aging(Snoop(c, req, addr))
  {
    var c' := Snoop(c, req, addr);
    SnoopWeakens(c, req, addr);
    forall k | 0 <= k < CACHE_SIZE
      ensures c'.lines[k].counter == Left(c'.age[k]) && (Valid(c'.lines[k]) ==> c'.used[k] > 0)
    {
      assert Weaker(c.lines[k], c'.lines[k]);
    }
    forall j, k | 0 <= j < CACHE_SIZE && 0 <= k < CACHE_SIZE ensures Ranked(c', j, k) { assert Ranked(c, j, k); }
  }

  lemma LookAges(c: Core, func: Func, addr: nat)
    requires CoreOk(c) && Aging(c) && c.pc == Looking(func, addr)
    ensures Aging(Look(c, func, addr))
  {
    var c' := Look(c, func, addr);
    var way := c'.pc.way;
    LookKeeps(c, func, addr);
    forall k | 0 <= k < CACHE_SIZE
      ensures c'.age[k] == if SameSet(k, way) && !Match(c.lines[k], Tag(addr)) then c.age[k] + 1 else c.age[k]
    {
      SetMembers(addr, k);
    }
    LookFinds(c, func, addr);
    forall j, k | 0 <= j < CACHE_SIZE && 0 <= k < CACHE_SIZE ensures Ranked(c', j, k) { assert Ranked(c, j, k); }
    forall k | 0 <= k < CACHE_SIZE ensures c'.lines[k].counter == Left(c'.age[k]) { SetMembers(addr, k); }
  }

  // Only the way found holds the tag
  lemma LookFinds(c: Core, func: Func, addr: nat)
    requires CoreOk(c)
    ensures var pc := Look(c, func, addr).pc;
            && pc.way < CACHE_SIZE && SameSet(pc.way, Index(addr))
            && (pc.Hit? ==> Match(c.lines[pc.way], Tag(addr)))
            && forall k :: 0 <= k < CACHE_SIZE && SameSet(k, pc.way) && Match(c.lines[k], Tag(addr)) ==>
                 pc.Hit? && k == pc.way
  {
    var way := Look(c, func, addr).pc.way;
    LookKeeps(c, func, addr);
    WayFound(c, addr);
    SetsAreInBounds(addr, addr);
    FoundIsLast(c.lines, Index(addr), Index(addr) + SET_SIZE, Tag(addr));
    forall k | 0 <= k < CACHE_SIZE && SameSet(k, way) && Match(c.lines[k], Tag(addr)) ensures FoundIn(c, addr) == k {
      SetMembers(addr, k);
      assert NoOther(c.lines, k, Tag(addr));
    }
  }

  lemma TouchAges(c: Core, way: nat, l: Line, pc: Pc)
    requires Aging(c) && AtWork(c.pc) && c.pc.way == way
    requires !pc.Hit? && (AtWork(pc) ==> pc.way == way)
    ensures Aging(Touch(c, way, l).(pc := pc))
  {
    var c' := Touch(c, way, l).(pc := pc);
    forall j, k | 0 <= j < CACHE_SIZE && 0 <= k < CACHE_SIZE ensures Ranked(c', j, k) { assert Ranked(c, j, k); }
  }

  lemma SetStateAges(c: Core, way: nat, state: State, pc: Pc)
    requires Aging(c) && AtWork(c.pc) && c.pc.way == way && c.used[way] > 0 && !c.pc.Hit? && pc.Idle?
    ensures Aging(SetState(c, way, state).(pc := pc))
  {
    var c' := SetState(c, way, state).(pc := pc);
    forall j, k | 0 <= j < CACHE_SIZE && 0 <= k < CACHE_SIZE ensures Ranked(c', j, k) { assert Ranked(c, j, k); }
  }

  lemma PcAges(c: Core, pc: Pc)
    requires Aging(c) && !c.pc.Hit? && !pc.Hit? && (AtWork(pc) ==> AtWork(c.pc) && pc.way == c.pc.way)
    requires pc.Claiming? || pc.Reading? || pc.Refused? ==> c.pc.Claiming? || c.pc.Refused?
    ensures Aging(c.(pc := pc))
  {
    forall j, k | 0 <= j < CACHE_SIZE && 0 <= k < CACHE_SIZE
      ensures Ranked(c.(pc := pc), j, k)
    {
      assert Ranked(c, j, k);
    }
  }

  ghost predicate AllAging(s: System) {
    forall c :: 0 <= c < |s| ==> Aging(s[c])
  }

  lemma TenureAges(s: System, i: nat, c: Core, req: Request, addr: nat)
    requires AllAging(s) && Formed(s) && i < |s| && Aging(c)
    ensures AllAging(Broadcast(s, i, c, req, addr))
  {
    forall d | 0 <= d < |s| && d != i ensures Aging(Snoop(s[d], req, addr)) { SnoopAges(s[d], req, addr); }
  }

  lemma StepAges(s: System, a: Action)
    requires Coherent(s) && Formed(s) && AllAging(s) && Enabled(s, a)
    ensures AllAging(Apply(s, a))
  {
    if a.Requests? {
      assert Aging(s[a.c]);
      PcAges(s[a.c], Looking(a.func, a.addr));
    } else {
      ActAges(s, a.c, a.granted);
    }
  }

  lemma ActAges(s: System, i: nat, granted: bool)
    requires Coherent(s) && Formed(s) && AllAging(s) && i < |s| && !s[i].pc.Idle?
    ensures AllAging(Apply(s, Acts(i, granted)))
  {
    hide Aging;
    var c := s[i];
    assert CoreOk(c) && Aging(c);
    match c.pc
    case Looking(func, addr) => LookAges(c, func, addr);
    case Hit(func, addr, way) => UseAges(s, i, func, addr, way, granted);
    case Reading(addr, way) => PcAges(c, EndRead(c, addr, way).pc);
    case Claiming(addr, way) => ClaimAges(s, i, c, addr, way, true, granted);
    case Refused(addr, way, filled) =>
      if c.lines[way].state.Invalid? {
        PcAges(c, if filled then Filling(Write, addr, way) else Looking(Write, addr));
      } else {
        ClaimAges(s, i, c, addr, way, filled, granted);
      }
    case Miss(func, addr, way) => EvictAges(s, i, func, addr, way, granted);
    case WriteRefused(func, addr, way) => EvictAges(s, i, func, addr, way, granted);
    case Filling(func, addr, way) =>
      var c' := Fill(c, func, addr, way, Answered(s, i, addr));
      TouchAges(c, way, c'.lines[way], c'.pc);
      TenureAges(s, i, c', Fetch, addr / 32 * 32);
  }

  lemma UseAges(s: System, i: nat, func: Func, addr: nat, way: nat, granted: bool)
    requires Formed(s) && AllAging(s) && i < |s| && s[i].pc == Hit(func, addr, way)
    ensures AllAging(Use(s, i, func, addr, way, granted))
  {
    assert Aging(s[i]);
    var pc := if func.Read? then Reading(addr, way) else Refused(addr, way, false);
    var c := Touch(s[i], way, s[i].lines[way]).(pc := pc);
    TouchAges(s[i], way, s[i].lines[way], pc);
    if func.Write? { ClaimAges(s, i, c, addr, way, false, granted); }
  }

  lemma ClaimAges(s: System, i: nat, c: Core, addr: nat, way: nat, filled: bool, granted: bool)
    requires Formed(s) && AllAging(s) && i < |s| && Aging(c)
    requires (c.pc.Claiming? || c.pc.Refused?) && c.pc.way == way
    ensures forall pc :: AllAging(Claim(s, i, c.(pc := pc), addr, way, filled, granted))
  {
    SetStateAges(c, way, Modified, Idle);
    TenureAges(s, i, SetState(c, way, Modified).(pc := Idle), Invalidate, addr);
    PcAges(c, Refused(addr, way, filled));
    forall pc ensures AllAging(Claim(s, i, c.(pc := pc), addr, way, filled, granted)) {
      assert Claim(s, i, c.(pc := pc), addr, way, filled, granted) == Claim(s, i, c, addr, way, filled, granted);
    }
  }

  lemma EvictAges(s: System, i: nat, func: Func, addr: nat, way: nat, granted: bool)
    requires Formed(s) && AllAging(s) && i < |s| && (s[i].pc.Miss? || s[i].pc.WriteRefused?) && s[i].pc.way == way
    ensures AllAging(Evict(s, i, func, addr, way, granted))
  {
    var c := s[i];
    PcAges(c, Filling(func, addr, way));
    PcAges(c, WriteRefused(func, addr, way));
    TenureAges(s, i, c.(pc := Filling(func, addr, way)), Invalidate, WriteBackAddress(c.lines[way].tag, addr));
  }

  lemma {:induction false} RunAges(s: System, actions: seq<Action>)
    requires Coherent(s) && Formed(s) && AllAging(s) && Runs(s, actions)
    ensures AllAging(After(s, actions))
    decreases |actions|
  {
    if |actions| > 0 {
      StepKeeps(s, actions[0]);
      StepAges(s, actions[0]);
      RunAges(Apply(s, actions[0]), actions[1..]);
    }
  }

  // ---------- The claims ----------

  lemma ReachedAges(s0: System, actions: seq<Action>)
    requires Initial(s0) && Runs(s0, actions)
    ensures Coherent(After(s0, actions)) && Formed(After(s0, actions)) && AllAging(After(s0, actions))
  {
    InitialIsCoherent(s0);
    forall c | 0 <= c < |s0| ensures Aging(s0[c]) { assert Empty(s0[c]); }
    RunKeeps(s0, actions);
    FormedWhenCoherent(After(s0, actions));
    RunAges(s0, actions);
  }

  // In every reachable state every counter is 2049 less the scans since the last use, and not less than 0
  lemma CountersTellAge(s0: System, actions: seq<Action>, c: nat, k: nat)
    requires Initial(s0) && Runs(s0, actions) && c < |After(s0, actions)| && k < CACHE_SIZE
    ensures var core := After(s0, actions)[c]; Sized(core) && core.lines[k].counter == Left(core.age[k])
  {
    ReachedAges(s0, actions);
    assert Aging(After(s0, actions)[c]);
  }

  // v is the last invalid way of the set if there is one; else the way used longest ago while its counter
  // has not run out; else the first way whose counter has run out
  ghost predicate RightVictim(c: Core, addr: nat, v: nat) {
    && Sized(c) && v < CACHE_SIZE && InSet(v, addr) && Index(addr) + SET_SIZE <= CACHE_SIZE
    && if !Valid(c.lines[v]) then forall k: nat :: v < k && InSet(k, addr) ==> Valid(c.lines[k])
       else && (forall k: nat :: InSet(k, addr) ==> Valid(c.lines[k]))
            && if c.age[v] < MAX_COUNTER then forall k: nat :: InSet(k, addr) && k != v ==> c.used[v] < c.used[k]
               else forall k: nat :: InSet(k, addr) && k < v ==> c.age[k] < MAX_COUNTER
  }

  lemma EvictsLeastRecentlyUsed(s0: System, actions: seq<Action>, c: nat, granted: bool)
    requires Initial(s0) && Runs(s0, actions) && c < |After(s0, actions)| && After(s0, actions)[c].pc.Looking?
    ensures var s := After(s0, actions);
            && Formed(s)
            && var pc' := Apply(s, Acts(c, granted))[c].pc;
               pc'.Miss? ==> RightVictim(s[c], s[c].pc.addr, pc'.way)
  {
    ReachedAges(s0, actions);
    FormedWhenCoherent(After(s0, actions));
    var core := After(s0, actions)[c];
    assert CoreOk(core) && Aging(core);
    WayFound(core, core.pc.addr);
    if FoundIn(core, core.pc.addr) < 0 {
      FoundIsLast(core.lines, Index(core.pc.addr), Index(core.pc.addr) + SET_SIZE, Tag(core.pc.addr));
      VictimIsRight(core, core.pc.func, core.pc.addr);
    }
  }

  lemma VictimIsRight(c: Core, func: Func, addr: nat)
    requires CoreOk(c) && Aging(c) && c.pc == Looking(func, addr) && FoundIn(c, addr) == -1
    ensures RightVictim(c, addr, VictimIn(c, addr))
  {
    var v := VictimIn(c, addr);
    VictimIsOldest(c, addr);
    if Valid(c.lines[v]) && c.age[v] < MAX_COUNTER {
      forall k: nat | InSet(k, addr) && k != v ensures c.used[v] < c.used[k] {
        SetMembers(addr, k);
        SetMembers(addr, v);
        assert Ranked(c, k, v) && c.lines[k].counter == Left(c.age[k]) && c.lines[v].counter == Left(c.age[v]);
      }
    }
  }

  lemma VictimIsOldest(c: Core, addr: nat)
    requires Aging(c) && FoundIn(c, addr) == -1
    ensures var v := VictimIn(c, addr);
            && InSet(v, addr) && Index(addr) + SET_SIZE <= CACHE_SIZE
            && (if Valid(c.lines[v])
                then forall k: nat :: InSet(k, addr) ==>
                       && Valid(c.lines[k]) && c.lines[v].counter <= c.lines[k].counter
                       && (k < v ==> c.lines[v].counter < c.lines[k].counter)
                else forall k: nat :: v < k && InSet(k, addr) ==> Valid(c.lines[k]))
  {
    var lo, hi := Index(addr), Index(addr) + SET_SIZE;
    SetsAreInBounds(addr, addr);
    FoundIsLast(c.lines, lo, hi, Tag(addr));
    ChooseIsOldest(c.lines, lo, hi, Tag(addr));
  }
}
