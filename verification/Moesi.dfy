/**
 Any number of MOESI caches on one bus. A step is what one cache does between two waits, or one tenure of the
 bus with its delivery to every other cache; a miss's READ, the replies and the fill are one step, so the
 REQUESTED state is never seen between steps. `granted` says whether a try for the bus succeeds.

 age, used and clock are history: no transition reads them.
 */
module Moesi {
  import opened CacheLines

  datatype Func = Read | Write

  // Where the execute thread of a cache is
  datatype Pc =
    | Idle                                          // waiting for the processor
    | Looking(func: Func, addr: nat)                // about to scan the set
    | Hit(func: Func, addr: nat, way: nat)          // found, one cycle ago
    | Reading(addr: nat, way: nat)                  // read hit, half a cycle later
    | Claiming(addr: nat, way: nat)                 // filled for a write, about to invalidate the other copies
    | Refused(addr: nat, way: nat, filled: bool)    // a try to invalidate them has failed
    | Miss(func: Func, addr: nat, way: nat)         // not found, one cycle ago; way is the victim
    | WriteRefused(func: Func, addr: nat, way: nat) // a try to write the victim back has failed
    | Filling(func: Func, addr: nat, way: nat)      // the victim may be overwritten

  // age: scans of its set that passed over the way since its last use; used: the clock at its last use, 0 for never
  datatype Core = Core(lines: seq<Line>, pc: Pc, age: seq<nat>, used: seq<nat>, clock: nat)

  predicate Sized(c: Core) {
    |c.lines| == |c.age| == |c.used| == CACHE_SIZE
  }

  function FoundIn(c: Core, addr: nat): int
    requires Sized(c)
  {
    SetsAreInBounds(addr, addr);
    Found(c.lines, Index(addr), Index(addr) + SET_SIZE, Tag(addr))
  }

  function VictimIn(c: Core, addr: nat): nat
    requires Sized(c)
  {
    SetsAreInBounds(addr, addr);
    Choose(c.lines, Index(addr), Index(addr) + SET_SIZE, Tag(addr)).id
  }

  predicate InSet(k: nat, addr: nat) { Index(addr) <= k < Index(addr) + SET_SIZE }

  predicate SameSet(j: nat, k: nat) { j / SET_SIZE == k / SET_SIZE }

  predicate Dirty(l: Line) { l.state.Modified? || l.state.Owned? }

  // ---------- What one cache does alone ----------

  function Scan(c: Core, addr: nat): Core
    requires Sized(c)
  {
    SetsAreInBounds(addr, addr);
    c.(lines := Aged(c.lines, Index(addr), Index(addr) + SET_SIZE, Tag(addr)),
       age := seq(CACHE_SIZE, k requires 0 <= k < CACHE_SIZE =>
                if InSet(k, addr) && !Match(c.lines[k], Tag(addr)) then c.age[k] + 1 else c.age[k]))
  }

  // The way is used now
  function Touch(c: Core, way: nat, l: Line): Core
    requires Sized(c) && way < CACHE_SIZE
  {
    c.(lines := c.lines[way := l.(counter := MAX_COUNTER)], age := c.age[way := 0],
       used := c.used[way := c.clock + 1], clock := c.clock + 1)
  }

  function SetState(c: Core, way: nat, state: State): Core
    requires Sized(c) && way < CACHE_SIZE
  {
    c.(lines := c.lines[way := c.lines[way].(state := state)])
  }

  // ---------- What a cache does when it snoops ----------

  datatype Request = Invalidate | Fetch

  function Snooped(state: State, req: Request): State {
    if req.Invalidate? then Invalid
    else if state.Modified? then Owned
    else if state.Exclusive? then Shared
    else state
  }

  // FUNC_WRITE and FUNC_INVALIDATE invalidate the copy; FUNC_READ shares it
  function Snoop(c: Core, req: Request, addr: nat): (c': Core)
    requires Sized(c)
    ensures Sized(c')
  {
    var r := FoundIn(c, addr);
    SetsAreInBounds(addr, addr);
    FoundIsLast(c.lines, Index(addr), Index(addr) + SET_SIZE, Tag(addr));
    if r > -1 then SetState(c, r, Snooped(c.lines[r].state, req)) else c
  }

  // ---------- The system ----------

  type System = seq<Core>

  predicate Formed(s: System) {
    forall c :: 0 <= c < |s| ==> Sized(s[c]) && (!s[c].pc.Idle? && !s[c].pc.Looking? ==> s[c].pc.way < CACHE_SIZE)
  }

  // A bus tenure of cache c, which then is as given
  function Broadcast(s: System, c: nat, core: Core, req: Request, addr: nat): System
    requires Formed(s) && c < |s|
  {
    seq(|s|, d requires 0 <= d < |s| => if d == c then core else Snoop(s[d], req, addr))
  }

  // Some other cache answers a READ
  predicate Answered(s: System, c: nat, addr: nat)
    requires Formed(s)
  {
    exists d :: 0 <= d < |s| && d != c && FoundIn(s[d], addr) > -1
  }

  datatype Action =
    | Requests(c: nat, func: Func, addr: nat)
    | Acts(c: nat, granted: bool)

  predicate Enabled(s: System, a: Action) {
    && a.c < |s|
    && (a.Requests? <==> s[a.c].pc.Idle?)
  }

  function Apply(s: System, a: Action): System
    requires Formed(s) && Enabled(s, a)
  {
    var c := s[a.c];
    match a
    case Requests(_, func, addr) => s[a.c := c.(pc := Looking(func, addr))]
    case Acts(i, granted) =>
      match c.pc
      case Looking(func, addr) => s[i := Look(c, func, addr)]
      case Hit(func, addr, way) => Use(s, i, func, addr, way, granted)
      case Reading(addr, way) => s[i := EndRead(c, addr, way)]
      case Claiming(addr, way) => Claim(s, i, c, addr, way, true, granted)
      case Refused(addr, way, filled) =>
        if c.lines[way].state.Invalid?
        then s[i := c.(pc := if filled then Filling(Write, addr, way) else Looking(Write, addr))]
        else Claim(s, i, c, addr, way, filled, granted)
      case Miss(func, addr, way) => Evict(s, i, func, addr, way, granted)
      case WriteRefused(func, addr, way) => Evict(s, i, func, addr, way, granted)
      case Filling(func, addr, way) =>
        Broadcast(s, i, Fill(c, func, addr, way, Answered(s, i, addr)), Fetch, addr / 32 * 32)
  }

  function Look(c: Core, func: Func, addr: nat): Core
    requires Sized(c)
  {
    var r := FoundIn(c, addr);
    Scan(c, addr).(pc := if r > -1 then Hit(func, addr, r) else Miss(func, addr, VictimIn(c, addr)))
  }

  // A hit. The copy may have been invalidated since the scan; a write does not look again before its first try
  function Use(s: System, i: nat, func: Func, addr: nat, way: nat, granted: bool): System
    requires Formed(s) && i < |s| && way < CACHE_SIZE
  {
    var c := Touch(s[i], way, s[i].lines[way]);
    if func.Read? then s[i := c.(pc := Reading(addr, way))] else Claim(s, i, c, addr, way, false, granted)
  }

  // A try to invalidate the other copies; c is the cache i as it stands
  function Claim(s: System, i: nat, c: Core, addr: nat, way: nat, filled: bool, granted: bool): System
    requires Formed(s) && i < |s| && Sized(c) && way < CACHE_SIZE
  {
    if granted then Broadcast(s, i, SetState(c, way, Modified).(pc := Idle), Invalidate, addr)
    else s[i := c.(pc := Refused(addr, way, filled))]
  }

  // The copy may have been invalidated meanwhile
  function EndRead(c: Core, addr: nat, way: nat): Core
    requires Sized(c) && way < CACHE_SIZE
  {
    c.(pc := if c.lines[way].state.Invalid? then Looking(Read, addr) else Idle)
  }

  // A dirty victim is written back first; a try that fails is made again only while the victim is still dirty
  function Evict(s: System, i: nat, func: Func, addr: nat, way: nat, granted: bool): System
    requires Formed(s) && i < |s| && way < CACHE_SIZE
  {
    var c := s[i];
    if !Dirty(c.lines[way]) then s[i := c.(pc := Filling(func, addr, way))]
    else if granted then
      Broadcast(s, i, c.(pc := Filling(func, addr, way)), Invalidate, WriteBackAddress(c.lines[way].tag, addr))
    else s[i := c.(pc := WriteRefused(func, addr, way))]
  }

  // A write needs no claim when no other cache has answered
  function Fill(c: Core, func: Func, addr: nat, way: nat, answered: bool): Core
    requires Sized(c) && way < CACHE_SIZE
  {
    var state := if answered then Shared else if func.Write? then Modified else Exclusive;
    var c1 := Touch(c, way, Line(MAX_COUNTER, state, Tag(addr)));
    c1.(pc := if func.Write? && answered then Claiming(addr, way) else Idle)
  }

  ghost predicate Runs(s: System, actions: seq<Action>)
    decreases |actions|
  {
    |actions| > 0 ==> Formed(s) && Enabled(s, actions[0]) && Runs(Apply(s, actions[0]), actions[1..])
  }

  function After(s: System, actions: seq<Action>): System
    requires Runs(s, actions)
    decreases |actions|
  {
    if |actions| == 0 then s else After(Apply(s, actions[0]), actions[1..])
  }

  // Nothing cached yet
  predicate Empty(c: Core) {
    && Sized(c) && c.pc.Idle? && c.clock == 0
    && forall k :: 0 <= k < CACHE_SIZE ==>
         c.lines[k] == Line(0, Invalid, 0) && c.age[k] == MAX_COUNTER && c.used[k] == 0
  }

  predicate Initial(s: System) {
    forall c :: 0 <= c < |s| ==> Empty(s[c])
  }
}
