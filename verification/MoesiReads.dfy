/**
 What the processor gets: when a read ends, which version it returns, the states that finished reads and writes
 leave behind, and that every request ends when its cache gets the bus.
 */
module MoesiReads {
  import opened CacheLines
  import opened Moesi
  import opened MoesiSafety
  import opened MoesiData
  import opened MoesiRaces

  // ---------- Reads ----------

  lemma RememberedCopy(s: System, i: nat)
    requires Coherent(s) && i < |s| && (s[i].pc.Reading? || Remembered(s[i].pc))
    ensures s[i].pc.way < CACHE_SIZE
    ensures Copy(s, i, s[i].pc.way, s[i].pc.addr / 32) <==> Valid(s[i].lines[s[i].pc.way])
  {
    assert CoreOk(s[i]);
    PlaceOfLine(s[i].lines[s[i].pc.way], s[i].pc.way, s[i].pc.addr);
    IndexIs(s[i].pc.addr);
  }

  // Half a cycle after a read hit the read ends if and only if the copy is still there; else it starts again
  lemma ReadEndsIff(s0: System, actions: seq<Action>, i: nat, granted: bool)
    requires Initial(s0) && Runs(s0, actions) && i < |After(s0, actions)| && After(s0, actions)[i].pc.Reading?
    ensures var s := After(s0, actions);
            var pc := s[i].pc;
            && Formed(s)
            && var pc' := Apply(s, Acts(i, granted))[i].pc;
               && (pc'.Idle? <==> Copy(s, i, pc.way, pc.addr / 32))
               && (!pc'.Idle? ==> pc' == Looking(Read, pc.addr))
  {
    InitialIsCoherent(s0);
    RunKeeps(s0, actions);
    FormedWhenCoherent(After(s0, actions));
    RememberedCopy(After(s0, actions), i);
  }

  // What a cache is working on
  function WorksOn(pc: Pc): (Func, nat)
    requires !pc.Idle?
  {
    match pc
    case Reading(addr, _) => (Read, addr)
    case Claiming(addr, _) => (Write, addr)
    case Refused(addr, _, _) => (Write, addr)
    case Looking(func, addr) => (func, addr)
    case Hit(func, addr, _) => (func, addr)
    case Miss(func, addr, _) => (func, addr)
    case WriteRefused(func, addr, _) => (func, addr)
    case Filling(func, addr, _) => (func, addr)
  }

  // The step ends a read of its cache
  predicate EndsRead(s: System, a: Action)
    requires Formed(s) && Enabled(s, a)
  {
    a.Acts? && WorksOn(s[a.c].pc).0.Read? && Apply(s, a)[a.c].pc.Idle?
  }

  // Only a copy that is there, or a fill, ends a read
  lemma ReadEndsAt(s: System, a: Action)
    requires Formed(s) && Enabled(s, a) && EndsRead(s, a)
    ensures s[a.c].pc.Reading? || s[a.c].pc.Filling?
  {
  }

  lemma CurrentIs(s: System, d: Data)
    requires Current(s, d)
    ensures Shaped(s, d)
  {
  }

  lemma CurrentCopy(s: System, d: Data, i: nat, way: nat, line: nat)
    requires Current(s, d) && Copy(s, i, way, line)
    ensures i < |d.held| && way < |d.held[i]| && d.held[i][way] == Last(d, line)
  {
  }

  lemma ReadIsCurrent(s: System, d: Data, a: Action)
    requires Coherent(s) && Formed(s) && Current(s, d) && Enabled(s, a) && EndsRead(s, a)
    ensures var pc, d' := s[a.c].pc, Move(s, d, a);
            && Shaped(Apply(s, a), d') && pc.way < CACHE_SIZE && d'.held[a.c][pc.way] == Last(d', pc.addr / 32)
  {
    hide Current;
    CurrentIs(s, d);
    ReadEndsAt(s, a);
    var pc, s', d' := s[a.c].pc, Apply(s, a), Move(s, d, a);
    if pc.Reading? {
      RememberedCopy(s, a.c);
      CurrentCopy(s, d, a.c, pc.way, pc.addr / 32);
    } else {
      FillCurrent(s, d, a.c, a.granted);
      FillLoads(s, a.c, pc.func, pc.addr, pc.way);
      CurrentCopy(s', d', a.c, pc.way, pc.addr / 32);
    }
    assert Shaped(s', d');
  }

  // In a run in which no overtaken cache makes its claim, every read that ends returns the last write to the line
  lemma ReadsReturnTheLastWrite(s0: System, d0: Data, actions: seq<Action>, a: Action)
    requires Initial(s0) && Unwritten(s0, d0) && Runs(s0, actions) && NoneLate(s0, {}, actions)
    requires Formed(After(s0, actions)) && Enabled(After(s0, actions), a) && EndsRead(After(s0, actions), a)
    ensures var s, d := After(s0, actions), DataAfter(s0, d0, actions);
            && Shaped(s, d)
            && var pc, d' := s[a.c].pc, Move(s, d, a);
               Shaped(Apply(s, a), d') && pc.way < CACHE_SIZE && d'.held[a.c][pc.way] == Last(d', pc.addr / 32)
  {
    InitialIsCoherent(s0);
    RunKeeps(s0, actions);
    NoWriteIsLostIff(s0, d0, actions);
    ReadIsCurrent(After(s0, actions), DataAfter(s0, d0, actions), a);
  }

  // ---------- Lookups ----------

  // A lookup hits if and only if the cache has the line, and then finds its copy
  lemma LookHitsIff(s0: System, actions: seq<Action>, i: nat, granted: bool)
    requires Initial(s0) && Runs(s0, actions) && i < |After(s0, actions)| && After(s0, actions)[i].pc.Looking?
    ensures var s := After(s0, actions);
            var pc := s[i].pc;
            && Formed(s)
            && var pc' := Apply(s, Acts(i, granted))[i].pc;
               && (pc'.Hit? <==> exists k: nat :: Copy(s, i, k, pc.addr / 32))
               && (pc'.Hit? ==> pc' == Hit(pc.func, pc.addr, pc'.way) && Copy(s, i, pc'.way, pc.addr / 32))
               && (!pc'.Hit? ==> pc'.Miss? && pc' == Miss(pc.func, pc.addr, pc'.way))
  {
    hide FoundIn, Index, Tag, VictimIn;
    InitialIsCoherent(s0);
    RunKeeps(s0, actions);
    var s := After(s0, actions);
    FormedWhenCoherent(s);
    var c, addr := s[i], s[i].pc.addr;
    assert CoreOk(c);
    WayFound(c, addr);
    if FoundIn(c, addr) > -1 {
      var r: nat := FoundIn(c, addr);
      PlaceOfLine(c.lines[r], r, addr);
      assert Copy(s, i, r, addr / 32);
    }
    forall k: nat | Copy(s, i, k, addr / 32) ensures FoundIn(c, addr) == k {
      PlaceOfLine(c.lines[k], k, addr);
      SnoopLeaves(c, Fetch, addr, k);
    }
  }

  // ---------- The states left behind ----------

  // Another cache has a copy of the line
  ghost predicate Elsewhere(s: System, i: nat, line: nat) {
    exists e: nat, k: nat :: e != i && Copy(s, e, k, line)
  }

  lemma AnsweredIff(s: System, i: nat, addr: nat)
    requires Coherent(s) && Formed(s) && i < |s|
    ensures Answered(s, i, addr) <==> Elsewhere(s, i, addr / 32)
  {
    forall e: nat, k: nat | e != i && Copy(s, e, k, addr / 32) ensures Answered(s, i, addr) {
      assert CoreOk(s[e]);
      PlaceOfLine(s[e].lines[k], k, addr);
      SnoopLeaves(s[e], Fetch, addr, k);
    }
    if Answered(s, i, addr) {
      var e :| 0 <= e < |s| && e != i && FoundIn(s[e], addr) > -1;
      WayFound(s[e], addr);
      PlaceOfLine(s[e].lines[FoundIn(s[e], addr)], FoundIn(s[e], addr), addr);
      assert Copy(s, e, FoundIn(s[e], addr), addr / 32);
    }
  }

  // All ways but one of cache i hold copies of the lines that they held
  ghost predicate SameElsewhere(s: System, s': System, i: nat, way: nat) {
    forall e: nat, k: nat, l: nat :: e != i || k != way ==> (Copy(s', e, k, l) <==> Copy(s, e, k, l))
  }

  // A miss that ends a read leaves the line EXCLUSIVE if no other cache has it and SHARED if one has. A miss that
  // ends a write leaves it MODIFIED if no other cache has it, and otherwise SHARED, about to be claimed
  lemma FillLeaves(s: System, i: nat, granted: bool)
    requires Coherent(s) && Formed(s) && i < |s| && s[i].pc.Filling?
    ensures var pc, c' := s[i].pc, Apply(s, Acts(i, granted))[i];
            var others := Elsewhere(s, i, pc.addr / 32);
            && pc.way < CACHE_SIZE && Copy(Apply(s, Acts(i, granted)), i, pc.way, pc.addr / 32)
            && c'.lines[pc.way].state == (if others then Shared else if pc.func.Read? then Exclusive else Modified)
            && c'.pc == (if pc.func.Write? && others then Claiming(pc.addr, pc.way) else Idle)
            && SameElsewhere(s, Apply(s, Acts(i, granted)), i, pc.way)
  {
    AnsweredIff(s, i, s[i].pc.addr);
    FillLoads(s, i, s[i].pc.func, s[i].pc.addr, s[i].pc.way);
  }

  // What a READ leaves of the copies in other caches: a dirty copy is OWNED from then on, any other SHARED
  lemma FillShares(s: System, i: nat, granted: bool, e: nat, k: nat)
    requires Coherent(s) && Formed(s) && i < |s| && s[i].pc.Filling? && e != i && Copy(s, e, k, s[i].pc.addr / 32)
    ensures var s' := Apply(s, Acts(i, granted));
            && Copy(s', e, k, s[i].pc.addr / 32)
            && s'[e].lines[k].state == if Dirty(s[e].lines[k]) then Owned else Shared
  {
    hide FoundIn, Index, Tag, Answered, Fill;
    var addr := s[i].pc.addr;
    assert CoreOk(s[e]);
    PlaceOfLine(s[e].lines[k], k, addr);
    LineStart(addr);
    SnoopOne(s[e], Fetch, addr / 32 * 32, k);
    assert Apply(s, Acts(i, granted))[e] == Snoop(s[e], Fetch, addr / 32 * 32);
  }

  // The start of the line of an address is in the same set under the same tag
  lemma LineStart(addr: nat)
    ensures Index(addr / 32 * 32) == Index(addr) && Tag(addr / 32 * 32) == Tag(addr)
  {
    PlaceIsInjective(addr / 32 * 32, addr);
  }

  // Cache d has lost its copy of the line, and no other
  ghost predicate Without(s: System, s': System, d: nat, line: nat) {
    forall k: nat, l: nat :: Copy(s', d, k, l) <==> Copy(s, d, k, l) && l != line
  }

  // A granted claim ends the write: the copy is MODIFIED, and all other caches have lost the line and no other
  lemma ClaimLeaves(s: System, i: nat)
    requires Coherent(s) && Formed(s) && i < |s| && Claims(s, i, true)
    ensures var pc, s' := s[i].pc, Apply(s, Acts(i, true));
            && pc.way < CACHE_SIZE && s'[i].pc.Idle? && Copy(s', i, pc.way, pc.addr / 32)
            && s'[i].lines[pc.way].state == Modified && !Elsewhere(s', i, pc.addr / 32)
            && forall d: nat :: d < |s| && d != i ==> Without(s, s', d, pc.addr / 32)
  {
    var pc := s[i].pc;
    var c := if pc.Hit? then Touch(s[i], pc.way, s[i].lines[pc.way]) else s[i];
    assert CoreOk(s[i]);
    SameCopiesKeep(s[i].lines, c.lines);
    GrantClaims(s, i, c, pc.addr, pc.way);
  }

  // A victim that is not dirty is given up without the bus. A dirty one is kept until the write-back gets the bus,
  // which takes the line, and no other, from all other caches
  lemma VictimLeaves(s: System, i: nat, granted: bool)
    requires Coherent(s) && Formed(s) && i < |s| && (s[i].pc.Miss? || s[i].pc.WriteRefused?)
    ensures s[i].pc.way < CACHE_SIZE
    ensures var c, pc, s' := s[i], s[i].pc, Apply(s, Acts(i, granted));
            var dirty := Dirty(c.lines[pc.way]);
            && s'[i] == c.(pc := if dirty && !granted then WriteRefused(pc.func, pc.addr, pc.way)
                                 else Filling(pc.func, pc.addr, pc.way))
            && forall d: nat :: d < |s| && d != i ==>
                 if dirty && granted then Without(s, s', d, LineNo(c.lines[pc.way], pc.way)) else s'[d] == s[d]
  {
    var c, pc := s[i], s[i].pc;
    assert CoreOk(c);
    if Dirty(c.lines[pc.way]) && granted {
      var wb := WriteBackAddress(c.lines[pc.way].tag, pc.addr);
      WriteBackIsExact(c.lines[pc.way].tag, pc.addr);
      IndexIs(pc.addr);
      PlaceOfLine(c.lines[pc.way], pc.way, wb);
      forall d: nat | d < |s| && d != i
        ensures Without(s, Apply(s, Acts(i, granted)), d, LineNo(c.lines[pc.way], pc.way))
      {
        forall k: nat, l: nat | k / SET_SIZE < 128 {
          SnoopedCopy(s, i, c.(pc := Filling(pc.func, pc.addr, pc.way)), Invalidate, wb, d, k, l);
        }
      }
    }
  }

  // ---------- Requests end ----------

  // A write ends when a claim is granted, unless it has been refused before and the copy has gone meanwhile: then
  // the line is filled again, or looked up again if it had not been filled for this write
  lemma WriteEndsIff(s0: System, actions: seq<Action>, i: nat, granted: bool)
    requires Initial(s0) && Runs(s0, actions) && i < |After(s0, actions)|
    requires var pc := After(s0, actions)[i].pc; Remembered(pc) && (pc.Hit? ==> pc.func.Write?)
    ensures var s := After(s0, actions);
            var pc := s[i].pc;
            && Formed(s)
            && var pc' := Apply(s, Acts(i, granted))[i].pc;
               var gone := pc.Refused? && !Copy(s, i, pc.way, pc.addr / 32);
               && (pc'.Idle? <==> granted && !gone)
               && (gone ==> pc' == if pc.filled then Filling(Write, pc.addr, pc.way) else Looking(Write, pc.addr))
               && (!gone && !granted ==> pc' == Refused(pc.addr, pc.way, if pc.Refused? then pc.filled
                    else pc.Claiming?))
  {
    InitialIsCoherent(s0);
    RunKeeps(s0, actions);
    FormedWhenCoherent(After(s0, actions));
    RememberedCopy(After(s0, actions), i);
  }

  // A cache works on what the processor has asked for until that has ended, by the end of a read hit, a claim or a
  // fill; nobody else's turn changes it
  lemma RequestStays(s: System, a: Action, i: nat)
    requires Formed(s) && Enabled(s, a) && i < |s|
    ensures var pc' := Apply(s, a)[i].pc;
            && (a.c != i ==> pc' == s[i].pc)
            && (a.Requests? && a.c == i ==> !pc'.Idle? && WorksOn(pc') == (a.func, a.addr))
            && (a.Acts? && !s[i].pc.Idle? && !pc'.Idle? ==> WorksOn(pc') == WorksOn(s[i].pc))
            && (!s[i].pc.Idle? && pc'.Idle? ==> Remembered(s[i].pc) || s[i].pc.Reading? || s[i].pc.Filling?)
  {
  }

  // How many turns with the bus are left at most
  function TurnsLeft(c: Core): nat
    requires Sized(c) && (!c.pc.Idle? && !c.pc.Looking? ==> c.pc.way < CACHE_SIZE)
  {
    match c.pc
    case Idle => 0
    case Looking(_, _) => 4
    case Hit(func, _, way) => if func.Write? then 1 else if Valid(c.lines[way]) then 2 else 6
    case Reading(_, way) => if Valid(c.lines[way]) then 1 else 5
    case Claiming(_, _) => 1
    case Refused(_, way, filled) => if Valid(c.lines[way]) then 1 else if filled then 3 else 5
    case Miss(_, _, _) => 3
    case WriteRefused(_, _, _) => 3
    case Filling(_, _, _) => 2
  }

  // Every turn in which a cache gets the bus brings its request nearer to its end
  lemma TurnsEnd(s: System, i: nat)
    requires Coherent(s) && Formed(s) && i < |s| && !s[i].pc.Idle?
    ensures Formed(Apply(s, Acts(i, true))) && TurnsLeft(Apply(s, Acts(i, true))[i]) < TurnsLeft(s[i])
  {
    StepKeeps(s, Acts(i, true));
    FormedWhenCoherent(Apply(s, Acts(i, true)));
    var c := s[i];
    assert CoreOk(c);
    if c.pc.Looking? && FoundIn(c, c.pc.addr) > -1 {
      WayFound(c, c.pc.addr);
      LookKeeps(c, c.pc.func, c.pc.addr);
    }
  }
}
