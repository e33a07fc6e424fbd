/**
 What coherence is for: a valid copy holds the last write to its line. The model of the caches carries no data,
 so the versions here are history: the number of the last write to a line (`latest`), and the number that the
 memory and each way hold. A write to a copy that is not of the last version makes a copy that is of no version, -1.
 */
module MoesiData {
  import opened CacheLines
  import opened Moesi
  import opened MoesiSafety

  datatype Data = Data(mem: map<nat, int>, latest: map<nat, nat>, held: seq<seq<int>>)

  function At(m: map<nat, int>, line: nat): int { if line in m then m[line] else 0 }

  function Last(d: Data, line: nat): nat { if line in d.latest then d.latest[line] else 0 }

  // The number of the line in a way
  function LineNo(l: Line, way: nat): nat { l.tag * 128 + way / SET_SIZE }

  predicate Shaped(s: System, d: Data) {
    |d.held| == |s| && forall c :: 0 <= c < |s| ==> |d.held[c]| == CACHE_SIZE
  }

  function Put(d: Data, c: nat, way: nat, version: int): Data
    requires c < |d.held| && way < |d.held[c]|
  {
    d.(held := d.held[c := d.held[c][way := version]])
  }

  // Cache c writes to its copy of the line
  function Written(d: Data, c: nat, way: nat, line: nat): Data
    requires c < |d.held| && way < |d.held[c]|
  {
    var v := Last(d, line);
    Put(d.(latest := d.latest[line := v + 1]), c, way, if d.held[c][way] == v then v + 1 else -1)
  }

  // What a READ is answered with: the copy of another cache, or memory
  ghost function Supplied(s: System, d: Data, c: nat, addr: nat): int
    requires Formed(s) && Shaped(s, d)
  {
    if Answered(s, c, addr) then
      var e :| 0 <= e < |s| && e != c && FoundIn(s[e], addr) > -1;
      WayFound(s[e], addr);
      d.held[e][FoundIn(s[e], addr)]
    else At(d.mem, addr / 32)
  }

  // The step makes cache i modify its copy after invalidating the others
  predicate Claims(s: System, i: nat, granted: bool)
    requires i < |s|
  {
    granted && match s[i].pc
               case Hit(func, _, _) => func.Write?
               case Claiming(_, _) => true
               case Refused(_, way, _) => way < |s[i].lines| && Valid(s[i].lines[way])
               case _ => false
  }

  predicate WritesBack(s: System, i: nat, granted: bool)
    requires Formed(s) && i < |s|
  {
    granted && (s[i].pc.Miss? || s[i].pc.WriteRefused?) && Dirty(s[i].lines[s[i].pc.way])
  }

  // How the data moves in a step
  ghost function Move(s: System, d: Data, a: Action): Data
    requires Formed(s) && Shaped(s, d) && Enabled(s, a)
  {
    if a.Requests? then d else
    var i, c := a.c, s[a.c];
    if Claims(s, i, a.granted) then Written(d, i, c.pc.way, c.pc.addr / 32)
    else if WritesBack(s, i, a.granted) then
      d.(mem := d.mem[LineNo(c.lines[c.pc.way], c.pc.way) := d.held[i][c.pc.way]])
    else if c.pc.Filling? then Filled(d, i, c.pc, Supplied(s, d, i, c.pc.addr), Answered(s, i, c.pc.addr))
    else d
  }

  function Filled(d: Data, i: nat, pc: Pc, version: int, answered: bool): Data
    requires pc.Filling? && i < |d.held| && pc.way < |d.held[i]|
  {
    var d1 := Put(d, i, pc.way, version);
    if pc.func.Write? && !answered then Written(d1, i, pc.way, pc.addr / 32) else d1
  }

  // ---------- The invariant ----------

  predicate Copy(s: System, c: nat, k: nat, line: nat) {
    c < |s| && Sized(s[c]) && k / SET_SIZE < 128 && Valid(s[c].lines[k]) && LineNo(s[c].lines[k], k) == line
  }

  predicate DirtyCopy(s: System, c: nat, k: nat, line: nat) {
    Copy(s, c, k, line) && Dirty(s[c].lines[k])
  }

  predicate InMemory(d: Data, line: nat) { At(d.mem, line) == Last(d, line) }

  ghost predicate Backed(s: System, d: Data, line: nat) {
    InMemory(d, line) || exists c: nat, k: nat :: DirtyCopy(s, c, k, line)
  }

  // Cache c is about to overwrite a dirty copy of the line
  predicate Overwrites(s: System, c: nat, line: nat) {
    c < |s| && s[c].pc.Filling? && DirtyCopy(s, c, s[c].pc.way, line)
  }

  // Every valid copy is of the last version; so is memory where there is no dirty copy, and for a dirty victim
  // that is about to be overwritten
  ghost predicate Current(s: System, d: Data) {
    && Shaped(s, d)
    && (forall c: nat, k: nat, line: nat :: Copy(s, c, k, line) ==> d.held[c][k] == Last(d, line))
    && (forall line: nat :: Backed(s, d, line))
    && (forall c: nat, line: nat :: Overwrites(s, c, line) ==> InMemory(d, line))
  }

  // The write does not go to a copy that has been invalidated since it was looked at
  predicate WritesToCopy(s: System, a: Action) {
    a.Acts? && a.c < |s| && Claims(s, a.c, a.granted) ==>
      s[a.c].pc.way < |s[a.c].lines| && Valid(s[a.c].lines[s[a.c].pc.way])
  }

  lemma PlaceOfLine(l: Line, way: nat, addr: nat)
    ensures LineNo(l, way) == addr / 32 && way / SET_SIZE < 128 <==> SameSet(way, Index(addr)) && l.tag == Tag(addr)
  {
    LineOf(addr);
    IndexIs(addr);
  }

  // A snoop of the line at addr takes the copy of that line, and no other
  lemma SnoopedCopy(s: System, i: nat, core: Core, req: Request, addr: nat, c: nat, k: nat, line: nat)
    requires Coherent(s) && Formed(s) && i < |s| && c < |s| && c != i && k / SET_SIZE < 128
    ensures var s' := Broadcast(s, i, core, req, addr);
            && (Copy(s', c, k, line) <==> Copy(s, c, k, line) && !(req.Invalidate? && line == addr / 32))
            && (DirtyCopy(s', c, k, line) <==> DirtyCopy(s, c, k, line) && !(req.Invalidate? && line == addr / 32))
            && s'[c].pc == s[c].pc
  {
    assert CoreOk(s[c]);
    SnoopOne(s[c], req, addr, k);
    PlaceOfLine(s[c].lines[k], k, addr);
  }

  // A step that moves no copy and no data
  lemma StillCurrent(s: System, s': System, d: Data, i: nat)
    requires Current(s, d) && |s'| == |s| && i < |s| && Sized(s[i]) && Sized(s'[i])
    requires SameCopies(s[i].lines, s'[i].lines)
    requires forall c :: 0 <= c < |s| && c != i ==> s'[c] == s[c]
    requires s'[i].pc.Filling? ==> s'[i].pc.way < CACHE_SIZE && !Dirty(s'[i].lines[s'[i].pc.way])
    ensures Current(s', d)
  {
    forall c: nat, k: nat, line: nat
      ensures (Copy(s', c, k, line) <==> Copy(s, c, k, line))
      ensures (DirtyCopy(s', c, k, line) <==> DirtyCopy(s, c, k, line))
    {
    }
    forall line: nat ensures Backed(s', d, line) {
      assert Backed(s, d, line);
      if !InMemory(d, line) {
        var c: nat, k: nat :| DirtyCopy(s, c, k, line);
        assert DirtyCopy(s', c, k, line);
      }
    }
    forall c: nat, line: nat | Overwrites(s', c, line) ensures InMemory(d, line) {
      assert c != i;
      assert Overwrites(s, c, line);
    }
  }

  // ---------- Claims ----------

  // s' is s after cache i has made its copy in `way` the only one, and modified
  ghost predicate Claimed(s: System, s': System, i: nat, way: nat, line: nat) {
    && i < |s| && |s'| == |s| && way / SET_SIZE < 128 && s'[i].pc.Idle?
    && Copy(s', i, way, line) && DirtyCopy(s', i, way, line)
    && (forall c: nat, k: nat, l: nat :: c != i || k != way ==>
          && (Copy(s', c, k, l) <==> Copy(s, c, k, l) && l != line)
          && (DirtyCopy(s', c, k, l) <==> DirtyCopy(s, c, k, l) && l != line))
    && (forall l: nat :: Copy(s', i, way, l) ==> l == line)
    && (forall l: nat :: Copy(s, i, way, l) ==> l == line)
    && (forall c :: 0 <= c < |s| && c != i ==> s'[c].pc == s[c].pc)
  }

  lemma ClaimedCurrent(s: System, s': System, d: Data, i: nat, way: nat, line: nat)
    requires Current(s, d) && Claimed(s, s', i, way, line) && way < CACHE_SIZE && d.held[i][way] == Last(d, line)
    ensures Current(s', Written(d, i, way, line))
  {
    var d' := Written(d, i, way, line);
    forall c: nat, k: nat, l: nat | Copy(s', c, k, l) ensures d'.held[c][k] == Last(d', l) {
      if c != i || k != way { assert Copy(s, c, k, l); }
    }
    forall l: nat ensures Backed(s', d', l) {
      assert Backed(s, d, l);
      if l != line && !InMemory(d, l) {
        var c: nat, k: nat :| DirtyCopy(s, c, k, l);
        assert DirtyCopy(s', c, k, l);
      }
    }
    forall c: nat, l: nat | Overwrites(s', c, l) ensures InMemory(d', l) {
      assert DirtyCopy(s', c, s[c].pc.way, l);
      assert Overwrites(s, c, l) && l != line;
    }
  }

  lemma GrantClaims(s: System, i: nat, c: Core, addr: nat, way: nat)
    requires Coherent(s) && Formed(s) && i < |s|
    requires CoreOk(c) && SameCopies(s[i].lines, c.lines) && Keeps(c.lines, addr, way)
    ensures Claimed(s, Broadcast(s, i, SetState(c, way, Modified).(pc := Idle), Invalidate, addr), i, way, addr / 32)
  {
    var c' := SetState(c, way, Modified).(pc := Idle);
    var s' := Broadcast(s, i, c', Invalidate, addr);
    PlaceOfLine(c.lines[way], way, addr);
    forall e: nat, k: nat, l: nat | e != i || k != way
      ensures Copy(s', e, k, l) <==> Copy(s, e, k, l) && l != addr / 32
      ensures DirtyCopy(s', e, k, l) <==> DirtyCopy(s, e, k, l) && l != addr / 32
    {
      if e < |s| && k / SET_SIZE < 128 {
        if e != i {
          SnoopedCopy(s, i, c', Invalidate, addr, e, k, l);
        } else {
          PlaceOfLine(c.lines[k], k, addr);
          assert SameSet(k, way) ==> !Match(c.lines[k], Tag(addr));
        }
      }
    }
  }

  // ---------- Write-backs ----------

  // A write-back takes no copy but those of the victim's line
  lemma EvictLeaves(s: System, i: nat, func: Func, addr: nat, way: nat)
    requires Coherent(s) && Formed(s) && i < |s| && Absent(s[i].lines, addr, way) && Dirty(s[i].lines[way])
    ensures var s', line := Evict(s, i, func, addr, way, true), LineNo(s[i].lines[way], way);
            forall e: nat, k: nat, l: nat ::
              && (Copy(s', e, k, l) ==> Copy(s, e, k, l))
              && (DirtyCopy(s', e, k, l) ==> DirtyCopy(s, e, k, l))
              && (DirtyCopy(s, e, k, l) && l != line ==> DirtyCopy(s', e, k, l))
  {
    var c := s[i];
    var wb := WriteBackAddress(c.lines[way].tag, addr);
    WriteBackIsExact(c.lines[way].tag, addr);
    IndexIs(addr);
    PlaceOfLine(c.lines[way], way, wb);
    var s', line := Evict(s, i, func, addr, way, true), LineNo(s[i].lines[way], way);
    forall e: nat, k: nat, l: nat
      ensures Copy(s', e, k, l) ==> Copy(s, e, k, l)
      ensures DirtyCopy(s', e, k, l) ==> DirtyCopy(s, e, k, l)
      ensures DirtyCopy(s, e, k, l) && l != line ==> DirtyCopy(s', e, k, l)
    {
      if e < |s| && e != i && k / SET_SIZE < 128 {
        SnoopedCopy(s, i, c.(pc := Filling(func, addr, way)), Invalidate, wb, e, k, l);
      }
    }
  }

  lemma EvictCurrent(s: System, d: Data, i: nat, func: Func, addr: nat, way: nat)
    requires Coherent(s) && Formed(s) && Current(s, d) && i < |s| && Absent(s[i].lines, addr, way)
    requires Dirty(s[i].lines[way])
    ensures var line := LineNo(s[i].lines[way], way);
            Current(Evict(s, i, func, addr, way, true), d.(mem := d.mem[line := d.held[i][way]]))
  {
    var line := LineNo(s[i].lines[way], way);
    var s', d' := Evict(s, i, func, addr, way, true), d.(mem := d.mem[line := d.held[i][way]]);
    EvictLeaves(s, i, func, addr, way);
    assert way / SET_SIZE < 128 by { IndexIs(addr); }
    assert Copy(s, i, way, line);
    forall l: nat ensures Backed(s', d', l) {
      assert Backed(s, d, l);
      if l != line && !InMemory(d, l) {
        var e: nat, k: nat :| DirtyCopy(s, e, k, l);
        assert DirtyCopy(s', e, k, l);
      }
    }
    forall e: nat, l: nat | Overwrites(s', e, l) ensures InMemory(d', l) {
      if e != i {
        assert DirtyCopy(s', e, s[e].pc.way, l);
        assert Overwrites(s, e, l);
      }
    }
  }

  // ---------- Fills ----------

  // Whatever answers a READ has the last version
  lemma SuppliesLast(s: System, d: Data, i: nat, addr: nat, way: nat)
    requires Coherent(s) && Formed(s) && Current(s, d) && i < |s| && Absent(s[i].lines, addr, way)
    ensures Supplied(s, d, i, addr) == Last(d, addr / 32)
    ensures !Answered(s, i, addr) ==> forall e: nat, k: nat :: !Copy(s, e, k, addr / 32)
  {
    forall e: nat, k: nat | Copy(s, e, k, addr / 32) ensures Answered(s, i, addr) {
      assert CoreOk(s[e]);
      PlaceOfLine(s[e].lines[k], k, addr);
      assert e != i;
      SnoopLeaves(s[e], Fetch, addr, k);
    }
    if Answered(s, i, addr) {
      forall e: nat | e < |s| && e != i && FoundIn(s[e], addr) > -1
        ensures FoundIn(s[e], addr) < CACHE_SIZE && d.held[e][FoundIn(s[e], addr)] == Last(d, addr / 32)
      {
        WayFound(s[e], addr);
        PlaceOfLine(s[e].lines[FoundIn(s[e], addr)], FoundIn(s[e], addr), addr);
        assert Copy(s, e, FoundIn(s[e], addr), addr / 32);
      }
    } else {
      assert Backed(s, d, addr / 32);
    }
  }

  // s' is s after cache i has overwritten `way` with a copy of the line
  ghost predicate Loaded(s: System, s': System, i: nat, way: nat, line: nat) {
    && i < |s| && |s'| == |s| && way / SET_SIZE < 128 && !s'[i].pc.Filling?
    && Copy(s', i, way, line)
    && (forall c: nat, k: nat, l: nat :: c != i || k != way ==>
          (Copy(s', c, k, l) <==> Copy(s, c, k, l)) && (DirtyCopy(s', c, k, l) <==> DirtyCopy(s, c, k, l)))
    && (forall l: nat :: Copy(s', i, way, l) ==> l == line)
    && (forall c :: 0 <= c < |s| && c != i ==> s'[c].pc == s[c].pc)
  }

  lemma FillLoads(s: System, i: nat, func: Func, addr: nat, way: nat)
    requires Coherent(s) && Formed(s) && i < |s| && s[i].pc == Filling(func, addr, way)
    ensures var c' := Fill(s[i], func, addr, way, Answered(s, i, addr));
            Loaded(s, Broadcast(s, i, c', Fetch, addr / 32 * 32), i, way, addr / 32)
  {
    var c' := Fill(s[i], func, addr, way, Answered(s, i, addr));
    var s' := Broadcast(s, i, c', Fetch, addr / 32 * 32);
    assert CoreOk(s[i]);
    PlaceOfLine(c'.lines[way], way, addr);
    forall e: nat, k: nat, l: nat | e != i || k != way
      ensures (Copy(s', e, k, l) <==> Copy(s, e, k, l)) && (DirtyCopy(s', e, k, l) <==> DirtyCopy(s, e, k, l))
    {
      if e < |s| && k / SET_SIZE < 128 && e != i { SnoopedCopy(s, i, c', Fetch, addr / 32 * 32, e, k, l); }
    }
  }

  lemma LoadedCurrent(s: System, s': System, d: Data, i: nat, way: nat, line: nat)
    requires Current(s, d) && Loaded(s, s', i, way, line) && way < CACHE_SIZE && s[i].pc.Filling? && s[i].pc.way == way
    ensures Current(s', Put(d, i, way, Last(d, line)))
  {
    var d' := Put(d, i, way, Last(d, line));
    forall c: nat, k: nat, l: nat | Copy(s', c, k, l) ensures d'.held[c][k] == Last(d', l) {
      if c != i || k != way { assert Copy(s, c, k, l); }
    }
    forall l: nat ensures Backed(s', d', l) {
      assert Backed(s, d, l);
      if !InMemory(d, l) {
        var c: nat, k: nat :| DirtyCopy(s, c, k, l);
        assert Overwrites(s, i, l) ==> InMemory(d, l);
        assert DirtyCopy(s', c, k, l);
      }
    }
    forall c: nat, l: nat | Overwrites(s', c, l) ensures InMemory(d', l) {
      assert DirtyCopy(s', c, s[c].pc.way, l);
      assert Overwrites(s, c, l);
    }
  }

  // A write that nobody else holds a copy for
  lemma LoadedWritten(s: System, d: Data, i: nat, way: nat, line: nat)
    requires Current(s, d) && i < |s| && DirtyCopy(s, i, way, line) && way < CACHE_SIZE && !s[i].pc.Filling?
    requires forall c: nat, k: nat :: Copy(s, c, k, line) ==> c == i && k == way
    ensures Current(s, Written(d, i, way, line))
  {
    var d' := Written(d, i, way, line);
    assert Copy(s, i, way, line);
    forall c: nat, k: nat, l: nat | Copy(s, c, k, l) ensures d'.held[c][k] == Last(d', l) {
      assert c == i && k == way ==> l == line;
    }
    forall l: nat ensures Backed(s, d', l) {
      assert Backed(s, d, l);
    }
    forall c: nat, l: nat | Overwrites(s, c, l) ensures InMemory(d', l) {
      assert Copy(s, c, s[c].pc.way, l);
    }
  }

  lemma FillCurrent(s: System, d: Data, i: nat, granted: bool)
    requires Coherent(s) && Formed(s) && Current(s, d) && i < |s| && s[i].pc.Filling?
    ensures Current(Apply(s, Acts(i, granted)), Move(s, d, Acts(i, granted)))
  {
    var pc := s[i].pc;
    var s', line := Apply(s, Acts(i, granted)), pc.addr / 32;
    assert CoreOk(s[i]);
    FillLoads(s, i, pc.func, pc.addr, pc.way);
    SuppliesLast(s, d, i, pc.addr, pc.way);
    LoadedCurrent(s, s', d, i, pc.way, line);
    if pc.func.Write? && !Answered(s, i, pc.addr) {
      LoadedWritten(s', Put(d, i, pc.way, Last(d, line)), i, pc.way, line);
    }
  }

  // ---------- Every step ----------

  lemma StepCurrent(s: System, d: Data, a: Action)
    requires Coherent(s) && Formed(s) && Current(s, d) && Enabled(s, a) && WritesToCopy(s, a)
    ensures Current(Apply(s, a), Move(s, d, a))
  {
    var c, i := s[a.c], a.c;
    assert CoreOk(c);
    if a.Requests? {
      StillCurrent(s, Apply(s, a), d, i);
    } else if c.pc.Filling? {
      FillCurrent(s, d, i, a.granted);
    } else if Claims(s, i, a.granted) {
      ClaimCurrent(s, d, i);
    } else if WritesBack(s, i, a.granted) {
      EvictCurrent(s, d, i, c.pc.func, c.pc.addr, c.pc.way);
    } else {
      AloneCurrent(s, d, i, a.granted);
    }
  }

  lemma ClaimCurrent(s: System, d: Data, i: nat)
    requires Coherent(s) && Formed(s) && Current(s, d) && i < |s| && Claims(s, i, true)
    requires WritesToCopy(s, Acts(i, true))
    ensures Current(Apply(s, Acts(i, true)), Move(s, d, Acts(i, true)))
  {
    var pc := s[i].pc;
    assert CoreOk(s[i]);
    PlaceOfLine(s[i].lines[pc.way], pc.way, pc.addr);
    IndexIs(pc.addr);
    assert Copy(s, i, pc.way, pc.addr / 32);
    ClaimIsCurrentIff(s, d, i);
  }

  // A write keeps all copies current exactly when it goes to a copy of the last version
  lemma ClaimIsCurrentIff(s: System, d: Data, i: nat)
    requires Coherent(s) && Formed(s) && Current(s, d) && i < |s| && Claims(s, i, true)
    ensures s[i].pc.way < CACHE_SIZE
    ensures Current(Apply(s, Acts(i, true)), Move(s, d, Acts(i, true)))
            <==> d.held[i][s[i].pc.way] == Last(d, s[i].pc.addr / 32)
  {
    var pc := s[i].pc;
    var s', d' := Apply(s, Acts(i, true)), Move(s, d, Acts(i, true));
    var c := if pc.Hit? then Touch(s[i], pc.way, s[i].lines[pc.way]) else s[i];
    assert CoreOk(s[i]);
    SameCopiesKeep(s[i].lines, c.lines);
    GrantClaims(s, i, c, pc.addr, pc.way);
    if d.held[i][pc.way] == Last(d, pc.addr / 32) {
      ClaimedCurrent(s, s', d, i, pc.way, pc.addr / 32);
    } else {
      assert Copy(s', i, pc.way, pc.addr / 32) && d'.held[i][pc.way] != Last(d', pc.addr / 32);
    }
  }

  lemma AloneCurrent(s: System, d: Data, i: nat, granted: bool)
    requires Coherent(s) && Formed(s) && Current(s, d) && i < |s| && !s[i].pc.Idle? && !s[i].pc.Filling?
    requires !Claims(s, i, granted) && !WritesBack(s, i, granted)
    ensures Current(Apply(s, Acts(i, granted)), d)
  {
    var c := s[i];
    assert CoreOk(c);
    if c.pc.Looking? { LookKeeps(c, c.pc.func, c.pc.addr); }
    StillCurrent(s, Apply(s, Acts(i, granted)), d, i);
  }

  // ---------- Runs ----------

  ghost predicate RunsSafely(s: System, actions: seq<Action>)
    decreases |actions|
  {
    |actions| > 0 ==>
      Formed(s) && Enabled(s, actions[0]) && WritesToCopy(s, actions[0])
          && RunsSafely(Apply(s, actions[0]), actions[1..])
  }

  ghost function DataAfter(s: System, d: Data, actions: seq<Action>): Data
    requires Runs(s, actions) && Shaped(s, d)
    decreases |actions|
  {
    if |actions| == 0 then d else DataAfter(Apply(s, actions[0]), Move(s, d, actions[0]), actions[1..])
  }

  lemma {:induction false} RunCurrent(s: System, d: Data, actions: seq<Action>)
    requires Coherent(s) && Formed(s) && Current(s, d) && Runs(s, actions) && RunsSafely(s, actions)
    ensures Current(After(s, actions), DataAfter(s, d, actions))
    decreases |actions|
  {
    if |actions| > 0 {
      StepKeeps(s, actions[0]);
      StepCurrent(s, d, actions[0]);
      RunCurrent(Apply(s, actions[0]), Move(s, d, actions[0]), actions[1..]);
    }
  }

  predicate Unwritten(s: System, d: Data) {
    Shaped(s, d) && d.mem == map[] && d.latest == map[]
  }

  // As long as no write goes to a copy invalidated since it was looked at, every copy in every cache is of the
  // last write to its line, and no write is lost
  lemma ReadsSeeTheLastWrite(s0: System, d0: Data, actions: seq<Action>, c: nat, k: nat, line: nat)
    requires Initial(s0) && Unwritten(s0, d0) && Runs(s0, actions) && RunsSafely(s0, actions)
    ensures var s, d := After(s0, actions), DataAfter(s0, d0, actions);
            && Shaped(s, d)
            && (Copy(s, c, k, line) ==> d.held[c][k] == Last(d, line))
            && (InMemory(d, line) || exists e: nat, j: nat :: DirtyCopy(s, e, j, line) && d.held[e][j] == Last(d, line))
  {
    InitialIsCoherent(s0);
    assert Current(s0, d0) by {
      forall e: nat, j: nat, l: nat ensures !Copy(s0, e, j, l) { assert e < |s0| ==> Empty(s0[e]); }
      forall l: nat ensures Backed(s0, d0, l) { assert InMemory(d0, l); }
    }
    RunCurrent(s0, d0, actions);
    var s, d := After(s0, actions), DataAfter(s0, d0, actions);
    assert Backed(s, d, line);
    if !InMemory(d, line) {
      var e: nat, j: nat :| DirtyCopy(s, e, j, line);
      assert Copy(s, e, j, line);
    }
  }
}
