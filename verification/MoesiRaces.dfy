/**
 When a write is lost. A cache scans its set, or fills a way, and claims the other copies later; meanwhile another
 cache may have written to the same line. Which caches have been overtaken in this way is told by the run alone.
 No write is lost in a run exactly when no cache that has been overtaken makes its claim.
 */
module MoesiRaces {
  import opened CacheLines
  import opened Moesi
  import opened MoesiSafety
  import opened MoesiData
  import opened MoesiLostWrite

  // The thread remembers a way that it may write to
  predicate Remembered(pc: Pc) { pc.Hit? || pc.Claiming? || pc.Refused? }

  // The step writes to the line that its cache works on: a claim, or a fill for a write that nobody answers
  predicate Writes(s: System, a: Action)
    requires Formed(s) && Enabled(s, a)
  {
    a.Acts? && (Claims(s, a.c, a.granted)
                || (s[a.c].pc.Filling? && s[a.c].pc.func.Write? && !Answered(s, a.c, s[a.c].pc.addr)))
  }

  predicate OnSameLine(p: Pc, q: Pc) {
    !p.Idle? && !q.Idle? && p.addr / 32 == q.addr / 32
  }

  // The caches for whose line another cache has had a write since they last scanned the set or filled the way
  function Overtaken(s: System, late: set<nat>, a: Action): set<nat>
    requires Formed(s) && Enabled(s, a)
  {
    set e: nat | e < |s| &&
      if e == a.c then e in late && !s[e].pc.Looking? && !s[e].pc.Filling?
      else e in late || (Writes(s, a) && OnSameLine(s[e].pc, s[a.c].pc))
  }

  // No cache that has been overtaken makes its claim
  ghost predicate NoneLate(s: System, late: set<nat>, actions: seq<Action>)
    requires Runs(s, actions)
    decreases |actions|
  {
    |actions| > 0 ==>
      && !(actions[0].Acts? && Claims(s, actions[0].c, actions[0].granted) && actions[0].c in late)
      && NoneLate(Apply(s, actions[0]), Overtaken(s, late, actions[0]), actions[1..])
  }

  // ---------- Versions never run ahead of the writes, and a lost write stays lost ----------

  // Whatever may still be read or written is at least `gap` versions old
  ghost predicate Below(s: System, d: Data, line: nat, gap: nat)
    requires Formed(s)
  {
    && Shaped(s, d)
    && At(d.mem, line) + gap <= Last(d, line)
    && (forall c: nat, k: nat :: Copy(s, c, k, line) ==> d.held[c][k] + gap <= Last(d, line))
    && (forall c :: 0 <= c < |s| && Remembered(s[c].pc) && s[c].pc.addr / 32 == line ==>
          d.held[c][s[c].pc.way] + gap <= Last(d, line))
  }

  lemma BelowIs(s: System, d: Data, line: nat, gap: nat)
    requires Formed(s) && Below(s, d, line, gap)
    ensures Shaped(s, d)
  {
  }

  lemma WrittenBelow(s: System, s': System, d: Data, i: nat, way: nat, line: nat, l: nat, gap: nat)
    requires Formed(s) && Formed(s') && Below(s, d, l, gap) && i < |s| && |s'| == |s| && way < CACHE_SIZE && gap <= 1
    requires line == l ==> d.held[i][way] + gap <= Last(d, line)
    requires forall e: nat, k: nat :: Copy(s', e, k, l) && !(e == i && k == way) ==> Copy(s, e, k, l)
    requires Copy(s', i, way, l) ==> l == line
    requires !Remembered(s'[i].pc)
    requires forall e :: 0 <= e < |s| && e != i ==> s'[e].pc == s[e].pc
    ensures Below(s', Written(d, i, way, line), l, gap)
    ensures l == line && d.held[i][way] != Last(d, line) ==> Below(s', Written(d, i, way, line), l, 1)
  {
  }

  lemma ClaimBelow(s: System, d: Data, i: nat, line: nat, gap: nat)
    requires Coherent(s) && Formed(s) && Below(s, d, line, gap) && i < |s| && Claims(s, i, true) && gap <= 1
    ensures var a := Acts(i, true);
            && Formed(Apply(s, a)) && Below(Apply(s, a), Move(s, d, a), line, gap)
            && (s[i].pc.addr / 32 == line && d.held[i][s[i].pc.way] != Last(d, line)
                ==> Below(Apply(s, a), Move(s, d, a), line, 1))
  {
    var pc := s[i].pc;
    var s' := Apply(s, Acts(i, true));
    var c := if pc.Hit? then Touch(s[i], pc.way, s[i].lines[pc.way]) else s[i];
    assert CoreOk(s[i]);
    SameCopiesKeep(s[i].lines, c.lines);
    GrantClaims(s, i, c, pc.addr, pc.way);
    StepKeeps(s, Acts(i, true));
    FormedWhenCoherent(s');
    WrittenBelow(s, s', d, i, pc.way, pc.addr / 32, line, gap);
  }

  lemma EvictMoves(s: System, i: nat)
    requires Coherent(s) && Formed(s) && i < |s| && WritesBack(s, i, true)
    ensures var s', pc := Apply(s, Acts(i, true)), s[i].pc;
            && Formed(s') && |s'| == |s| && s'[i].pc.Filling?
            && (forall c :: 0 <= c < |s| && c != i ==> s'[c].pc == s[c].pc)
            && (forall e: nat, k: nat, l: nat :: Copy(s', e, k, l) ==> Copy(s, e, k, l))
            && Copy(s, i, pc.way, LineNo(s[i].lines[pc.way], pc.way))
  {
    var pc := s[i].pc;
    assert CoreOk(s[i]);
    StepKeeps(s, Acts(i, true));
    FormedWhenCoherent(Apply(s, Acts(i, true)));
    EvictLeaves(s, i, pc.func, pc.addr, pc.way);
    IndexIs(pc.addr);
  }

  lemma WrittenBackBelow(s: System, s': System, d: Data, i: nat, way: nat, line: nat, l: nat, gap: nat)
    requires Formed(s) && Formed(s') && Below(s, d, l, gap) && i < |s| && |s'| == |s| && way < CACHE_SIZE
    requires Copy(s, i, way, line) && !Remembered(s'[i].pc)
    requires forall c :: 0 <= c < |s| && c != i ==> s'[c].pc == s[c].pc
    requires forall e: nat, k: nat :: Copy(s', e, k, l) ==> Copy(s, e, k, l)
    ensures Below(s', d.(mem := d.mem[line := d.held[i][way]]), l, gap)
  {
  }

  lemma EvictBelow(s: System, d: Data, i: nat, line: nat, gap: nat)
    requires Coherent(s) && Formed(s) && Below(s, d, line, gap) && i < |s| && WritesBack(s, i, true)
    ensures var a := Acts(i, true); Formed(Apply(s, a)) && Below(Apply(s, a), Move(s, d, a), line, gap)
  {
    hide Below, Coherent, Apply, Copy;
    var pc := s[i].pc;
    EvictMoves(s, i);
    assert Shaped(s, d) by { BelowIs(s, d, line, gap); }
    WrittenBackBelow(s, Apply(s, Acts(i, true)), d, i, pc.way, LineNo(s[i].lines[pc.way], pc.way), line, gap);
  }

  lemma SuppliedBelow(s: System, d: Data, i: nat, addr: nat, gap: nat)
    requires Coherent(s) && Formed(s) && Below(s, d, addr / 32, gap) && i < |s|
    ensures Supplied(s, d, i, addr) + gap <= Last(d, addr / 32)
  {
    forall e: nat | e < |s| && e != i && FoundIn(s[e], addr) > -1
      ensures FoundIn(s[e], addr) < CACHE_SIZE && d.held[e][FoundIn(s[e], addr)] + gap <= Last(d, addr / 32)
    {
      WayFound(s[e], addr);
      PlaceOfLine(s[e].lines[FoundIn(s[e], addr)], FoundIn(s[e], addr), addr);
      assert Copy(s, e, FoundIn(s[e], addr), addr / 32);
    }
  }

  lemma LoadedBelow(s: System, s': System, d: Data, i: nat, way: nat, version: int, line: nat, l: nat, gap: nat)
    requires Formed(s) && Formed(s') && Below(s, d, l, gap) && Loaded(s, s', i, way, line) && way < CACHE_SIZE
    requires s[i].pc.Filling? && (Remembered(s'[i].pc) ==> s'[i].pc.way == way && s'[i].pc.addr / 32 == line)
    requires line == l ==> version + gap <= Last(d, line)
    ensures Below(s', Put(d, i, way, version), l, gap)
  {
  }

  lemma FillBelow(s: System, d: Data, i: nat, granted: bool, line: nat, gap: nat)
    requires Coherent(s) && Formed(s) && Below(s, d, line, gap) && i < |s| && s[i].pc.Filling? && gap <= 1
    ensures var a := Acts(i, granted); Formed(Apply(s, a)) && Below(Apply(s, a), Move(s, d, a), line, gap)
  {
    var pc := s[i].pc;
    var s', version := Apply(s, Acts(i, granted)), Supplied(s, d, i, pc.addr);
    assert CoreOk(s[i]);
    StepKeeps(s, Acts(i, granted));
    FormedWhenCoherent(s');
    FillLoads(s, i, pc.func, pc.addr, pc.way);
    if pc.addr / 32 == line { SuppliedBelow(s, d, i, pc.addr, gap); }
    LoadedBelow(s, s', d, i, pc.way, version, pc.addr / 32, line, gap);
    if pc.func.Write? && !Answered(s, i, pc.addr) {
      WrittenBelow(s', s', Put(d, i, pc.way, version), i, pc.way, pc.addr / 32, line, gap);
    }
  }

  // The way that a scan finds has a copy of the line
  lemma LookFinds(s: System, i: nat, func: Func, addr: nat)
    requires Coherent(s) && i < |s| && s[i].pc == Looking(func, addr)
    ensures var c' := Look(s[i], func, addr); c'.pc.Hit? ==> Copy(s, i, c'.pc.way, addr / 32)
  {
    if FoundIn(s[i], addr) > -1 {
      WayFound(s[i], addr);
      PlaceOfLine(s[i].lines[FoundIn(s[i], addr)], FoundIn(s[i], addr), addr);
    }
  }

  // A step that moves no copy and no data
  lemma StillBelow(s: System, s': System, d: Data, i: nat, line: nat, gap: nat)
    requires Formed(s) && Formed(s') && Below(s, d, line, gap) && i < |s| && |s'| == |s|
    requires SameCopies(s[i].lines, s'[i].lines)
    requires forall c :: 0 <= c < |s| && c != i ==> s'[c] == s[c]
    requires Remembered(s'[i].pc) ==> Follows(s[i].pc, s'[i].pc) || Copy(s, i, s'[i].pc.way, s'[i].pc.addr / 32)
    ensures Below(s', d, line, gap)
  {
    forall e: nat, k: nat ensures Copy(s', e, k, line) <==> Copy(s, e, k, line) { }
  }

  // The thread still remembers the same way
  predicate Follows(p: Pc, q: Pc) {
    Remembered(p) && Remembered(q) && q.way == p.way && q.addr == p.addr
  }

  // A step of one cache on its own
  predicate Alone(s: System, a: Action)
    requires Formed(s) && Enabled(s, a)
  {
    a.Acts? ==> !s[a.c].pc.Filling? && !Claims(s, a.c, a.granted) && !WritesBack(s, a.c, a.granted)
  }

  lemma AloneMoves(s: System, a: Action)
    requires Coherent(s) && Formed(s) && Enabled(s, a) && Alone(s, a)
    ensures var s', i := Apply(s, a), a.c;
            && Formed(s') && |s'| == |s| && SameCopies(s[i].lines, s'[i].lines)
            && (forall c :: 0 <= c < |s| && c != i ==> s'[c] == s[c])
            && (Remembered(s'[i].pc) ==>
                  if s[i].pc.Looking? then Copy(s, i, s'[i].pc.way, s'[i].pc.addr / 32)
                  else Follows(s[i].pc, s'[i].pc))
  {
    var c := s[a.c];
    assert CoreOk(c);
    StepKeeps(s, a);
    FormedWhenCoherent(Apply(s, a));
    if c.pc.Looking? {
      LookFinds(s, a.c, c.pc.func, c.pc.addr);
      LookKeeps(c, c.pc.func, c.pc.addr);
    }
  }

  lemma AloneBelow(s: System, d: Data, a: Action, line: nat, gap: nat)
    requires Coherent(s) && Formed(s) && Below(s, d, line, gap) && Enabled(s, a) && Alone(s, a)
    ensures Formed(Apply(s, a)) && Below(Apply(s, a), d, line, gap)
  {
    hide Below, Coherent, Apply, SameCopies, Copy;
    AloneMoves(s, a);
    StillBelow(s, Apply(s, a), d, a.c, line, gap);
  }

  lemma StepBelow(s: System, d: Data, a: Action, line: nat, gap: nat)
    requires Coherent(s) && Formed(s) && Below(s, d, line, gap) && Enabled(s, a) && gap <= 1
    ensures Formed(Apply(s, a)) && Below(Apply(s, a), Move(s, d, a), line, gap)
  {
    hide Below, Coherent;
    var c := s[a.c];
    if a.Requests? {
      AloneBelow(s, d, a, line, gap);
    } else if c.pc.Filling? {
      FillBelow(s, d, a.c, a.granted, line, gap);
    } else if Claims(s, a.c, a.granted) {
      ClaimBelow(s, d, a.c, line, gap);
    } else if WritesBack(s, a.c, a.granted) {
      EvictBelow(s, d, a.c, line, gap);
    } else {
      AloneBelow(s, d, a, line, gap);
    }
  }

  lemma BelowIsOld(s: System, d: Data, line: nat)
    requires Formed(s) && Below(s, d, line, 1)
    ensures !Current(s, d)
  {
    forall c: nat, k: nat | DirtyCopy(s, c, k, line) ensures d.held[c][k] != Last(d, line) {
      assert Copy(s, c, k, line);
    }
    assert Backed(s, d, line) ==> exists c: nat, k: nat :: Copy(s, c, k, line) && d.held[c][k] != Last(d, line);
  }

  // Once a write is lost, no later step brings it back
  lemma {:induction false} StaysLost(s: System, d: Data, actions: seq<Action>, line: nat)
    requires Coherent(s) && Formed(s) && Below(s, d, line, 1) && Runs(s, actions)
    ensures !Current(After(s, actions), DataAfter(s, d, actions))
    decreases |actions|
  {
    if |actions| == 0 {
      BelowIsOld(s, d, line);
    } else {
      StepKeeps(s, actions[0]);
      StepBelow(s, d, actions[0], line, 1);
      StaysLost(Apply(s, actions[0]), Move(s, d, actions[0]), actions[1..], line);
    }
  }

  // ---------- What being overtaken means ----------

  // A way that may be written to has the last version exactly when its cache has not been overtaken
  ghost predicate Marked(s: System, d: Data, late: set<nat>)
    requires Formed(s) && Shaped(s, d)
  {
    forall c: nat :: c < |s| && Remembered(s[c].pc) ==>
      (d.held[c][s[c].pc.way] == Last(d, s[c].pc.addr / 32) <==> c !in late)
  }

  // Every copy is of the last version, and the marks tell who has been overtaken
  ghost predicate Tracked(s: System, d: Data, late: set<nat>) {
    && Coherent(s) && Formed(s) && Current(s, d) && Marked(s, d, late)
    && forall line: nat :: Below(s, d, line, 0)
  }

  // ---------- Steps ----------

  lemma AloneMarked(s: System, d: Data, late: set<nat>, a: Action)
    requires Tracked(s, d, late) && Enabled(s, a) && Alone(s, a)
    ensures Formed(Apply(s, a)) && Shaped(Apply(s, a), d) && Marked(Apply(s, a), d, Overtaken(s, late, a))
  {
    AloneMoves(s, a);
  }

  lemma EvictMarked(s: System, d: Data, late: set<nat>, i: nat)
    requires Tracked(s, d, late) && i < |s| && WritesBack(s, i, true)
    ensures var a := Acts(i, true);
            var s', d' := Apply(s, a), Move(s, d, a);
            Formed(s') && Shaped(s', d') && Marked(s', d', Overtaken(s, late, a))
  {
    EvictMoves(s, i);
  }

  // Every cache that works on the line, but for the one that writes, is overtaken by the write
  lemma WrittenMarked(s: System, s': System, d: Data, i: nat, way: nat, line: nat, late: set<nat>, late': set<nat>)
    requires Formed(s) && Formed(s') && Shaped(s, d) && Marked(s, d, late) && Below(s, d, line, 0)
    requires i < |s| && |s'| == |s| && way < CACHE_SIZE && !Remembered(s'[i].pc)
    requires forall c :: 0 <= c < |s| && c != i ==> s'[c].pc == s[c].pc
    requires forall c: nat :: c < |s| && c != i && Remembered(s[c].pc) ==>
               (c in late' <==> c in late || s[c].pc.addr / 32 == line)
    ensures Shaped(s', Written(d, i, way, line)) && Marked(s', Written(d, i, way, line), late')
  {
  }

  lemma ClaimMarked(s: System, d: Data, late: set<nat>, i: nat)
    requires Tracked(s, d, late) && i < |s| && Claims(s, i, true)
    ensures var a := Acts(i, true);
            var s', d' := Apply(s, a), Move(s, d, a);
            Formed(s') && Shaped(s', d') && Marked(s', d', Overtaken(s, late, a))
  {
    var pc := s[i].pc;
    StepKeeps(s, Acts(i, true));
    FormedWhenCoherent(Apply(s, Acts(i, true)));
    WrittenMarked(s, Apply(s, Acts(i, true)), d, i, pc.way, pc.addr / 32, late, Overtaken(s, late, Acts(i, true)));
  }

  lemma LoadedMarked(s: System, s': System, d: Data, i: nat, way: nat, line: nat, late: set<nat>)
    requires Formed(s) && Formed(s') && Shaped(s, d) && Marked(s, d, late) && way < CACHE_SIZE
    requires Loaded(s, s', i, way, line) && (Remembered(s'[i].pc) ==> s'[i].pc.way == way && s'[i].pc.addr / 32 == line)
    ensures var d1 := Put(d, i, way, Last(d, line)); Shaped(s', d1) && Marked(s', d1, late - {i})
  {
  }

  lemma FillMarked(s: System, d: Data, late: set<nat>, i: nat, granted: bool)
    requires Tracked(s, d, late) && i < |s| && s[i].pc.Filling?
    ensures var a := Acts(i, granted);
            var s', d' := Apply(s, a), Move(s, d, a);
            Formed(s') && Shaped(s', d') && Marked(s', d', Overtaken(s, late, a))
  {
    hide Current, Coherent, Below, Marked, Loaded, Apply;
    TrackedIs(s, d, late);
    var pc, a := s[i].pc, Acts(i, granted);
    var s', late', line := Apply(s, a), Overtaken(s, late, a), pc.addr / 32;
    FillsHere(s, i, granted);
    SuppliesLast(s, d, i, pc.addr, pc.way);
    var d1 := Put(d, i, pc.way, Last(d, line));
    LoadedMarked(s, s', d, i, pc.way, line, late);
    if pc.func.Write? && !Answered(s, i, pc.addr) {
      assert Below(s, d, line, 0);
      LoadedBelow(s, s', d, i, pc.way, Last(d, line), line, line, 0);
      WrittenMarked(s', s', d1, i, pc.way, line, late - {i}, late');
      assert Move(s, d, a) == Written(d1, i, pc.way, line);
    } else {
      MarkedIgnores(s', d1, late - {i}, late');
      assert Move(s, d, a) == d1;
    }
  }

  lemma MarkedIgnores(s: System, d: Data, late: set<nat>, late': set<nat>)
    requires Formed(s) && Shaped(s, d) && Marked(s, d, late)
    requires forall c: nat :: c < |s| ==> (c in late <==> c in late')
    ensures Marked(s, d, late')
  {
  }

  lemma FillsHere(s: System, i: nat, granted: bool)
    requires Coherent(s) && Formed(s) && i < |s| && s[i].pc.Filling?
    ensures var s', pc := Apply(s, Acts(i, granted)), s[i].pc;
            && Coherent(s') && Formed(s') && |s'| == |s| && Absent(s[i].lines, pc.addr, pc.way)
            && Loaded(s, s', i, pc.way, pc.addr / 32)
            && (forall c :: 0 <= c < |s| && c != i ==> s'[c].pc == s[c].pc)
            && s'[i].pc == if pc.func.Write? && Answered(s, i, pc.addr) then Claiming(pc.addr, pc.way) else Idle
  {
    var pc := s[i].pc;
    assert CoreOk(s[i]);
    StepKeeps(s, Acts(i, granted));
    FormedWhenCoherent(Apply(s, Acts(i, granted)));
    FillLoads(s, i, pc.func, pc.addr, pc.way);
  }

  lemma TrackedIs(s: System, d: Data, late: set<nat>)
    requires Tracked(s, d, late)
    ensures Shaped(s, d)
    ensures forall c: nat :: c < |s| && Remembered(s[c].pc) ==>
              (d.held[c][s[c].pc.way] == Last(d, s[c].pc.addr / 32) <==> c !in late)
  {
  }

  // A step in which no cache that has been overtaken makes its claim
  lemma StepTracked(s: System, d: Data, late: set<nat>, a: Action)
    requires Tracked(s, d, late) && Enabled(s, a)
    requires !(a.Acts? && Claims(s, a.c, a.granted) && a.c in late)
    ensures Tracked(Apply(s, a), Move(s, d, a), Overtaken(s, late, a))
  {
    hide Marked, Below, Coherent, Current, Overtaken;
    TrackedIs(s, d, late);
    StepKeeps(s, a);
    FormedWhenCoherent(Apply(s, a));
    forall line: nat ensures Below(Apply(s, a), Move(s, d, a), line, 0) {
      StepBelow(s, d, a, line, 0);
    }
    if a.Acts? && Claims(s, a.c, a.granted) {
      ClaimIsCurrentIff(s, d, a.c);
      ClaimMarked(s, d, late, a.c);
    } else {
      StepCurrent(s, d, a);
      if a.Acts? && s[a.c].pc.Filling? {
        FillMarked(s, d, late, a.c, a.granted);
      } else if a.Acts? && WritesBack(s, a.c, a.granted) {
        EvictMarked(s, d, late, a.c);
      } else {
        AloneMarked(s, d, late, a);
      }
    }
  }

  // ---------- Runs ----------

  lemma {:induction false} RunTracked(s: System, d: Data, late: set<nat>, actions: seq<Action>)
    requires Tracked(s, d, late) && Runs(s, actions)
    ensures Current(After(s, actions), DataAfter(s, d, actions)) <==> NoneLate(s, late, actions)
    decreases |actions|
  {
    hide Marked, Below, Current, Overtaken;
    TrackedIs(s, d, late);
    if |actions| > 0 {
      var a := actions[0];
      if a.Acts? && Claims(s, a.c, a.granted) && a.c in late {
        assert Below(s, d, s[a.c].pc.addr / 32, 0);
        ClaimBelow(s, d, a.c, s[a.c].pc.addr / 32, 0);
        StepKeeps(s, a);
        StaysLost(Apply(s, a), Move(s, d, a), actions[1..], s[a.c].pc.addr / 32);
      } else {
        StepTracked(s, d, late, a);
        RunTracked(Apply(s, a), Move(s, d, a), Overtaken(s, late, a), actions[1..]);
      }
    }
  }

  lemma InitiallyTracked(s0: System, d0: Data)
    requires Initial(s0) && Unwritten(s0, d0)
    ensures Tracked(s0, d0, {})
  {
    InitialIsCoherent(s0);
    forall e: nat, j: nat, l: nat ensures !Copy(s0, e, j, l) { assert e < |s0| ==> Empty(s0[e]); }
    forall l: nat ensures Backed(s0, d0, l) { assert InMemory(d0, l); }
    assert forall c: nat :: c < |s0| ==> Empty(s0[c]);
  }

  // In every run, every copy is of the last write to its line and memory is behind only a modified or owned copy
  // exactly when no cache that has been overtaken makes its claim. A write that is lost never comes back.
  lemma NoWriteIsLostIff(s0: System, d0: Data, actions: seq<Action>)
    requires Initial(s0) && Unwritten(s0, d0) && Runs(s0, actions)
    ensures Current(After(s0, actions), DataAfter(s0, d0, actions)) <==> NoneLate(s0, {}, actions)
  {
    InitiallyTracked(s0, d0);
    RunTracked(s0, d0, {}, actions);
  }

  lemma {:induction false} AloneIsNeverLate(s: System, actions: seq<Action>)
    requires |s| <= 1 && Runs(s, actions)
    ensures NoneLate(s, {}, actions)
    decreases |actions|
  {
    if |actions| > 0 {
      assert Overtaken(s, {}, actions[0]) == {};
      AloneIsNeverLate(Apply(s, actions[0]), actions[1..]);
    }
  }

  // No run loses a write exactly when there is one cache at most
  lemma NeverLostIff(s0: System, d0: Data)
    requires Initial(s0) && Unwritten(s0, d0)
    ensures (forall actions :: Runs(s0, actions) ==> Current(After(s0, actions), DataAfter(s0, d0, actions)))
            <==> |s0| <= 1
  {
    if |s0| <= 1 {
      forall actions | Runs(s0, actions) ensures Current(After(s0, actions), DataAfter(s0, d0, actions)) {
        AloneIsNeverLate(s0, actions);
        NoWriteIsLostIff(s0, d0, actions);
      }
    } else {
      var actions := WritesCanBeLost(s0, d0);
      assert Copy(After(s0, actions), 0, 7, 0);
    }
  }
}
