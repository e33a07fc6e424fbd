/** What the accesses of the plain initiators read and write, by regular transactions and through DMI grants. */
module SnoopingData {
  import opened Snooping
  import opened SnoopingSafety

  predicate IsWord(addr: nat) { addr % 4 == 0 && addr < 512 }

  // The four bytes that a read of the address gets, by either way
  function Word(s: System, addr: nat): seq<int>
    requires Formed(s) && IsWord(addr)
  {
    s.memories[TargetOf(addr)].bytes[Masked(addr)..Masked(addr) + 4]
  }

  predicate WritesTo(a: Action, addr: nat) { a.Accesses? && a.cmd.Write? && a.addr == addr }

  // Two words are the same or have no byte in common
  lemma WordsApart(addr: nat, other: nat)
    requires IsWord(addr) && IsWord(other) && TargetOf(addr) == TargetOf(other) && addr != other
    ensures Masked(addr) + 4 <= Masked(other) || Masked(other) + 4 <= Masked(addr)
  {
  }

  lemma WordInMemory(addr: nat)
    requires IsWord(addr)
    ensures TargetOf(addr) < 2 && Masked(addr) + 4 <= SIZE
  {
  }

  // The bytes after a step: a write changes the word at its address, and nothing else changes
  lemma StepBytes(s: System, a: Action)
    requires Formed(s) && Enabled(s, a)
    ensures var s' := Apply(s, a);
            && Formed(s')
            && forall t :: 0 <= t < 2 ==>
                 s'.memories[t].bytes == if a.Accesses? && a.cmd.Write? && t == TargetOf(a.addr)
                                         then Store(s.memories[t].bytes, Masked(a.addr), a.data)
                                         else s.memories[t].bytes
  {
    if a.Snoops? {
      RegionInMemory(s.snooper);
    } else {
      WordInMemory(a.addr);
      StoreIs(s.memories[TargetOf(a.addr)].bytes, Masked(a.addr), a.data);
    }
  }

  lemma StepWord(s: System, a: Action, addr: nat)
    requires Formed(s) && Enabled(s, a) && IsWord(addr)
    ensures Formed(Apply(s, a))
    ensures Word(Apply(s, a), addr) == if WritesTo(a, addr) then a.data else Word(s, addr)
  {
    hide Masked, TargetOf, Apply, Store;
    StepBytes(s, a);
    WordInMemory(addr);
    if a.Accesses? && a.cmd.Write? && TargetOf(a.addr) == TargetOf(addr) {
      WordInMemory(a.addr);
      StoreIs(s.memories[TargetOf(addr)].bytes, Masked(a.addr), a.data);
      if a.addr != addr { WordsApart(addr, a.addr); }
    }
  }

  // In every run a read, regular or through a grant, gets what the last write to its address has put there, and
  // what was there at first if there is none
  lemma {:induction false} ReadsGetTheLastWrite(s0: System, actions: seq<Action>, addr: nat, last: int)
    requires Formed(s0) && Runs(s0, actions) && IsWord(addr)
    requires -1 <= last < |actions| && (last >= 0 ==> WritesTo(actions[last], addr))
    requires forall k :: last < k < |actions| ==> !WritesTo(actions[k], addr)
    ensures Formed(After(s0, actions))
    ensures Word(After(s0, actions), addr) == if last >= 0 then actions[last].data else Word(s0, addr)
    decreases |actions|
  {
    if |actions| > 0 {
      StepWord(s0, actions[0], addr);
      ReadsGetTheLastWrite(Apply(s0, actions[0]), actions[1..], addr, if last > 0 then last - 1 else -1);
    }
  }

  // ---------- What ends a snoop ----------

  predicate Within(k: nat, lo: nat, hi: nat) { lo <= k <= hi }

  // Some byte of the word at the address is snooped
  ghost predicate Snooped(m: Memory, adr: nat) {
    m.writeSnoop && exists k: nat :: Within(k, adr, adr + 3) && Within(k, m.snoopStart, m.snoopEnd)
  }

  // The test of b_transport catches a write exactly when one of its bytes is snooped
  lemma CaughtIff(m: Memory, adr: nat)
    requires m.snoopStart <= m.snoopEnd
    ensures Caught(m, adr) <==> Snooped(m, adr)
  {
    if Caught(m, adr) {
      var k := if adr < m.snoopStart then m.snoopStart else adr;
      assert Within(k, adr, adr + 3) && Within(k, m.snoopStart, m.snoopEnd);
    }
  }

  // Some byte of the word is in the region that the snooping initiator executes from
  ghost predicate InRegion(p: Snooper, addr: nat) {
    exists k: nat :: Within(k, addr, addr + 3) && Within(k, p.start, p.end)
  }

  lemma RegionIsSnooped(s: System, addr: nat)
    requires Inv(s) && s.snooper.dmiValid && IsWord(addr)
    ensures Snooped(s.memories[TargetOf(addr)], Masked(addr)) <==> InRegion(s.snooper, addr)
  {
    hide Masked, TargetOf;
    WordInMemory(addr);
    var p, m := s.snooper, s.memories[TargetOf(addr)];
    var base := TargetOf(addr) * SIZE;
    RegionInMemory(p);
    InMemory(addr);
    InMemory(p.start);
    InMemory(p.end);
    if Snooped(m, Masked(addr)) {
      var k: nat :| Within(k, Masked(addr), Masked(addr) + 3) && Within(k, m.snoopStart, m.snoopEnd);
      assert Within(k + base, addr, addr + 3) && Within(k + base, p.start, p.end);
    }
    if InRegion(p, addr) {
      var k: nat :| Within(k, addr, addr + 3) && Within(k, p.start, p.end);
      InMemory(k);
      SameMemory(p, addr, k);
      assert Within(k - base, Masked(addr), Masked(addr) + 3) && Within(k - base, m.snoopStart, m.snoopEnd);
    }
  }

  lemma InMemory(a: nat)
    requires a < 512
    ensures a == TargetOf(a) * SIZE + Masked(a) && Masked(a) < SIZE
  {
  }

  lemma SameMemory(p: Snooper, addr: nat, k: nat)
    requires RegionOk(p) && IsWord(addr) && addr <= k < addr + 4 && p.start <= k <= p.end
    ensures TargetOf(addr) == TargetOf(k) == TargetOf(p.start)
  {
  }

  // The snooping initiator stops trusting its cache exactly at a write to a byte of its region
  lemma SnoopEndsIff(s0: System, actions: seq<Action>, a: Action)
    requires Initial(s0) && Runs(s0, actions) && Revokes(s0, actions)
    requires Formed(After(s0, actions)) && Enabled(After(s0, actions), a) && After(s0, actions).snooper.dmiValid
    ensures var s := After(s0, actions);
            Apply(s, a).snooper.dmiValid <==> !(a.cmd.Write? && InRegion(s.snooper, a.addr))
  {
    var s := After(s0, actions);
    InitialInv(s0);
    RunKeeps(s0, actions);
    WordInMemory(a.addr);
    RegionInMemory(s.snooper);
    RegionIsSnooped(s, a.addr);
    var m := s.memories[TargetOf(a.addr)];
    if m.writeSnoop { CaughtIff(m, Masked(a.addr)); }
  }
}
