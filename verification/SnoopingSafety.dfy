/** The snooping initiator never executes stale instructions, exactly as long as revoked write grants go. */
module SnoopingSafety {
  import opened Snooping

  // ---------- The erase loop ----------

  // What the loop leaves: it passes over whatever follows an erased entry
  function Sweep(table: seq<Grant>, lo: nat, hi: nat): seq<Grant> {
    if |table| == 0 then []
    else if !Overlaps(table[0], lo, hi) then [table[0]] + Sweep(table[1..], lo, hi)
    else if |table| == 1 then []
    else [table[1]] + Sweep(table[2..], lo, hi)
  }

  lemma {:induction false} EraseIsSweep(table: seq<Grant>, i: nat, lo: nat, hi: nat)
    requires i <= |table|
    ensures Erase(table, i, lo, hi) == table[..i] + Sweep(table[i..], lo, hi)
    decreases |table| - i
  {
    if i < |table| {
      if !Overlaps(table[i], lo, hi) {
        EraseIsSweep(table, i + 1, lo, hi);
        assert table[i..][1..] == table[i + 1..];
      } else {
        var t1 := Remove(table, i);
        if i == |t1| {
          assert Erase(t1, i + 1, lo, hi) == t1;
          assert table[i..] == [table[i]];
        } else {
          EraseIsSweep(t1, i + 1, lo, hi);
          assert table[i..][1] == t1[i] && table[i..][2..] == t1[i + 1..];
          assert t1[..i + 1] == table[..i] + [t1[i]];
        }
      }
    }
  }

  ghost predicate Clear(table: seq<Grant>, lo: nat, hi: nat) {
    forall k :: 0 <= k < |table| ==> !Overlaps(table[k], lo, hi)
  }

  ghost predicate NoneAdjacent(table: seq<Grant>, lo: nat, hi: nat) {
    forall k :: 0 < k < |table| ==> !(Overlaps(table[k - 1], lo, hi) && Overlaps(table[k], lo, hi))
  }

  // The loop erases every overlapping grant exactly when no two of them are next to each other
  lemma {:induction false} SweepClearsIff(table: seq<Grant>, lo: nat, hi: nat)
    ensures Clear(Sweep(table, lo, hi), lo, hi) <==> NoneAdjacent(table, lo, hi)
  {
    if |table| == 0 {
    } else if !Overlaps(table[0], lo, hi) {
      SweepClearsIff(table[1..], lo, hi);
      var rest := Sweep(table[1..], lo, hi);
      assert Clear(rest, lo, hi) <==> Clear([table[0]] + rest, lo, hi) by {
        if Clear([table[0]] + rest, lo, hi) {
          forall k | 0 <= k < |rest|
            ensures !Overlaps(rest[k], lo, hi)
          {
            assert ([table[0]] + rest)[k + 1] == rest[k];
          }
        }
      }
      NoneAdjacentTail(table, lo, hi);
    } else if |table| > 1 {
      SweepClearsIff(table[2..], lo, hi);
      var rest := Sweep(table[2..], lo, hi);
      assert Clear([table[1]] + rest, lo, hi) <==> !Overlaps(table[1], lo, hi) && Clear(rest, lo, hi) by {
        if Clear([table[1]] + rest, lo, hi) {
          assert ([table[1]] + rest)[0] == table[1];
          forall k | 0 <= k < |rest|
            ensures !Overlaps(rest[k], lo, hi)
          {
            assert ([table[1]] + rest)[k + 1] == rest[k];
          }
        }
      }
      NoneAdjacentTail(table, lo, hi);
      NoneAdjacentTail(table[1..], lo, hi);
      assert table[1..][1..] == table[2..];
    }
  }

  lemma NoneAdjacentTail(table: seq<Grant>, lo: nat, hi: nat)
    requires |table| > 0
    ensures NoneAdjacent(table, lo, hi) <==>
              && NoneAdjacent(table[1..], lo, hi)
              && (|table| > 1 ==> !(Overlaps(table[0], lo, hi) && Overlaps(table[1], lo, hi)))
  {
    var tail := table[1..];
    if NoneAdjacent(table, lo, hi) {
      forall k | 0 < k < |tail| ensures !(Overlaps(tail[k - 1], lo, hi) && Overlaps(tail[k], lo, hi)) {
        assert tail[k - 1] == table[k] && tail[k] == table[k + 1];
      }
    }
    if NoneAdjacent(tail, lo, hi) && (|table| > 1 ==> !(Overlaps(table[0], lo, hi) && Overlaps(table[1], lo, hi))) {
      forall k | 0 < k < |table| ensures !(Overlaps(table[k - 1], lo, hi) && Overlaps(table[k], lo, hi)) {
        if k > 1 { assert table[k - 1] == tail[k - 2] && table[k] == tail[k - 1]; }
      }
    }
  }

  // The grants that do not overlap, in order
  function Apart(table: seq<Grant>, lo: nat, hi: nat): seq<Grant> {
    if |table| == 0 then []
    else (if Overlaps(table[0], lo, hi) then [] else [table[0]]) + Apart(table[1..], lo, hi)
  }

  // The loop never erases a grant that does not overlap, and keeps the order
  lemma {:induction false} SweepKeepsApart(table: seq<Grant>, lo: nat, hi: nat)
    ensures Apart(Sweep(table, lo, hi), lo, hi) == Apart(table, lo, hi)
  {
    if |table| == 0 {
    } else if !Overlaps(table[0], lo, hi) {
      SweepKeepsApart(table[1..], lo, hi);
      assert ([table[0]] + Sweep(table[1..], lo, hi))[1..] == Sweep(table[1..], lo, hi);
    } else if |table| > 1 {
      SweepKeepsApart(table[2..], lo, hi);
      assert ([table[1]] + Sweep(table[2..], lo, hi))[1..] == Sweep(table[2..], lo, hi);
      assert table[1..][1..] == table[2..];
    }
  }

  // What invalidate_direct_mem_ptr of a plain initiator does, in sum
  lemma EraseIsExact(table: seq<Grant>, lo: nat, hi: nat)
    ensures var left := Erase(table, 0, lo, hi);
            && (Clear(left, lo, hi) <==> NoneAdjacent(table, lo, hi))
            && Apart(left, lo, hi) == Apart(table, lo, hi)
  {
    EraseIsSweep(table, 0, lo, hi);
    assert table[0..] == table && [] + Sweep(table, lo, hi) == Sweep(table, lo, hi);
    SweepClearsIff(table, lo, hi);
    SweepKeepsApart(table, lo, hi);
  }

  // ---------- The tables ----------

  // A grant for the whole of memory t
  predicate For(g: Grant, t: nat) {
    t < 2 && g.start == t * SIZE && g.end == t * SIZE + SIZE - 1
  }

  // Grants are for whole memories; for each memory at most a read grant and after it a write grant
  ghost predicate TableOk(table: seq<Grant>) {
    && (forall k :: 0 <= k < |table| ==> For(table[k], 0) || For(table[k], 1))
    && (forall j, k :: 0 <= j < k < |table| && table[j].start == table[k].start ==>
         !table[j].writing && table[k].writing)
  }

  predicate WriteGrant(table: seq<Grant>, t: nat) {
    exists k :: 0 <= k < |table| && For(table[k], t) && table[k].writing
  }

  // A read grant for memory t directly followed by a write grant for it
  predicate Pair(table: seq<Grant>, t: nat) {
    exists k :: 0 < k < |table| && For(table[k - 1], t) && For(table[k], t)
  }

  lemma RemoveKeeps(table: seq<Grant>, i: nat)
    requires TableOk(table) && i < |table|
    ensures TableOk(Remove(table, i))
    ensures forall t :: WriteGrant(Remove(table, i), t) ==> WriteGrant(table, t)
  {
    var left := Remove(table, i);
    forall k | 0 <= k < |left| ensures left[k] == table[if k < i then k else k + 1] { }
    forall t | WriteGrant(left, t) ensures WriteGrant(table, t) {
      var k :| 0 <= k < |left| && For(left[k], t) && left[k].writing;
      assert left[k] == table[if k < i then k else k + 1];
    }
  }

  lemma {:induction false} EraseKeeps(table: seq<Grant>, i: nat, lo: nat, hi: nat)
    requires TableOk(table)
    ensures TableOk(Erase(table, i, lo, hi))
    ensures forall t :: WriteGrant(Erase(table, i, lo, hi), t) ==> WriteGrant(table, t)
    decreases |table| - i
  {
    if i < |table| {
      if Overlaps(table[i], lo, hi) {
        RemoveKeeps(table, i);
        EraseKeeps(Remove(table, i), i + 1, lo, hi);
      } else {
        EraseKeeps(table, i + 1, lo, hi);
      }
    }
  }

  lemma OverlapIsFor(g: Grant, t: nat, lo: nat, hi: nat)
    requires (For(g, 0) || For(g, 1)) && t < 2 && lo <= hi < SIZE
    ensures Overlaps(g, Reconstruct(lo, t), Reconstruct(hi, t)) <==> For(g, t)
  {
  }

  // After the loop a write grant for memory t is left exactly when there was a pair
  lemma WriteGrantLeftIff(table: seq<Grant>, t: nat, lo: nat, hi: nat)
    requires TableOk(table) && t < 2 && lo <= hi < SIZE
    ensures WriteGrant(Erase(table, 0, Reconstruct(lo, t), Reconstruct(hi, t)), t) <==> Pair(table, t)
  {
    var l, h := Reconstruct(lo, t), Reconstruct(hi, t);
    forall k | 0 <= k < |table|
      ensures Overlaps(table[k], l, h) <==> For(table[k], t)
    {
      OverlapIsFor(table[k], t, lo, hi);
    }
    EraseIsSweep(table, 0, l, h);
    assert table[0..] == table && [] + Sweep(table, l, h) == Sweep(table, l, h);
    SweepLeaves(table, t, l, h);
  }

  lemma {:induction false} SweepLeaves(table: seq<Grant>, t: nat, l: nat, h: nat)
    requires TableOk(table) && (forall k :: 0 <= k < |table| ==> (Overlaps(table[k], l, h) <==> For(table[k], t)))
    ensures WriteGrant(Sweep(table, l, h), t) <==> Pair(table, t)
  {
    if |table| == 0 {
    } else if !Overlaps(table[0], l, h) {
      SweepLeaves(table[1..], t, l, h);
      WriteGrantTail(table[0], Sweep(table[1..], l, h), t);
      PairTail(table, t);
    } else if |table| > 1 {
      SweepLeaves(table[2..], t, l, h);
      WriteGrantTail(table[1], Sweep(table[2..], l, h), t);
      PairTail(table, t);
      PairTail(table[1..], t);
      assert table[1..][1..] == table[2..];
      assert For(table[1], t) ==> table[0].start == table[1].start;
    }
  }

  lemma WriteGrantTail(g: Grant, rest: seq<Grant>, t: nat)
    ensures WriteGrant([g] + rest, t) <==> (For(g, t) && g.writing) || WriteGrant(rest, t)
  {
    var all := [g] + rest;
    if WriteGrant(rest, t) {
      var k :| 0 <= k < |rest| && For(rest[k], t) && rest[k].writing;
      assert all[k + 1] == rest[k];
    }
    if For(g, t) && g.writing { assert all[0] == g; }
  }

  lemma PairTail(table: seq<Grant>, t: nat)
    requires |table| > 0
    ensures Pair(table, t) <==> Pair(table[1..], t) || (|table| > 1 && For(table[0], t) && For(table[1], t))
  {
    var tail := table[1..];
    if Pair(tail, t) {
      var k :| 0 < k < |tail| && For(tail[k - 1], t) && For(tail[k], t);
      assert For(table[k], t) && For(table[k + 1], t);
    }
    if Pair(table, t) {
      var k :| 0 < k < |table| && For(table[k - 1], t) && For(table[k], t);
      if k > 1 { assert For(tail[k - 2], t) && For(tail[k - 1], t); }
    }
    if |table| > 1 && For(table[0], t) && For(table[1], t) { assert For(table[1 - 1], t); }
  }

  // ---------- The invariant ----------

  // While the initiator may execute from its cache: its region is snooped, nobody may write there behind the
  // memory's back, and the cache is what the memory holds
  ghost predicate Protected(s: System)
    requires Formed(s)
  {
    var p, t := s.snooper, TargetOf(s.snooper.start);
    var m := s.memories[t];
    && m.writeSnoop && m.snoopStart == Masked(p.start) && m.snoopEnd == Masked(p.end)
    && p.cache == m.bytes[Masked(p.start)..Masked(p.end) + 1]
    && (forall i :: 0 <= i < |s.tables| ==> !WriteGrant(s.tables[i], t))
  }

  ghost predicate Inv(s: System) {
    && Formed(s)
    && (forall i :: 0 <= i < |s.tables| ==> TableOk(s.tables[i]))
    && (forall t :: 0 <= t < 2 && s.memories[t].writeSnoop ==> t == TargetOf(s.snooper.start) && s.snooper.dmiValid)
    && (s.snooper.dmiValid ==> Protected(s))
  }

  // No table holds a read grant for the region's memory directly followed by a write grant for it
  ghost predicate Separable(s: System) {
    forall i :: 0 <= i < |s.tables| ==> !Pair(s.tables[i], TargetOf(s.snooper.start))
  }

  lemma RegionInMemory(p: Snooper)
    requires RegionOk(p)
    ensures Masked(p.start) <= Masked(p.end) < SIZE && Masked(p.start) % 4 == 0 && TargetOf(p.start) < 2
    ensures Reconstruct(Masked(p.start), TargetOf(p.start)) == p.start
    ensures Reconstruct(Masked(p.end), TargetOf(p.start)) == p.end
  {
  }

  // After asking for the region again all is well exactly when no pair was in the tables
  lemma SnoopIsSafeIff(s: System)
    requires Inv(s) && !s.snooper.dmiValid
    ensures Inv(Snoop(s)) <==> Separable(s)
  {
    var p, t := s.snooper, TargetOf(s.snooper.start);
    var lo, hi := Masked(p.start), Masked(p.end);
    var s' := Snoop(s);
    RegionInMemory(p);
    forall i | 0 <= i < |s.tables|
      ensures TableOk(s'.tables[i]) && (WriteGrant(s'.tables[i], t) <==> Pair(s.tables[i], t))
    {
      EraseKeeps(s.tables[i], 0, Reconstruct(lo, t), Reconstruct(hi, t));
      WriteGrantLeftIff(s.tables[i], t, lo, hi);
    }
    assert Formed(s');
  }

  // ---------- Accesses ----------

  // The four bytes of the store are the data, and no other byte changes
  lemma StoreIs(bytes: seq<int>, adr: nat, data: seq<int>)
    requires adr + 4 <= |bytes| && |data| == 4
    ensures var b := Store(bytes, adr, data);
            && |b| == |bytes| && b[adr..adr + 4] == data
            && forall k :: 0 <= k < |b| ==> b[k] == if adr <= k < adr + 4 then data[k - adr] else bytes[k]
  {
    var b := Store(bytes, adr, data);
    forall k | 0 <= k < |b| ensures b[k] == if adr <= k < adr + 4 then data[k - adr] else bytes[k] {
      if k >= adr + 4 { assert b[k] == bytes[adr + 4..][k - (adr + 4)]; }
    }
  }

  lemma StoreElsewhere(bytes: seq<int>, adr: nat, data: seq<int>, lo: nat, hi: nat)
    requires adr + 4 <= |bytes| && |data| == 4 && lo <= hi < |bytes| && (adr + 4 <= lo || adr > hi)
    ensures Store(bytes, adr, data)[lo..hi + 1] == bytes[lo..hi + 1]
  {
    StoreIs(bytes, adr, data);
  }

  // A regular write is caught if it touches the region; then the cache is no longer used
  lemma StoreKeeps(s: System, t: nat, adr: nat, data: seq<int>)
    requires Inv(s) && t < 2 && adr + 4 <= SIZE && |data| == 4
    ensures Inv(StoreAt(s, t, adr, data))
    ensures StoreAt(s, t, adr, data).memories[t].writeSnoop ==> s.memories[t].writeSnoop
    ensures forall i, u :: 0 <= i < |s.tables| && WriteGrant(StoreAt(s, t, adr, data).tables[i], u) ==>
            WriteGrant(s.tables[i], u)
    ensures |StoreAt(s, t, adr, data).tables| == |s.tables|
  {
    var m, p, s' := s.memories[t], s.snooper, StoreAt(s, t, adr, data);
    RegionInMemory(p);
    if Caught(m, adr) {
      var l, h := Reconstruct(m.snoopStart, t), Reconstruct(m.snoopEnd, t);
      forall i | 0 <= i < |s.tables|
        ensures TableOk(s'.tables[i]) && forall u :: WriteGrant(s'.tables[i], u) ==> WriteGrant(s.tables[i], u)
      {
        EraseKeeps(s.tables[i], 0, l, h);
      }
    } else if p.dmiValid && t == TargetOf(p.start) {
      StoreElsewhere(m.bytes, adr, data, Masked(p.start), Masked(p.end));
    }
  }

  // Any grant for a memory allows reads in it
  lemma ReadsInGrant(table: seq<Grant>, j: nat, t: nat, addr: nat)
    requires TableOk(table) && j < |table| && t == TargetOf(addr) && addr < 512 && table[j].start == Reconstruct(0, t)
    ensures For(table[j], t) && HasDmi(table, Read, addr)
  {
    assert Allows(table[j], Read, addr);
  }

  lemma GrantKeeps(s: System, i: nat, t: nat, cmd: Command, addr: nat)
    requires Inv(s) && i < |s.tables| && t == TargetOf(addr) && addr < 512
    requires cmd.Read? ==> !HasDmi(s.tables[i], Read, addr)
    requires !WriteGrant(s.tables[i], t)
    ensures Inv(AskDmi(s, i, t, cmd))
  {
    var s' := AskDmi(s, i, t, cmd);
    var table := s.tables[i];
    if s' != s {
      var g := Grant(Reconstruct(0, t), Reconstruct(SIZE - 1, t), cmd.Write?);
      assert For(g, t);
      forall j | 0 <= j < |table| && table[j].start == g.start ensures !table[j].writing && g.writing {
        ReadsInGrant(table, j, t, addr);
      }
      forall u | WriteGrant(table + [g], u) ensures WriteGrant(table, u) || (u == t && cmd.Write?) {
        var k :| 0 <= k < |table + [g]| && For((table + [g])[k], u) && (table + [g])[k].writing;
        if k < |table| { assert For(table[k], u) && table[k].writing; }
      }
    }
  }

  lemma AccessKeeps(s: System, i: nat, cmd: Command, addr: nat, data: seq<int>)
    requires Inv(s) && Enabled(s, Accesses(i, cmd, addr, data))
    ensures Inv(Access(s, i, cmd, addr, data))
  {
    var t, adr := TargetOf(addr), Masked(addr);
    var table := s.tables[i];
    if HasDmi(table, cmd, addr) {
      if cmd.Write? {
        var k :| 0 <= k < |table| && Allows(table[k], cmd, addr);
        assert For(table[k], t) && table[k].writing;
        assert WriteGrant(table, t);
      }
    } else if cmd.Write? {
      StoreKeeps(s, t, adr, data);
      forall k | 0 <= k < |table| ensures For(table[k], t) && table[k].writing ==> Allows(table[k], Write, addr) { }
      GrantKeeps(StoreAt(s, t, adr, data), i, t, Write, addr);
    } else {
      forall k | 0 <= k < |table| ensures For(table[k], t) ==> Allows(table[k], Read, addr) { }
      GrantKeeps(s, i, t, Read, addr);
    }
  }

  // ---------- Runs ----------

  // Whenever the region is asked for again, no table holds a pair
  ghost predicate Revokes(s: System, actions: seq<Action>)
    decreases |actions|
  {
    |actions| > 0 ==>
      && Formed(s) && Enabled(s, actions[0]) && (actions[0].Snoops? ==> Separable(s))
      && Revokes(Apply(s, actions[0]), actions[1..])
  }

  lemma InitialInv(s: System)
    requires Initial(s)
    ensures Inv(s)
  {
  }

  lemma {:induction false} RunKeeps(s: System, actions: seq<Action>)
    requires Inv(s) && Runs(s, actions) && Revokes(s, actions)
    ensures Inv(After(s, actions))
    decreases |actions|
  {
    if |actions| > 0 {
      match actions[0]
      case Snoops =>
        SnoopIsSafeIff(s);
        RunKeeps(Snoop(s), actions[1..]);
      case Accesses(i, cmd, addr, data) =>
        AccessKeeps(s, i, cmd, addr, data);
        RunKeeps(Access(s, i, cmd, addr, data), actions[1..]);
    }
  }

  // Cached instructions are never stale, as long as revoked write grants go
  lemma NeverStale(s0: System, actions: seq<Action>)
    requires Initial(s0) && Runs(s0, actions) && Revokes(s0, actions)
    ensures var s := After(s0, actions); Formed(s) && (s.snooper.dmiValid ==> Protected(s))
  {
    InitialInv(s0);
    RunKeeps(s0, actions);
  }

  // ---------- A stale cache ----------

  // The read grant of memory t and the write grant
  function ReadGrant(t: nat): Grant
    requires t < 2
  {
    Grant(Reconstruct(0, t), Reconstruct(SIZE - 1, t), false)
  }

  function WholeGrant(t: nat): Grant
    requires t < 2
  {
    Grant(Reconstruct(0, t), Reconstruct(SIZE - 1, t), true)
  }

  // A plain initiator reads and then writes at address a
  lemma MakesPair(s: System, a: nat, data: seq<int>)
    requires Initial(s) && |s.tables| > 0 && a < 512 && a % 4 == 0 && |data| == 4
    ensures Formed(s)
    ensures var s1 := Access(s, 0, Read, a, data);
            && Formed(s1) && Enabled(s1, Accesses(0, Write, a, data))
            && var s2 := Access(s1, 0, Write, a, data);
               && Formed(s2) && s2.snooper == s.snooper && |s2.tables| == |s.tables|
               && s2.tables[0] == [ReadGrant(TargetOf(a)), WholeGrant(TargetOf(a))]
  {
    var t := TargetOf(a);
    var s1 := Access(s, 0, Read, a, data);
    assert s1.tables[0] == [ReadGrant(t)];
    assert !HasDmi([ReadGrant(t)], Write, a);
    var s2 := StoreAt(s1, t, Masked(a), data);
    assert s2.tables == s1.tables;
    assert [ReadGrant(t)] + [WholeGrant(t)] == [ReadGrant(t), WholeGrant(t)];
  }

  // The region is asked for again; only the read grant goes
  lemma PairSurvives(s: System)
    requires Formed(s) && |s.tables| > 0 && !s.snooper.dmiValid
    requires s.tables[0] == [ReadGrant(TargetOf(s.snooper.start)), WholeGrant(TargetOf(s.snooper.start))]
    ensures var s' := Snoop(s);
            && Formed(s') && |s'.tables| == |s.tables| && s'.tables[0] == [WholeGrant(TargetOf(s.snooper.start))]
  {
    var p, t := s.snooper, TargetOf(s.snooper.start);
    RegionInMemory(p);
    var table := s.tables[0];
    assert Overlaps(table[0], p.start, p.end);
    assert Remove(table, 0) == [WholeGrant(t)];
    assert Erase(Remove(table, 0), 1, p.start, p.end) == [WholeGrant(t)];
  }

  lemma WholeAllows(a: nat)
    requires a < 512
    ensures Allows(WholeGrant(TargetOf(a)), Write, a)
  {
  }

  // The write grant that is left changes the region, and nobody notices
  lemma WritesUnseen(s: System, data: seq<int>)
    requires Formed(s) && |s.tables| > 0 && s.tables[0] == [WholeGrant(TargetOf(s.snooper.start))] && s.snooper.dmiValid
    requires |data| == 4 && |s.snooper.cache| > 0 && data[0] != s.snooper.cache[0]
    ensures Enabled(s, Accesses(0, Write, s.snooper.start, data))
    ensures var s' := Access(s, 0, Write, s.snooper.start, data);
            && Formed(s') && s'.snooper == s.snooper
            && s'.memories[TargetOf(s.snooper.start)].bytes[Masked(s.snooper.start)] != s.snooper.cache[0]
  {
    hide Masked, TargetOf, Reconstruct, WholeGrant, Store;
    var a := s.snooper.start;
    RegionInMemory(s.snooper);
    WholeAllows(a);
    assert Allows(s.tables[0][0], Write, a);
    StoreIs(s.memories[TargetOf(a)].bytes, Masked(a), data);
  }

  lemma Differs(bytes: seq<int>, lo: nat, hi: nat, cache: seq<int>)
    requires lo <= hi < |bytes| && |cache| > 0 && bytes[lo] != cache[0]
    ensures cache != bytes[lo..hi + 1]
  {
    assert bytes[lo..hi + 1][0] == bytes[lo];
  }

  lemma RunFirst(s: System, a: Action, rest: seq<Action>)
    requires Formed(s) && Enabled(s, a) && Runs(Apply(s, a), rest)
    ensures Runs(s, [a] + rest) && After(s, [a] + rest) == After(Apply(s, a), rest)
  {
    hide Formed, Enabled, Apply;
    assert ([a] + rest)[1..] == rest;
  }

  // From any initial state with a plain initiator four steps make a cache that is stale and in use
  lemma CacheCanBeStale(s0: System) returns (actions: seq<Action>)
    requires Initial(s0) && |s0.tables| > 0
    ensures Runs(s0, actions) && |actions| == 4
    ensures var s := After(s0, actions);
            Formed(s) && s.snooper.dmiValid && !Protected(s) && |s.snooper.cache| > 0
            && s.snooper.cache[0] != s.memories[TargetOf(s.snooper.start)].bytes[Masked(s.snooper.start)]
  {
    var a := s0.snooper.start;
    var zero := [0, 0, 0, 0];
    RegionInMemory(s0.snooper);
    MakesPair(s0, a, zero);
    var s1 := Access(s0, 0, Read, a, zero);
    var s2 := Access(s1, 0, Write, a, zero);
    PairSurvives(s2);
    var s3 := Snoop(s2);
    var data := [s3.snooper.cache[0] + 1, 0, 0, 0];
    WritesUnseen(s3, data);
    var s4 := Access(s3, 0, Write, a, data);
    var write := Accesses(0, Write, a, data);
    RunFirst(s3, write, []);
    RunFirst(s2, Snoops, [write] + []);
    RunFirst(s1, Accesses(0, Write, a, zero), [Snoops] + ([write] + []));
    RunFirst(s0, Accesses(0, Read, a, zero), [Accesses(0, Write, a, zero)] + ([Snoops] + ([write] + [])));
    actions := [Accesses(0, Read, a, zero)] + ([Accesses(0, Write, a, zero)] + ([Snoops] + ([write] + [])));
    Differs(s4.memories[TargetOf(a)].bytes, Masked(a), Masked(s0.snooper.end), s4.snooper.cache);
  }
}
