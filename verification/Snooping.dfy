/**
 Two memories behind an interconnect, one snooping initiator that executes from a copy of part of a memory, and
 any number of plain initiators that read and write through regular transactions and DMI grants. A step is what
 one initiator does between two waits. Payloads are those the initiators build: four bytes, word-aligned.
 */
module Snooping {

  // ---------- Address map ----------

  const SIZE: nat := 256

  function Masked(address: nat): nat { address % 256 }

  function TargetOf(address: nat): nat { address / 256 % 2 }

  // The low eight bits within the memory, the ninth for the memory
  function Reconstruct(address: nat, target: nat): nat
    requires address < SIZE && target < 2
  {
    address + target * 256
  }

  lemma AddressRoundTrip(address: nat, target: nat)
    requires address < SIZE && target < 2
    ensures var a := Reconstruct(address, target); a < 512 && Masked(a) == address && TargetOf(a) == target
    ensures forall a: nat :: a < 512 ==> Reconstruct(Masked(a), TargetOf(a)) == a
  {
  }

  // ---------- Memory ----------

  datatype Memory = Memory(bytes: seq<int>, writeSnoop: bool, snoopStart: nat, snoopEnd: nat)

  // A four-byte store
  function Store(bytes: seq<int>, adr: nat, data: seq<int>): seq<int>
    requires adr + 4 <= |bytes| && |data| == 4
  {
    bytes[..adr] + data + bytes[adr + 4..]
  }

  predicate Caught(m: Memory, adr: nat) {
    m.writeSnoop && adr + 4 > m.snoopStart && adr <= m.snoopEnd
  }

  datatype Status = Okay | AddressError | ByteEnableError | BurstError

  // ---------- Initiators ----------

  // A DMI grant in the system memory map; writing says whether it allows writes as well as reads
  datatype Grant = Grant(start: nat, end: nat, writing: bool)

  predicate Overlaps(g: Grant, lo: nat, hi: nat) { lo <= g.end && hi >= g.start }

  function Remove<T>(s: seq<T>, i: nat): seq<T>
    requires i < |s|
  {
    s[..i] + s[i + 1..]
  }

  // The table after the loop of invalidate_direct_mem_ptr, from index i on: the index moves on after an erasure too
  function Erase(table: seq<Grant>, i: nat, lo: nat, hi: nat): seq<Grant>
    decreases |table| - i
  {
    if i >= |table| then table
    else if Overlaps(table[i], lo, hi) then Erase(Remove(table, i), i + 1, lo, hi)
    else Erase(table, i + 1, lo, hi)
  }

  datatype Command = Read | Write

  predicate Allows(g: Grant, cmd: Command, addr: nat) {
    g.start <= addr <= g.end && (cmd.Write? ==> g.writing)
  }

  predicate HasDmi(table: seq<Grant>, cmd: Command, addr: nat) {
    exists k :: 0 <= k < |table| && Allows(table[k], cmd, addr)
  }

  datatype Snooper = Snooper(start: nat, end: nat, dmiValid: bool, cache: seq<int>)

  // ---------- The system ----------

  datatype System = System(memories: seq<Memory>, tables: seq<seq<Grant>>, snooper: Snooper)

  // The region that the snooping initiator executes from: word-aligned, within one memory
  predicate RegionOk(p: Snooper) {
    p.start % 4 == 0 && p.start <= p.end < 512 && TargetOf(p.start) == TargetOf(p.end)
  }

  ghost predicate Formed(s: System) {
    && |s.memories| == 2
    && (forall t :: 0 <= t < 2 ==> |s.memories[t].bytes| == SIZE)
    && (forall t :: 0 <= t < 2 && s.memories[t].writeSnoop ==>
         s.memories[t].snoopStart < SIZE && s.memories[t].snoopEnd < SIZE)
    && RegionOk(s.snooper)
  }

  // invalidate_direct_mem_ptr of memory t, through the interconnect to every initiator
  function Invalidate(s: System, t: nat, lo: nat, hi: nat): System
    requires t < 2 && lo < SIZE && hi < SIZE
  {
    var l, h := Reconstruct(lo, t), Reconstruct(hi, t);
    s.(tables := seq(|s.tables|, p requires 0 <= p < |s.tables| => Erase(s.tables[p], 0, l, h)),
       snooper := if l <= s.snooper.end && h >= s.snooper.start then s.snooper.(dmiValid := false) else s.snooper)
  }

  // b_transport of memory t with a write
  function StoreAt(s: System, t: nat, adr: nat, data: seq<int>): System
    requires Formed(s) && t < 2 && adr + 4 <= SIZE && |data| == 4
  {
    var m := s.memories[t];
    var m1 := m.(bytes := Store(m.bytes, adr, data));
    if Caught(m, adr) then
      Invalidate(s.(memories := s.memories[t := m1.(writeSnoop := false)]), t, m.snoopStart, m.snoopEnd)
    else s.(memories := s.memories[t := m1])
  }

  datatype Action =
    | Snoops
    | Accesses(p: nat, cmd: Command, addr: nat, data: seq<int>)

  predicate Enabled(s: System, a: Action) {
    match a
    case Snoops => !s.snooper.dmiValid
    case Accesses(p, _, addr, data) => p < |s.tables| && addr % 4 == 0 && addr < 512 && |data| == 4
  }

  // The snooping initiator asks for its region again and copies it
  function Snoop(s: System): System
    requires Formed(s)
  {
    var p, t := s.snooper, TargetOf(s.snooper.start);
    var lo, hi := Masked(p.start), Masked(p.end);
    var m := s.memories[t].(writeSnoop := true, snoopStart := lo, snoopEnd := hi);
    var s1 := Invalidate(s.(memories := s.memories[t := m]), t, lo, hi);
    s1.(snooper := p.(dmiValid := true, cache := m.bytes[lo..hi + 1]))
  }

  // A plain initiator uses a grant if its table has one, else a regular transaction, and then asks for a grant
  function Access(s: System, p: nat, cmd: Command, addr: nat, data: seq<int>): System
    requires Formed(s) && Enabled(s, Accesses(p, cmd, addr, data))
  {
    var t, adr := TargetOf(addr), Masked(addr);
    if HasDmi(s.tables[p], cmd, addr) then
      if cmd.Write? then s.(memories := s.memories[t := s.memories[t].(bytes := Store(s.memories[t].bytes, adr, data))])
      else s
    else AskDmi(if cmd.Write? then StoreAt(s, t, adr, data) else s, p, t, cmd)
  }

  // get_direct_mem_ptr of memory t for a plain initiator: no write grant while a write snoop is in place
  function AskDmi(s: System, p: nat, t: nat, cmd: Command): System
    requires |s.memories| == 2 && t < 2 && p < |s.tables|
  {
    if s.memories[t].writeSnoop && cmd.Write? then s
    else
      var g := Grant(Reconstruct(0, t), Reconstruct(SIZE - 1, t), cmd.Write?);
      s.(tables := s.tables[p := s.tables[p] + [g]])
  }

  function Apply(s: System, a: Action): System
    requires Formed(s) && Enabled(s, a)
  {
    match a
    case Snoops => Snoop(s)
    case Accesses(p, cmd, addr, data) => Access(s, p, cmd, addr, data)
  }

  predicate Initial(s: System) {
    && |s.memories| == 2
    && (forall t :: 0 <= t < 2 ==> |s.memories[t].bytes| == SIZE && !s.memories[t].writeSnoop)
    && (forall p :: 0 <= p < |s.tables| ==> s.tables[p] == [])
    && RegionOk(s.snooper) && !s.snooper.dmiValid
  }

  ghost predicate Runs(s: System, actions: seq<Action>)
    decreases |actions|
  {
    |actions| > 0 ==> Formed(s) && Enabled(s, actions[0]) && Runs(Apply(s, actions[0]), actions[1..])
  }

  function After(s: System, actions: seq<Action>): System
    requires Runs(s, actions)
    decreases |actions|
  {
    if |actions| == 0 then s else After(Apply(s, actions[0]), actions[1..])
  }
}
