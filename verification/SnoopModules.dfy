/** The memory and the plain initiator of the snooping system, updating their fields in place. */
module SnoopModules {
  import opened Snooping
  import opened SnoopingSafety

  class MemoryModule {
    const mem: array<int>
    var writeSnoop: bool
    var snoopStart: nat
    var snoopEnd: nat

    ghost function View(): Memory
      reads this, mem
    {
      Memory(mem[..], writeSnoop, snoopStart, snoopEnd)
    }

    constructor (contents: seq<int>)
      requires |contents| == SIZE
      ensures fresh(mem) && mem.Length == SIZE && View().bytes == contents && !View().writeSnoop
    {
      mem := new int[SIZE](k requires 0 <= k < SIZE => contents[k]);
      writeSnoop, snoopStart, snoopEnd := false, 0, 0;
    }

    // invalidates: the caller is to pass on invalidate_direct_mem_ptr for the region snooped before the call
    method BTransport(cmd: Command, adr: nat, data: seq<int>, byteEnable: bool, width: nat)
      returns (status: Status, got: seq<int>, invalidates: bool)
      requires mem.Length == SIZE
      modifies this, mem
      ensures status == if adr / 4 >= 64 || adr % 4 != 0 then AddressError
                        else if byteEnable then ByteEnableError
                        else if |data| != 4 || width != 4 then BurstError
                        else Okay
      ensures status != Okay ==> View() == old(View()) && got == data && !invalidates
      ensures status == Okay && cmd.Read? ==> View() == old(View()) && got == old(mem[adr..adr + 4]) && !invalidates
      ensures status == Okay && cmd.Write? ==>
                && View().bytes == Store(old(View()).bytes, adr, data)
                && mem[adr..adr + 4] == data
                && (forall k :: 0 <= k < SIZE && !(adr <= k < adr + 4) ==> mem[k] == old(mem[k]))
                && (invalidates <==> Caught(old(View()), adr))
                && View().writeSnoop == (old(writeSnoop) && !invalidates)
                && View().snoopStart == old(snoopStart) && View().snoopEnd == old(snoopEnd)
    {
      got, invalidates := data, false;
      if adr / 4 >= 64 || adr % 4 != 0 {
        return AddressError, got, false;
      }
      if byteEnable {
        return ByteEnableError, got, false;
      }
      if |data| != 4 || width != 4 {
        return BurstError, got, false;
      }
      status := Okay;
      if cmd.Read? {
        got := mem[adr..adr + 4];
      } else {
        CopyIn(adr, data);
        if writeSnoop && adr + |data| > snoopStart && adr <= snoopEnd {
          invalidates := true;
          writeSnoop := false;
        }
      }
    }

    method CopyIn(adr: nat, data: seq<int>)
      requires mem.Length == SIZE && adr + 4 <= SIZE && |data| == 4
      modifies mem
      ensures mem[..] == Store(old(mem[..]), adr, data)
      ensures mem[adr..adr + 4] == data && forall k :: 0 <= k < SIZE && !(adr <= k < adr + 4) ==> mem[k] == old(mem[k])
    {
      var i := 0;
      while i < 4
        invariant 0 <= i <= 4
        invariant mem[..] == old(mem[..adr]) + data[..i] + old(mem[adr + i..])
      {
        mem[adr + i] := data[i];
        i := i + 1;
      }
    }

    // snoopTo: the end address in a valid snoop extension, or -1; dmi: the grant as the caller made it. A snoop of
    // a region that does not start at a word has changed the snooped region when it is refused; one with a write
    // command is reported as an error and changes nothing.
    method GetDirectMemPtr(cmd: Command, adr: nat, snoopTo: int, dmi: Grant)
      returns (ok: bool, grant: Grant, invalidates: bool, reported: bool)
      modifies this
      ensures View().bytes == old(View()).bytes && reported == (snoopTo >= 0 && cmd.Write?)
      ensures reported ==> ok && grant == dmi && !invalidates && View() == old(View())
      ensures snoopTo >= 0 && cmd.Read? ==>
                && ok == invalidates == (adr % 4 == 0)
                && View().snoopStart == adr && View().snoopEnd == snoopTo
                && View().writeSnoop == (ok || old(writeSnoop))
                && grant == Grant(adr, snoopTo, false)
      ensures snoopTo < 0 ==>
                && View() == old(View()) && !invalidates
                && ok == !(writeSnoop && cmd.Write?)
                && (ok ==> grant == Grant(0, SIZE - 1, cmd.Write?))
    {
      invalidates, reported, grant := false, false, dmi;
      if snoopTo >= 0 {
        if cmd.Read? {
          snoopStart, snoopEnd := adr, snoopTo;
          grant := Grant(snoopStart, snoopEnd, false);
          if snoopStart % 4 != 0 {
            return false, grant, false, false;
          }
          writeSnoop := true;
          invalidates := true;
        } else {
          reported := true;
        }
      } else {
        grant := Grant(0, SIZE - 1, cmd.Write?);
        if writeSnoop && cmd.Write? {
          return false, grant, false, false;
        }
      }
      ok := true;
    }
  }

  class Initiator {
    var dmiTable: seq<Grant>

    constructor ()
      ensures dmiTable == []
    {
      dmiTable := [];
    }

    method InvalidateDirectMemPtr(startRange: nat, endRange: nat)
      modifies this
      ensures dmiTable == Erase(old(dmiTable), 0, startRange, endRange)
      ensures Clear(dmiTable, startRange, endRange) <==> NoneAdjacent(old(dmiTable), startRange, endRange)
      ensures Apart(dmiTable, startRange, endRange) == Apart(old(dmiTable), startRange, endRange)
    {
      EraseIsExact(dmiTable, startRange, endRange);
      var i := 0;
      while i < |dmiTable|
        invariant Erase(dmiTable, i, startRange, endRange) == Erase(old(dmiTable), 0, startRange, endRange)
        decreases |dmiTable| - i
      {
        if Overlaps(dmiTable[i], startRange, endRange) {
          dmiTable := Remove(dmiTable, i);
        }
        i := i + 1;
      }
    }

    // Look for a grant
    method Lookup(cmd: Command, addr: nat) returns (dmi: bool, found: nat)
      ensures dmi <==> HasDmi(dmiTable, cmd, addr)
      ensures dmi ==> found < |dmiTable| && Allows(dmiTable[found], cmd, addr)
      ensures dmi ==> forall k :: 0 <= k < found ==> !Allows(dmiTable[k], cmd, addr)
    {
      dmi, found := false, 0;
      var i := 0;
      while i < |dmiTable|
        invariant 0 <= i <= |dmiTable|
        invariant forall k :: 0 <= k < i ==> !Allows(dmiTable[k], cmd, addr)
      {
        if dmiTable[i].start <= addr <= dmiTable[i].end {
          if cmd.Write? && dmiTable[i].writing {
            return true, i;
          } else if cmd.Read? {
            return true, i;
          }
        }
        i := i + 1;
      }
    }
  }
}
