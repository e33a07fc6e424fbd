/**
 The locking interconnects: LOAD-LINK/STORE-CONDITIONAL and lock/unlock by address, both the step that the code
 takes and what it comes to over the history of an address.
 */
module Locking {
  import opened Extensions

  // ---------- LOAD-LINK and STORE-CONDITIONAL ----------

  // What the load-link interconnect sees of a transaction: a valid extension, or none
  datatype LinkAccess = Linked(cmd: LinkCmd, adr: nat) | Unlinked(write: bool, adr: nat)

  function Flag(m: map<nat, bool>, adr: nat): bool { if adr in m then m[adr] else false }

  predicate LinkPasses(links: map<nat, bool>, a: LinkAccess) {
    a.Linked? && a.cmd.StoreConditional? ==> Flag(links, a.adr)
  }

  function LinkStep(links: map<nat, bool>, a: LinkAccess): map<nat, bool> {
    match a
    case Linked(cmd, adr) =>
      if cmd.LoadLink? then links[adr := true] else if Flag(links, adr) then links[adr := false] else links
    case Unlinked(write, adr) => if write && Flag(links, adr) then links[adr := false] else links
  }

  function LinksAfter(h: seq<LinkAccess>): map<nat, bool> {
    if |h| == 0 then map[] else LinkStep(LinksAfter(h[..|h| - 1]), h[|h| - 1])
  }

  // Access k of the history is forwarded
  predicate LinkForwarded(h: seq<LinkAccess>, k: nat)
    requires k < |h|
  {
    LinkPasses(LinksAfter(h[..k]), h[k])
  }

  // Access k is a plain write to the address or a successful STORE_CONDITIONAL there
  predicate Breaks(h: seq<LinkAccess>, k: nat, adr: nat)
    requires k < |h|
  {
    h[k].adr == adr && (h[k] == Unlinked(true, adr) || (h[k] == Linked(StoreConditional, adr) && LinkForwarded(h, k)))
  }

  // Access i is a LOAD_LINK of the address, and nothing since breaks the link
  ghost predicate LinkStands(h: seq<LinkAccess>, i: nat, adr: nat) {
    i < |h| && h[i] == Linked(LoadLink, adr) && forall k :: i < k < |h| ==> !Breaks(h, k, adr)
  }

  lemma {:induction false} LinkHistory(h: seq<LinkAccess>, adr: nat)
    ensures Flag(LinksAfter(h), adr) <==> exists i: nat :: LinkStands(h, i, adr)
  {
    if |h| > 0 {
      var n := |h| - 1;
      var h0 := h[..n];
      LinkHistory(h0, adr);
      forall k | 0 <= k < n ensures Breaks(h, k, adr) <==> Breaks(h0, k, adr) { assert h0[..k] == h[..k]; }
      if h[n] == Linked(LoadLink, adr) {
        assert LinkStands(h, n, adr);
      } else {
        forall i: nat | i < n ensures LinkStands(h, i, adr) <==> LinkStands(h0, i, adr) && !Breaks(h, n, adr) { }
        if Flag(LinksAfter(h), adr) {
          var i: nat :| LinkStands(h0, i, adr);
          assert LinkStands(h, i, adr);
        }
      }
    }
  }

  // A STORE_CONDITIONAL succeeds exactly when some LOAD_LINK before it is followed by no plain write and no
  // successful STORE_CONDITIONAL on the address
  lemma StoreConditionalSucceedsIff(h: seq<LinkAccess>, adr: nat)
    ensures LinkPasses(LinksAfter(h), Linked(StoreConditional, adr)) <==> exists i: nat :: LinkStands(h, i, adr)
  {
    LinkHistory(h, adr);
  }

  // Of all accesses only a STORE_CONDITIONAL without a standing link is refused
  lemma LinkForwardedIff(h: seq<LinkAccess>, a: LinkAccess)
    ensures LinkPasses(LinksAfter(h), a)
            <==> (a == Linked(StoreConditional, a.adr) ==> exists i: nat :: LinkStands(h, i, a.adr))
  {
    LinkHistory(h, a.adr);
  }

  class LoadLinkInterconnect {
    var lockMap: map<nat, bool>

    constructor ()
      ensures lockMap == map[]
    {
      lockMap := map[];
    }

    // load_link_store_conditional; false: bounce with a command error
    method Check(ext: bool, cmd: LinkCmd, write: bool, adr: nat) returns (pass: bool)
      modifies this
      ensures var a := if ext then Linked(cmd, adr) else Unlinked(write, adr);
              pass == LinkPasses(old(lockMap), a) && lockMap == LinkStep(old(lockMap), a)
    {
      if ext {
        if cmd.LoadLink? {
          lockMap := lockMap[adr := true];
        } else {
          if !Flag(lockMap, adr) {
            return false;
          }
          lockMap := lockMap[adr := false];
        }
      } else if write {
        if Flag(lockMap, adr) {
          lockMap := lockMap[adr := false];
        }
      }
      return true;
    }
  }

  // ---------- Lock and unlock ----------

  // What the lock interconnect sees of a transaction: a valid extension, or none; id 0 is anonymous
  datatype LockAccess = Locks(adr: nat, id: int) | Unlocks(adr: nat, id: int) | Unmarked(adr: nat)

  // lock_map and lock_id
  datatype LockState = LockState(lockMap: map<nat, bool>, lockId: map<nat, int>)

  const UNLOCKED: LockState := LockState(map[], map[])

  function IdOf(s: LockState, adr: nat): int { if adr in s.lockId then s.lockId[adr] else 0 }

  predicate MayUnlock(s: LockState, adr: nat, id: int) { IdOf(s, adr) == 0 || IdOf(s, adr) == id }

  predicate LockPasses(s: LockState, a: LockAccess) {
    Flag(s.lockMap, a.adr) ==> a.Unlocks? && MayUnlock(s, a.adr, a.id)
  }

  function LockStep(s: LockState, a: LockAccess): LockState {
    match a
    case Locks(adr, id) => if Flag(s.lockMap, adr) then s else LockState(s.lockMap[adr := true], s.lockId[adr := id])
    case Unlocks(adr, id) =>
      if Flag(s.lockMap, adr) && MayUnlock(s, adr, id) then s.(lockMap := s.lockMap[adr := false]) else s
    case Unmarked(_) => s
  }

  function LocksAfter(h: seq<LockAccess>): LockState {
    if |h| == 0 then UNLOCKED else LockStep(LocksAfter(h[..|h| - 1]), h[|h| - 1])
  }

  predicate LockForwarded(h: seq<LockAccess>, k: nat)
    requires k < |h|
  {
    LockPasses(LocksAfter(h[..k]), h[k])
  }

  // Access i is a lock that passed, and no unlock since that could take it off has been seen:
  // one with the same id, or any if the lock is anonymous
  ghost predicate Holds(h: seq<LockAccess>, i: nat, adr: nat, id: int) {
    && i < |h| && h[i] == Locks(adr, id) && LockForwarded(h, i)
    && forall k :: i < k < |h| && h[k].Unlocks? && h[k].adr == adr ==> id != 0 && h[k].id != id
  }

  lemma {:induction false} LockHistory(h: seq<LockAccess>, adr: nat)
    ensures Flag(LocksAfter(h).lockMap, adr) <==> exists i: nat :: Holds(h, i, adr, IdOf(LocksAfter(h), adr))
    ensures forall i: nat, id :: Holds(h, i, adr, id) ==>
            Flag(LocksAfter(h).lockMap, adr) && id == IdOf(LocksAfter(h), adr)
  {
    if |h| > 0 {
      var n := |h| - 1;
      var h0, s0, s := h[..n], LocksAfter(h[..n]), LocksAfter(h);
      LockHistory(h0, adr);
      forall k | 0 <= k < n ensures LockForwarded(h, k) <==> LockForwarded(h0, k) { assert h0[..k] == h[..k]; }
      var freed := h[n].Unlocks? && h[n].adr == adr;
      forall i: nat, id | i < n
        ensures Holds(h, i, adr, id) <==> Holds(h0, i, adr, id) && (freed ==> id != 0 && h[n].id != id)
      {
      }
      if Flag(s0.lockMap, adr) {
        var i: nat :| Holds(h0, i, adr, IdOf(s0, adr));
        if Flag(s.lockMap, adr) { assert Holds(h, i, adr, IdOf(s, adr)); }
      } else if h[n].Locks? && h[n].adr == adr {
        assert Holds(h, n, adr, IdOf(s, adr));
      }
    }
  }

  // Plain accesses and locks pass exactly when no lock is held on the address; an unlock passes exactly when no
  // lock is held, or it is anonymous, or of the same id
  lemma ForwardedIff(h: seq<LockAccess>, a: LockAccess)
    ensures LockPasses(LocksAfter(h), a)
            <==> forall i: nat, id :: Holds(h, i, a.adr, id) ==> a.Unlocks? && (id == 0 || id == a.id)
  {
    var s := LocksAfter(h);
    LockHistory(h, a.adr);
    if Flag(s.lockMap, a.adr) {
      var i: nat :| Holds(h, i, a.adr, IdOf(s, a.adr));
    }
  }

  // Between a lock that passed and the first unlock that can take it off, no plain access to the address and no
  // other lock on it is forwarded
  lemma MutualExclusion(h: seq<LockAccess>, i: nat, j: nat, adr: nat, id: int)
    requires i < j < |h| && h[i] == Locks(adr, id) && LockForwarded(h, i)
    requires forall k :: i < k < j && h[k].Unlocks? && h[k].adr == adr ==> id != 0 && h[k].id != id
    requires h[j].adr == adr && !h[j].Unlocks?
    ensures !LockForwarded(h, j)
  {
    var h1 := h[..j];
    assert h1[..i] == h[..i];
    assert Holds(h1, i, adr, id);
    ForwardedIff(h1, h[j]);
  }

  class LockInterconnect {
    var lockMap: map<nat, bool>
    var lockId: map<nat, int>

    constructor ()
      ensures LockState(lockMap, lockId) == UNLOCKED
    {
      lockMap, lockId := map[], map[];
    }

    // true: bounce with a command error
    method Locked(ext: bool, isLock: bool, id: int, adr: nat) returns (bounce: bool)
      modifies this
      ensures var a := if !ext then Unmarked(adr) else if isLock then Locks(adr, id) else Unlocks(adr, id);
              var s := old(LockState(lockMap, lockId));
              bounce == !LockPasses(s, a) && LockState(lockMap, lockId) == LockStep(s, a)
    {
      if ext {
        if isLock {
          if Flag(lockMap, adr) {
            return true;
          } else {
            lockMap := lockMap[adr := true];
            lockId := lockId[adr := id];
          }
        } else {
          if Flag(lockMap, adr) {
            if IdOf(LockState(lockMap, lockId), adr) == 0 || IdOf(LockState(lockMap, lockId), adr) == id {
              lockMap := lockMap[adr := false];
            } else {
              return true;
            }
          }
        }
      } else {
        if Flag(lockMap, adr) {
          return true;
        }
      }
      return false;
    }
  }
}
