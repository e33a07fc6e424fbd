/** The memory managers of sticky locking extensions, over the memory manager of transactions. */
module StickyMm {
  import opened Extensions
  import opened PoolSpec
  import opened Tlm
  import opened GpMm

  predicate LockInvalid(e: Option<LockExt>) { e.Some? ==> !e.value.valid }

  predicate LinkInvalid(e: Option<LinkExt>) { e.Some? ==> !e.value.valid }

  // No free transaction has a valid locking extension
  ghost predicate AllInvalid(mm: MemoryManager)
    reads mm, mm.free
  {
    forall k :: 0 <= k < |mm.free| ==> LockInvalid(mm.free[k].lockExt) && LinkInvalid(mm.free[k].linkExt)
  }

  class LockManager {
    const mm: MemoryManager

    constructor (mm: MemoryManager)
      ensures this.mm == mm
    {
      this.mm := mm;
    }

    // The transaction comes with a lock extension, the old one if it has been here before
    method Allocate() returns (trans: Payload)
      requires mm.Valid() && Sound(mm.View()) && AllInvalid(mm)
      modifies mm, mm.free
      ensures mm.Valid() && Sound(mm.View()) && AllInvalid(mm)
      ensures mm.View() == Allocated(old(mm.View()), trans) && trans !in old(mm.inUse)
      ensures trans.manager == LockMm && trans.lockExt.Some?
      ensures !trans.lockExt.value.valid && LinkInvalid(trans.linkExt)
      ensures if old(mm.free) != [] && old(mm.free[0].lockExt).Some? then trans.lockExt == old(mm.free[0].lockExt)
              else trans.lockExt == Some(NEW_LOCK)
    {
      trans := mm.Allocate();
      trans.manager := LockMm;
      if trans.lockExt.None? {
        trans.lockExt := Some(NEW_LOCK);
      }
    }

    // The extension is invalidated but stays; that of the other kind is left as it is
    method Free(trans: Payload)
      requires mm.Valid() && Sound(mm.View()) && AllInvalid(mm) && trans in mm.inUse
      requires trans.lockExt.Some?
      modifies mm, mm.nodes, trans
      ensures mm.Valid() && Sound(mm.View()) && (AllInvalid(mm) <==> LinkInvalid(old(trans.linkExt)))
      ensures mm.View() == Freed(old(mm.View()), trans) && trans.manager == Manager.GpMm
      ensures trans.lockExt == Some(old(trans.lockExt.value).(valid := false)) && trans.linkExt == old(trans.linkExt)
    {
      trans.lockExt := Some(trans.lockExt.value.(valid := false));
      trans.manager := Manager.GpMm;
      mm.Free(trans);
      assert mm.free[0] == trans && mm.free[1..] == old(mm.free);
    }
  }

  class LoadLinkManager {
    const mm: MemoryManager

    constructor (mm: MemoryManager)
      ensures this.mm == mm
    {
      this.mm := mm;
    }

    // The transaction comes with a load-link extension, the old one if it has been here before
    method Allocate() returns (trans: Payload)
      requires mm.Valid() && Sound(mm.View()) && AllInvalid(mm)
      modifies mm, mm.free
      ensures mm.Valid() && Sound(mm.View()) && AllInvalid(mm)
      ensures mm.View() == Allocated(old(mm.View()), trans) && trans !in old(mm.inUse)
      ensures trans.manager == LoadLinkMm && trans.linkExt.Some?
      ensures !trans.linkExt.value.valid && LockInvalid(trans.lockExt)
      ensures if old(mm.free) != [] && old(mm.free[0].linkExt).Some? then trans.linkExt == old(mm.free[0].linkExt)
              else trans.linkExt == Some(NEW_LINK)
    {
      trans := mm.Allocate();
      trans.manager := LoadLinkMm;
      if trans.linkExt.None? {
        trans.linkExt := Some(NEW_LINK);
      }
    }

    // The extension is invalidated but stays; that of the other kind is left as it is
    method Free(trans: Payload)
      requires mm.Valid() && Sound(mm.View()) && AllInvalid(mm) && trans in mm.inUse
      requires trans.linkExt.Some?
      modifies mm, mm.nodes, trans
      ensures mm.Valid() && Sound(mm.View()) && (AllInvalid(mm) <==> LockInvalid(old(trans.lockExt)))
      ensures mm.View() == Freed(old(mm.View()), trans) && trans.manager == Manager.GpMm
      ensures trans.linkExt == Some(old(trans.linkExt.value).(valid := false)) && trans.lockExt == old(trans.lockExt)
    {
      trans.linkExt := Some(trans.linkExt.value.(valid := false));
      trans.manager := Manager.GpMm;
      mm.Free(trans);
      assert mm.free[0] == trans && mm.free[1..] == old(mm.free);
    }
  }
}
