/**
 The memory manager of transaction objects. Its free list and its list of spare access structs are the two
 sides of a cursor in one doubly linked list.
 */
module GpMm {
  import opened Extensions
  import opened PoolSpec
  import opened Tlm

  // A generic payload: the extensions that reset deletes, the sticky ones, and the manager that takes it back
  class Payload {
    var autoExtensions: set<nat>
    var lockExt: Option<LockExt>
    var linkExt: Option<LinkExt>
    var manager: Manager

    constructor ()
      ensures autoExtensions == {} && lockExt == None && linkExt == None && manager == Manager.GpMm
    {
      autoExtensions, lockExt, linkExt, manager := {}, None, None, Manager.GpMm;
    }

    method Reset()
      modifies this`autoExtensions
      ensures autoExtensions == {}
    {
      autoExtensions := {};
    }
  }

  class Access {
    var trans: Payload?
    var next: Access?
    var prev: Access?

    constructor ()
      ensures trans == null && next == null && prev == null
    {
      trans, next, prev := null, null, null;
    }
  }

  class MemoryManager {
    var freeList: Access?
    var empties: Access?

    ghost var nodes: seq<Access>
    ghost var cursor: nat
    ghost var free: seq<Payload>
    ghost var inUse: set<Payload>

    ghost predicate Linked(k: nat)
      reads this, nodes
      requires k < |nodes|
    {
      && nodes[k].next == (if k + 1 < |nodes| then nodes[k + 1] else null)
      && nodes[k].prev == (if k > 0 then nodes[k - 1] else null)
    }

    ghost predicate Valid()
      reads this, nodes
    {
      && cursor <= |nodes| && |free| == |nodes| - cursor
      && (forall j, k :: 0 <= j < k < |nodes| ==> nodes[j] != nodes[k])
      && (forall k :: 0 <= k < |nodes| ==> Linked(k))
      && freeList == (if cursor < |nodes| then nodes[cursor] else null)
      && empties == (if cursor > 0 then nodes[cursor - 1] else null)
      && (forall k :: cursor <= k < |nodes| ==> nodes[k].trans == free[k - cursor])
      && cursor <= |inUse|
    }

    ghost function View(): Pool<Payload>
      reads this
    {
      Pool(free, inUse)
    }

    constructor ()
      ensures Valid() && nodes == [] && View() == Pool([], {})
    {
      freeList, empties := null, null;
      nodes, cursor, free, inUse := [], 0, [], {};
    }

    method Allocate() returns (trans: Payload)
      requires Valid() && Sound(View())
      modifies this
      ensures Valid() && Sound(View())
      ensures old(free) == [] ==> fresh(trans) && trans.lockExt == None && trans.linkExt == None
      ensures trans == Handed(old(View()), trans) && trans !in old(inUse)
      ensures View() == Allocated(old(View()), trans) && nodes == old(nodes)
    {
      if freeList != null {
        assert Linked(cursor) && nodes[cursor].trans == free[0];
        trans := freeList.trans;
        empties := freeList;
        freeList := freeList.next;
        cursor, free := cursor + 1, free[1..];
      } else {
        trans := new Payload();
      }
      inUse := inUse + {trans};
      forall k | 0 <= k < |nodes| ensures Linked(k) { assert old(Linked(k)); }
    }

    method Free(trans: Payload)
      requires Valid() && Sound(View()) && trans in inUse
      modifies this, nodes, trans`autoExtensions
      ensures Valid() && Sound(View())
      ensures View() == Freed(old(View()), trans)
      ensures trans.autoExtensions == {}
      ensures if old(cursor) > 0 then nodes == old(nodes)
              else |nodes| == old(|nodes|) + 1 && fresh(nodes[0]) && nodes[1..] == old(nodes)
    {
      trans.Reset();
      if empties == null {
        AddSpare(trans);
      }
      PutBack(trans);
    }

    // No access struct is spare: make one and link it before the free list
    method AddSpare(ghost trans: Payload)
      requires Valid() && cursor == 0 && trans in inUse
      modifies this`empties, this`nodes, this`cursor, nodes
      ensures Valid() && cursor == 1 && |nodes| == old(|nodes|) + 1 && fresh(nodes[0]) && nodes[1..] == old(nodes)
    {
      empties := new Access();
      empties.next := freeList;
      empties.prev := null;
      if freeList != null {
        freeList.prev := empties;
      }
      nodes, cursor := [empties] + nodes, 1;
      forall k | 0 <= k < |nodes| ensures Linked(k) { assert k > 0 ==> old(Linked(k - 1)); }
    }

    // The nearest spare access struct takes the transaction over to the free list
    method PutBack(trans: Payload)
      requires Valid() && Sound(View()) && trans in inUse && cursor > 0
      modifies this`freeList, this`empties, this`cursor, this`free, this`inUse, nodes
      ensures Valid() && Sound(View()) && nodes == old(nodes)
      ensures View() == Freed(old(View()), trans)
    {
      assert Linked(cursor - 1);
      freeList := empties;
      freeList.trans := trans;
      empties := freeList.prev;
      cursor, free, inUse := cursor - 1, [trans] + free, inUse - {trans};
      forall k | 0 <= k < |nodes| ensures Linked(k) { assert old(Linked(k)); }
    }

    // There are never more access structs than transactions
    lemma NodesAreBounded()
      requires Valid()
      ensures |nodes| <= |free| + |inUse|
    {
    }
  }
}
