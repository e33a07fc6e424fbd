/**
 What the locking interconnects see of a transaction is what its user has set, from its allocation to its last
 release, and their maps are those of the history of all such accesses: with automatic extensions in every run,
 and with sticky ones as long as what users leave unset is as in a new extension.
 */
module StickyUsers {
  import opened Extensions
  import PoolSpec
  import opened Locking
  import opened StickyPool
  import opened Tlm

  // The pool, and who has each transaction in use
  datatype Users = Users(pool: PoolSpec.Numbered, owner: map<Trans, User>)

  function UsersStep(u: Users, op: Op): Users {
    match op
    case Begins(user) => Users(PoolSpec.Open(u.pool), u.owner[HandedTo(u.pool) := user])
    case Ends(x) => Users(PoolSpec.Close(u.pool, x), u.owner - {x})
    case _ => u
  }

  function UsersAfter(ops: seq<Op>): Users {
    if |ops| == 0 then Users(FRESH, map[]) else UsersStep(UsersAfter(ops[..|ops| - 1]), ops[|ops| - 1])
  }

  // The access as its user means it; what is left unset is unlock, id 0 and LOAD_LINK
  function LockMeant(u: Users, x: Trans, adr: nat): LockAccess {
    if x in u.owner && u.owner[x].LockUser? then
      var id := Default(u.owner[x].id, 0);
      if Default(u.owner[x].lock, false) then Locks(adr, id) else Unlocks(adr, id)
    else Unmarked(adr)
  }

  function LinkMeant(u: Users, x: Trans, write: bool, adr: nat): LinkAccess {
    if x in u.owner && u.owner[x].LinkUser? then Linked(Default(u.owner[x].cmd, LoadLink), adr)
    else Unlinked(write, adr)
  }

  // All accesses that each interconnect has seen, as they were meant
  function LockTrace(ops: seq<Op>): seq<LockAccess> {
    if |ops| == 0 then []
    else
      var before, op := ops[..|ops| - 1], ops[|ops| - 1];
      LockTrace(before) + if op.ToLock? then [LockMeant(UsersAfter(before), op.x, op.adr)] else []
  }

  function LinkTrace(ops: seq<Op>): seq<LinkAccess> {
    if |ops| == 0 then []
    else
      var before, op := ops[..|ops| - 1], ops[|ops| - 1];
      LinkTrace(before) + if op.ToLink? then [LinkMeant(UsersAfter(before), op.x, op.write, op.adr)] else []
  }

  // ---------- Automatic extensions ----------

  predicate OwnerTells(a: Auto, u: Users, x: Trans) {
    && (x in u.owner ==> x in u.pool.pool.inUse)
    && (x in a.lockExts <==> x in u.owner && u.owner[x].LockUser?)
    && (x in a.lockExts ==>
          a.lockExts[x] == AutoLock(Default(u.owner[x].lock, false), Default(u.owner[x].id, 0)))
    && (x in a.linkExts <==> x in u.owner && u.owner[x].LinkUser?)
    && (x in a.linkExts ==> a.linkExts[x] == Default(u.owner[x].cmd, LoadLink))
  }

  ghost predicate Meant(a: Auto, u: Users) {
    PoolSpec.Counts(u.pool) && a.pool == u.pool && forall x: Trans :: OwnerTells(a, u, x)
  }

  lemma StepMeant(a: Auto, u: Users, op: Op)
    requires Meant(a, u) && May(u.pool, op)
    ensures Meant(AutoStep(a, op), UsersStep(u, op))
  {
    var a', u' := AutoStep(a, op), UsersStep(u, op);
    match op {
      case Begins(_) => PoolSpec.OpenCounts(u.pool);
      case Ends(x) => CloseCounts(u.pool, x);
      case _ =>
    }
    forall x: Trans ensures OwnerTells(a', u', x) { assert OwnerTells(a, u, x); }
  }

  lemma {:induction false} AutoAfterLast(a: Auto, ops: seq<Op>)
    requires |ops| > 0
    ensures AutoAfter(a, ops) == AutoStep(AutoAfter(a, ops[..|ops| - 1]), ops[|ops| - 1])
    decreases |ops|
  {
    if |ops| > 1 {
      AutoAfterLast(AutoStep(a, ops[0]), ops[1..]);
      assert ops[1..][..|ops| - 2] == ops[..|ops| - 1][1..];
    } else {
      assert ops[..0] == [];
    }
  }

  // A run is a shorter run and one operation more
  lemma {:induction false} RunsLast(s: Sticky, ops: seq<Op>)
    requires |ops| > 0 && Runs(s, ops)
    ensures var before := ops[..|ops| - 1];
            && Runs(s, before) && May(StickyAfter(s, before).pool, ops[|ops| - 1])
            && StickyAfter(s, ops) == StickyStep(StickyAfter(s, before), ops[|ops| - 1])
    decreases |ops|
  {
    if |ops| > 1 {
      RunsLast(StickyStep(s, ops[0]), ops[1..]);
      assert ops[1..][..|ops| - 2] == ops[..|ops| - 1][1..];
    } else {
      assert ops[..0] == [];
    }
  }

  lemma PoolSteps(s: Sticky, u: Users, op: Op)
    requires s.pool == u.pool
    ensures StickyStep(s, op).pool == UsersStep(u, op).pool
  {
  }

  lemma {:induction false} SamePools(ops: seq<Op>)
    requires Runs(STICKY, ops)
    ensures StickyAfter(STICKY, ops).pool == UsersAfter(ops).pool
    decreases |ops|
  {
    hide StickyStep, UsersStep;
    if |ops| > 0 {
      var before := ops[..|ops| - 1];
      RunsLast(STICKY, ops);
      SamePools(before);
      PoolSteps(StickyAfter(STICKY, before), UsersAfter(before), ops[|ops| - 1]);
    }
  }

  lemma SeenIsMeant(a: Auto, u: Users, op: Op)
    requires Meant(a, u)
    ensures op.ToLock? ==> AutoLockAccess(a, op.x, op.adr) == LockMeant(u, op.x, op.adr)
    ensures op.ToLink? ==> AutoLinkAccess(a, op.x, op.write, op.adr) == LinkMeant(u, op.x, op.write, op.adr)
  {
    if op.ToLock? || op.ToLink? { assert OwnerTells(a, u, op.x); }
  }

  // In every run of the automatic pool both interconnects see what the users mean, and hold what that comes to
  lemma {:induction false} AutoSeesItsUsers(ops: seq<Op>)
    requires Runs(STICKY, ops)
    ensures var a := AutoAfter(AUTO, ops);
            && Meant(a, UsersAfter(ops))
            && a.locks == LocksAfter(LockTrace(ops)) && a.links == LinksAfter(LinkTrace(ops))
    decreases |ops|
  {
    if |ops| > 0 {
      var before, op := ops[..|ops| - 1], ops[|ops| - 1];
      RunsLast(STICKY, ops);
      SamePools(before);
      AutoSeesItsUsers(before);
      AutoAfterLast(AUTO, ops);
      StepMeant(AutoAfter(AUTO, before), UsersAfter(before), op);
      SeenIsMeant(AutoAfter(AUTO, before), UsersAfter(before), op);
      Records(AutoAfter(AUTO, before), ops);
    }
  }

  // Each interconnect steps on what it sees
  lemma Records(a: Auto, ops: seq<Op>)
    requires |ops| > 0
    requires var before, op := ops[..|ops| - 1], ops[|ops| - 1];
             && a.locks == LocksAfter(LockTrace(before)) && a.links == LinksAfter(LinkTrace(before))
             && (op.ToLock? ==> AutoLockAccess(a, op.x, op.adr) == LockMeant(UsersAfter(before), op.x, op.adr))
             && (op.ToLink? ==>
                   AutoLinkAccess(a, op.x, op.write, op.adr) == LinkMeant(UsersAfter(before), op.x, op.write, op.adr))
    ensures var a' := AutoStep(a, ops[|ops| - 1]);
            a'.locks == LocksAfter(LockTrace(ops)) && a'.links == LinksAfter(LinkTrace(ops))
  {
    var before, op := ops[..|ops| - 1], ops[|ops| - 1];
    if op.ToLock? {
      assert LockTrace(ops)[..|LockTrace(before)|] == LockTrace(before);
    } else {
      assert LockTrace(ops) == LockTrace(before);
    }
    if op.ToLink? {
      assert LinkTrace(ops)[..|LinkTrace(before)|] == LinkTrace(before);
    } else {
      assert LinkTrace(ops) == LinkTrace(before);
    }
  }

  // ---------- Sticky extensions ----------

  // A sticky transaction is refused by the lock interconnect exactly when a lock that a user has taken, and that no
  // fitting unlock has taken off since, says so: as if every user had an extension of its own
  lemma StickyLockForwardedIff(ops: seq<Op>, x: Trans, adr: nat)
    requires Runs(STICKY, ops) && AllLeftAsNew(STICKY, ops)
    ensures var h, a := LockTrace(ops), LockMeant(UsersAfter(ops), x, adr);
            StickyPasses(StickyAfter(STICKY, ops), ToLock(x, adr))
            <==> forall i: nat, id :: Holds(h, i, adr, id) ==> a.Unlocks? && (id == 0 || id == a.id)
  {
    var s, a := StickyAfter(STICKY, ops), AutoAfter(AUTO, ops);
    RunMatches(STICKY, AUTO, ops);
    LockMatches(s, a, x, adr);
    AutoSeesItsUsers(ops);
    SeenIsMeant(a, UsersAfter(ops), ToLock(x, adr));
    ForwardedIff(LockTrace(ops), LockMeant(UsersAfter(ops), x, adr));
  }

  // A sticky transaction is refused by the load-link interconnect exactly when its user means a STORE_CONDITIONAL
  // and no link of a user stands on the address
  lemma StickyLinkForwardedIff(ops: seq<Op>, x: Trans, write: bool, adr: nat)
    requires Runs(STICKY, ops) && AllLeftAsNew(STICKY, ops)
    ensures var h, a := LinkTrace(ops), LinkMeant(UsersAfter(ops), x, write, adr);
            StickyPasses(StickyAfter(STICKY, ops), ToLink(x, write, adr))
            <==> (a == Linked(StoreConditional, adr) ==> exists i: nat :: LinkStands(h, i, adr))
  {
    var s, a := StickyAfter(STICKY, ops), AutoAfter(AUTO, ops);
    RunMatches(STICKY, AUTO, ops);
    LinkMatches(s, a, x, write, adr);
    AutoSeesItsUsers(ops);
    SeenIsMeant(a, UsersAfter(ops), ToLink(x, write, adr));
    LinkForwardedIff(LinkTrace(ops), LinkMeant(UsersAfter(ops), x, write, adr));
  }
}
