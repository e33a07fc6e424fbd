/**
 One transaction pool shared by plain users, users of locks and users of links, with the locking extensions
 handled in two ways. Automatic: a user makes a new extension each time and freeing the transaction deletes it.
 Sticky: an extension stays on its transaction for good and a valid flag says whether it counts; lock_mm and
 load_link_mm add the extension when they hand a transaction out and invalidate it when they take it back.
 */
module StickyPool {
  import opened Extensions
  import opened PoolSpec
  import opened Locking
  import opened Tlm

  // Which memory manager a user goes to, and what it sets in the extension
  datatype User =
    | Plain                                        // gp_mm
    | LockUser(lock: Option<bool>, id: Option<int>)  // lock_mm
    | LinkUser(cmd: Option<LinkCmd>)               // load_link_mm

  datatype Op =
    | Begins(user: User)                                // allocate a transaction and set it up
    | ToLock(x: Trans, adr: nat)                        // send it through the lock interconnect
    | ToLink(x: Trans, write: bool, adr: nat)           // send it through the load-link interconnect
    | Ends(x: Trans)                                    // the last release

  // ---------- Sticky ----------

  datatype Sticky = Sticky(pool: Numbered, lockExts: map<Trans, LockExt>, linkExts: map<Trans, LinkExt>,
                           managers: map<Trans, Manager>, locks: LockState, links: map<nat, bool>)

  function Default<T>(o: Option<T>, other: T): T { if o.Some? then o.value else other }

  function LockExtOf(m: map<Trans, LockExt>, x: Trans): LockExt { if x in m then m[x] else NEW_LOCK }

  function LinkExtOf(m: map<Trans, LinkExt>, x: Trans): LinkExt { if x in m then m[x] else NEW_LINK }

  function ManagerOf(s: Sticky, x: Trans): Manager { if x in s.managers then s.managers[x] else GpMm }

  function HandedTo(n: Numbered): Trans { Handed(n.pool, n.next) }

  function StickyBegins(s: Sticky, user: User): Sticky {
    var x := HandedTo(s.pool);
    var s1 := s.(pool := Open(s.pool));
    match user
    case Plain => s1.(managers := s1.managers[x := GpMm])
    case LockUser(lock, id) =>
      var was := LockExtOf(s1.lockExts, x);
      s1.(managers := s1.managers[x := LockMm],
          lockExts := s1.lockExts[x := LockExt(Default(lock, was.lock), Default(id, was.id), true)])
    case LinkUser(cmd) =>
      var was := LinkExtOf(s1.linkExts, x);
      s1.(managers := s1.managers[x := LoadLinkMm],
          linkExts := s1.linkExts[x := LinkExt(Default(cmd, was.cmd), true)])
  }

  // What each interconnect sees of a sticky transaction
  function StickyLockAccess(s: Sticky, x: Trans, adr: nat): LockAccess {
    var e := LockExtOf(s.lockExts, x);
    if !e.valid then Unmarked(adr) else if e.lock then Locks(adr, e.id) else Unlocks(adr, e.id)
  }

  function StickyLinkAccess(s: Sticky, x: Trans, write: bool, adr: nat): LinkAccess {
    var e := LinkExtOf(s.linkExts, x);
    if !e.valid then Unlinked(write, adr) else Linked(e.cmd, adr)
  }

  function StickyEnds(s: Sticky, x: Trans): Sticky {
    var s1 := s.(pool := Close(s.pool, x), managers := s.managers[x := GpMm]);
    match ManagerOf(s, x)
    case GpMm => s1
    case LockMm => s1.(lockExts := s1.lockExts[x := LockExtOf(s1.lockExts, x).(valid := false)])
    case LoadLinkMm => s1.(linkExts := s1.linkExts[x := LinkExtOf(s1.linkExts, x).(valid := false)])
  }

  function StickyStep(s: Sticky, op: Op): Sticky {
    match op
    case Begins(user) => StickyBegins(s, user)
    case ToLock(x, adr) => s.(locks := LockStep(s.locks, StickyLockAccess(s, x, adr)))
    case ToLink(x, write, adr) => s.(links := LinkStep(s.links, StickyLinkAccess(s, x, write, adr)))
    case Ends(x) => StickyEnds(s, x)
  }

  // ---------- Automatic ----------

  datatype AutoLock = AutoLock(lock: bool, id: int)

  datatype Auto = Auto(pool: Numbered, lockExts: map<Trans, AutoLock>, linkExts: map<Trans, LinkCmd>,
                       locks: LockState, links: map<nat, bool>)

  function AutoBegins(s: Auto, user: User): Auto {
    var x := HandedTo(s.pool);
    var s1 := s.(pool := Open(s.pool));
    match user
    case Plain => s1
    case LockUser(lock, id) => s1.(lockExts := s1.lockExts[x := AutoLock(Default(lock, false), Default(id, 0))])
    case LinkUser(cmd) => s1.(linkExts := s1.linkExts[x := Default(cmd, LoadLink)])
  }

  function AutoLockAccess(s: Auto, x: Trans, adr: nat): LockAccess {
    if x !in s.lockExts then Unmarked(adr)
    else if s.lockExts[x].lock then Locks(adr, s.lockExts[x].id) else Unlocks(adr, s.lockExts[x].id)
  }

  function AutoLinkAccess(s: Auto, x: Trans, write: bool, adr: nat): LinkAccess {
    if x !in s.linkExts then Unlinked(write, adr) else Linked(s.linkExts[x], adr)
  }

  // reset deletes the automatic extensions
  function AutoEnds(s: Auto, x: Trans): Auto {
    s.(pool := Close(s.pool, x), lockExts := s.lockExts - {x}, linkExts := s.linkExts - {x})
  }

  function AutoStep(s: Auto, op: Op): Auto {
    match op
    case Begins(user) => AutoBegins(s, user)
    case ToLock(x, adr) => s.(locks := LockStep(s.locks, AutoLockAccess(s, x, adr)))
    case ToLink(x, write, adr) => s.(links := LinkStep(s.links, AutoLinkAccess(s, x, write, adr)))
    case Ends(x) => AutoEnds(s, x)
  }

  // ---------- Runs and their decisions ----------

  predicate May(n: Numbered, op: Op) {
    match op
    case Begins(_) => true
    case ToLock(x, _) => x in n.pool.inUse
    case ToLink(x, _, _) => x in n.pool.inUse
    case Ends(x) => x in n.pool.inUse
  }

  ghost predicate Runs(s: Sticky, ops: seq<Op>)
    decreases |ops|
  {
    |ops| > 0 ==> May(s.pool, ops[0]) && Runs(StickyStep(s, ops[0]), ops[1..])
  }

  function StickyAfter(s: Sticky, ops: seq<Op>): Sticky
    decreases |ops|
  {
    if |ops| == 0 then s else StickyAfter(StickyStep(s, ops[0]), ops[1..])
  }

  function AutoAfter(s: Auto, ops: seq<Op>): Auto
    decreases |ops|
  {
    if |ops| == 0 then s else AutoAfter(AutoStep(s, ops[0]), ops[1..])
  }

  // Whether the interconnect forwards what the operation sends; other operations count as forwarded
  predicate StickyPasses(s: Sticky, op: Op) {
    match op
    case ToLock(x, adr) => LockPasses(s.locks, StickyLockAccess(s, x, adr))
    case ToLink(x, write, adr) => LinkPasses(s.links, StickyLinkAccess(s, x, write, adr))
    case _ => true
  }

  predicate AutoPasses(s: Auto, op: Op) {
    match op
    case ToLock(x, adr) => LockPasses(s.locks, AutoLockAccess(s, x, adr))
    case ToLink(x, write, adr) => LinkPasses(s.links, AutoLinkAccess(s, x, write, adr))
    case _ => true
  }

  function StickyDecisions(s: Sticky, ops: seq<Op>): seq<bool>
    decreases |ops|
  {
    if |ops| == 0 then [] else [StickyPasses(s, ops[0])] + StickyDecisions(StickyStep(s, ops[0]), ops[1..])
  }

  function AutoDecisions(s: Auto, ops: seq<Op>): seq<bool>
    decreases |ops|
  {
    if |ops| == 0 then [] else [AutoPasses(s, ops[0])] + AutoDecisions(AutoStep(s, ops[0]), ops[1..])
  }

  const FRESH: Numbered := Numbered(Pool([], {}), 0)

  const STICKY: Sticky := Sticky(FRESH, map[], map[], map[], UNLOCKED, map[])

  const AUTO: Auto := Auto(FRESH, map[], map[], UNLOCKED, map[])

  // ---------- Every free transaction has its extensions invalid ----------

  // Only the extension of its own manager can be valid, and only while the transaction is in use
  ghost predicate Invalidated(s: Sticky) {
    && Counts(s.pool)
    && (forall x: Trans :: LockExtOf(s.lockExts, x).valid ==> x in s.pool.pool.inUse && ManagerOf(s, x) == LockMm)
    && (forall x: Trans :: LinkExtOf(s.linkExts, x).valid ==> x in s.pool.pool.inUse && ManagerOf(s, x) == LoadLinkMm)
  }

  lemma StepInvalidated(s: Sticky, op: Op)
    requires Invalidated(s) && May(s.pool, op)
    ensures Invalidated(StickyStep(s, op))
  {
    match op
    case Begins(user) => BeginInvalidated(s, user);
    case Ends(x) => EndInvalidated(s, x);
    case _ =>
  }

  lemma BeginInvalidated(s: Sticky, user: User)
    requires Invalidated(s)
    ensures Invalidated(StickyBegins(s, user))
  {
    OpenCounts(s.pool);
    var s', x := StickyBegins(s, user), HandedTo(s.pool);
    assert x !in s.pool.pool.inUse && s'.pool.pool.inUse == s.pool.pool.inUse + {x};
    assert !LockExtOf(s.lockExts, x).valid && !LinkExtOf(s.linkExts, x).valid;
    forall y: Trans | y != x ensures LockExtOf(s'.lockExts, y) == LockExtOf(s.lockExts, y)
      ensures LinkExtOf(s'.linkExts, y) == LinkExtOf(s.linkExts, y) && ManagerOf(s', y) == ManagerOf(s, y) { }
  }

  lemma EndInvalidated(s: Sticky, x: Trans)
    requires Invalidated(s) && x in s.pool.pool.inUse
    ensures Invalidated(StickyEnds(s, x))
  {
    CloseCounts(s.pool, x);
    var s' := StickyEnds(s, x);
    forall y: Trans | y != x ensures LockExtOf(s'.lockExts, y) == LockExtOf(s.lockExts, y)
      ensures LinkExtOf(s'.linkExts, y) == LinkExtOf(s.linkExts, y) && ManagerOf(s', y) == ManagerOf(s, y) { }
  }

  lemma CloseCounts(n: Numbered, x: Trans)
    requires Counts(n) && x in n.pool.inUse
    ensures Counts(Close(n, x))
  {
    FreeIsSound(n.pool, x);
    forall y: nat | Knows(Close(n, x).pool, y) ensures y < n.next { assert Knows(n.pool, y) && Knows(n.pool, x); }
  }

  lemma {:induction false} RunInvalidated(s: Sticky, ops: seq<Op>)
    requires Invalidated(s) && Runs(s, ops)
    ensures Invalidated(StickyAfter(s, ops))
    decreases |ops|
  {
    if |ops| > 0 {
      StepInvalidated(s, ops[0]);
      RunInvalidated(StickyStep(s, ops[0]), ops[1..]);
    }
  }

  // Over every run: a transaction that is free, or in use by a plain user, has no valid locking extension
  lemma FreeMeansInvalid(ops: seq<Op>, x: Trans)
    requires Runs(STICKY, ops)
    ensures var s := StickyAfter(STICKY, ops);
            x !in s.pool.pool.inUse || ManagerOf(s, x) == GpMm ==>
              !LockExtOf(s.lockExts, x).valid && !LinkExtOf(s.linkExts, x).valid
  {
    RunInvalidated(STICKY, ops);
  }

  // ---------- Sticky refines automatic ----------

  predicate SameLock(s: Sticky, a: Auto, x: Trans) {
    var e := LockExtOf(s.lockExts, x);
    if e.valid then x in a.lockExts && a.lockExts[x] == AutoLock(e.lock, e.id) else x !in a.lockExts
  }

  predicate SameLink(s: Sticky, a: Auto, x: Trans) {
    var e := LinkExtOf(s.linkExts, x);
    if e.valid then x in a.linkExts && a.linkExts[x] == e.cmd else x !in a.linkExts
  }

  ghost predicate Matches(s: Sticky, a: Auto) {
    && Invalidated(s) && a.pool == s.pool && a.locks == s.locks && a.links == s.links
    && (forall x: Trans :: SameLock(s, a, x) && SameLink(s, a, x))
  }

  // What a user leaves unset in a sticky extension happens to be as in a new one
  predicate LeftAsNew(s: Sticky, op: Op) {
    var x := HandedTo(s.pool);
    op.Begins? ==>
      && (op.user.LockUser? && op.user.lock.None? ==> !LockExtOf(s.lockExts, x).lock)
      && (op.user.LockUser? && op.user.id.None? ==> LockExtOf(s.lockExts, x).id == 0)
      && (op.user.LinkUser? && op.user.cmd.None? ==> LinkExtOf(s.linkExts, x).cmd == LoadLink)
  }

  lemma LockMatches(s: Sticky, a: Auto, x: Trans, adr: nat)
    requires Matches(s, a)
    ensures var op := ToLock(x, adr);
            StickyPasses(s, op) == AutoPasses(a, op)
            && Matches(StickyStep(s, op), AutoStep(a, op))
  {
    var s', a' := StickyStep(s, ToLock(x, adr)), AutoStep(a, ToLock(x, adr));
    assert SameLock(s, a, x);
    forall y: Trans
      ensures SameLock(s', a', y) && SameLink(s', a', y)
    {
      assert SameLock(s, a, y) && SameLink(s, a, y);
    }
  }

  lemma LinkMatches(s: Sticky, a: Auto, x: Trans, write: bool, adr: nat)
    requires Matches(s, a)
    ensures var op := ToLink(x, write, adr);
            StickyPasses(s, op) == AutoPasses(a, op) && Matches(StickyStep(s, op), AutoStep(a, op))
  {
    var s', a' := StickyStep(s, ToLink(x, write, adr)), AutoStep(a, ToLink(x, write, adr));
    assert SameLink(s, a, x);
    forall y: Trans
      ensures SameLock(s', a', y) && SameLink(s', a', y)
    {
      assert SameLock(s, a, y) && SameLink(s, a, y);
    }
  }

  lemma EndMatches(s: Sticky, a: Auto, x: Trans)
    requires Matches(s, a) && x in s.pool.pool.inUse
    ensures Matches(StickyEnds(s, x), AutoEnds(a, x))
  {
    EndInvalidated(s, x);
    var s', a' := StickyEnds(s, x), AutoEnds(a, x);
    forall y: Trans
      ensures SameLock(s', a', y) && SameLink(s', a', y)
    {
      assert SameLock(s, a, y) && SameLink(s, a, y);
    }
  }

  // One step keeps the two alike exactly when nothing left unset differs from new
  lemma StepMatchesIff(s: Sticky, a: Auto, op: Op)
    requires Matches(s, a) && May(s.pool, op)
    ensures StickyPasses(s, op) == AutoPasses(a, op)
    ensures Matches(StickyStep(s, op), AutoStep(a, op)) <==> LeftAsNew(s, op)
  {
    match op
    case Begins(user) => BeginMatchesIff(s, a, user);
    case ToLock(x, adr) => LockMatches(s, a, x, adr);
    case ToLink(x, write, adr) => LinkMatches(s, a, x, write, adr);
    case Ends(x) => EndMatches(s, a, x);
  }

  lemma BeginMatchesIff(s: Sticky, a: Auto, user: User)
    requires Matches(s, a)
    ensures Matches(StickyBegins(s, user), AutoBegins(a, user)) <==> LeftAsNew(s, Begins(user))
  {
    var s', a', x := StickyBegins(s, user), AutoBegins(a, user), HandedTo(s.pool);
    StepInvalidated(s, Begins(user));
    OpenCounts(s.pool);
    assert !LockExtOf(s.lockExts, x).valid && !LinkExtOf(s.linkExts, x).valid;
    forall y: Trans | y != x
      ensures SameLock(s', a', y) && SameLink(s', a', y)
    {
      assert SameLock(s, a, y) && SameLink(s, a, y);
    }
    assert SameLock(s, a, x) && SameLink(s, a, x);
    assert SameLock(s', a', x) && SameLink(s', a', x) <==> LeftAsNew(s, Begins(user));
  }

  ghost predicate AllLeftAsNew(s: Sticky, ops: seq<Op>)
    decreases |ops|
  {
    |ops| > 0 ==> LeftAsNew(s, ops[0]) && AllLeftAsNew(StickyStep(s, ops[0]), ops[1..])
  }

  lemma {:induction false} RunMatches(s: Sticky, a: Auto, ops: seq<Op>)
    requires Matches(s, a) && Runs(s, ops) && AllLeftAsNew(s, ops)
    ensures Matches(StickyAfter(s, ops), AutoAfter(a, ops)) && StickyDecisions(s, ops) == AutoDecisions(a, ops)
    decreases |ops|
  {
    if |ops| > 0 {
      StepMatchesIff(s, a, ops[0]);
      RunMatches(StickyStep(s, ops[0]), AutoStep(a, ops[0]), ops[1..]);
    }
  }

  // Users that set everything, as those of the repository do but for the id, which they never set
  predicate SetsAll(op: Op) {
    op.Begins? ==> (op.user.LockUser? ==> op.user.lock.Some?) && (op.user.LinkUser? ==> op.user.cmd.Some?)
  }

  predicate SetsId(op: Op) { op.Begins? && op.user.LockUser? ==> op.user.id.Some? }

  predicate NoId(op: Op) { op.Begins? && op.user.LockUser? ==> op.user.id.None? || op.user.id.value == 0 }

  lemma {:induction false} UsersLeaveNothing(s: Sticky, ops: seq<Op>)
    requires forall k :: 0 <= k < |ops| ==> SetsAll(ops[k])
    requires (forall k :: 0 <= k < |ops| ==> SetsId(ops[k]))
             || ((forall k :: 0 <= k < |ops| ==> NoId(ops[k])) && forall x: Trans :: LockExtOf(s.lockExts, x).id == 0)
    ensures AllLeftAsNew(s, ops)
    decreases |ops|
  {
    if |ops| > 0 {
      var s' := StickyStep(s, ops[0]);
      assert SetsAll(ops[0]);
      if forall k :: 0 <= k < |ops| ==> SetsId(ops[k]) {
        assert SetsId(ops[0]);
        assert forall k :: 0 <= k < |ops[1..]| ==> SetsId(ops[1..][k]);
      } else {
        assert NoId(ops[0]);
        IdsStayZero(s, ops[0]);
        assert forall k :: 0 <= k < |ops[1..]| ==> NoId(ops[1..][k]);
      }
      UsersLeaveNothing(s', ops[1..]);
    }
  }

  // With users that set lock and cmd, and either always or never use an id, both ways decide alike in every run
  lemma StickyDecidesAsAuto(ops: seq<Op>)
    requires Runs(STICKY, ops) && forall k :: 0 <= k < |ops| ==> SetsAll(ops[k])
    requires (forall k :: 0 <= k < |ops| ==> SetsId(ops[k])) || (forall k :: 0 <= k < |ops| ==> NoId(ops[k]))
    ensures StickyDecisions(STICKY, ops) == AutoDecisions(AUTO, ops)
  {
    UsersLeaveNothing(STICKY, ops);
    RunMatches(STICKY, AUTO, ops);
  }

  lemma IdsStayZero(s: Sticky, op: Op)
    requires NoId(op) && forall x: Trans :: LockExtOf(s.lockExts, x).id == 0
    ensures forall x: Trans :: LockExtOf(StickyStep(s, op).lockExts, x).id == 0
  {
    forall x: Trans ensures LockExtOf(StickyStep(s, op).lockExts, x).id == 0 {
      assert LockExtOf(s.lockExts, x).id == 0 && LockExtOf(s.lockExts, HandedTo(s.pool)).id == 0;
    }
  }

  // ---------- Where they differ ----------

  lemma OneDiffers(s: Sticky, a: Auto, ops: seq<Op>)
    requires |ops| > 0 && May(s.pool, ops[0]) && Runs(StickyStep(s, ops[0]), ops[1..])
    requires StickyDecisions(StickyStep(s, ops[0]), ops[1..]) != AutoDecisions(AutoStep(a, ops[0]), ops[1..])
    ensures Runs(s, ops) && StickyDecisions(s, ops) != AutoDecisions(a, ops)
  {
    assert StickyDecisions(s, ops)[1..] == StickyDecisions(StickyStep(s, ops[0]), ops[1..]);
    assert AutoDecisions(a, ops)[1..] == AutoDecisions(AutoStep(a, ops[0]), ops[1..]);
  }

  lemma FirstDiffers(s: Sticky, a: Auto, ops: seq<Op>)
    requires |ops| == 1 && May(s.pool, ops[0]) && StickyPasses(s, ops[0]) != AutoPasses(a, ops[0])
    ensures Runs(s, ops) && StickyDecisions(s, ops) != AutoDecisions(a, ops)
  {
    assert StickyDecisions(s, ops)[0] != AutoDecisions(a, ops)[0];
  }

  // An address that no map has seen
  lemma Unseen(known: set<nat>) returns (adr: nat)
    ensures forall y :: y in known ==> y < adr
  {
    if known == {} {
      adr := 0;
    } else {
      var y :| y in known;
      var rest := Unseen(known - {y});
      adr := if y < rest then rest else y + 1;
      forall z | z in known ensures z < adr { assert z == y || z in known - {y}; }
    }
  }

  // Every user sets all there is to set
  ghost predicate Explicit(ops: seq<Op>) {
    forall k :: 0 <= k < |ops| ==> SetsAll(ops[k]) && SetsId(ops[k])
  }

  // Whatever such users do next, both ways decide alike
  ghost predicate DecideAlike(s: Sticky, a: Auto) {
    forall ops :: Runs(s, ops) && Explicit(ops) ==> StickyDecisions(s, ops) == AutoDecisions(a, ops)
  }

  // Both interconnects have seen the same, and x is in use, marked for locking in two ways
  predicate Marked(s: Sticky, a: Auto, x: Trans) {
    && s.pool == a.pool && s.locks == a.locks && x in s.pool.pool.inUse
    && LockExtOf(s.lockExts, x).valid && x in a.lockExts
  }

  // One of the two locks the address, and the same again is refused
  lemma LocksDiffer(s: Sticky, a: Auto, x: Trans, adr: nat)
    requires Marked(s, a, x) && LockExtOf(s.lockExts, x).lock != a.lockExts[x].lock && !Flag(s.locks.lockMap, adr)
    ensures !DecideAlike(s, a)
  {
    var ops := [ToLock(x, adr), ToLock(x, adr)];
    assert ops[1..] == [ToLock(x, adr)];
    FirstDiffers(StickyStep(s, ops[0]), AutoStep(a, ops[0]), ops[1..]);
    OneDiffers(s, a, ops);
  }

  // An unlock of an address whose lock has another id in one case and is anonymous in the other
  lemma UnlockDiffers(s: Sticky, a: Auto, adr: nat, id: int)
    requires s.pool == a.pool
    requires Flag(s.locks.lockMap, adr) && Flag(a.locks.lockMap, adr) && IdOf(s.locks, adr) != 0
    requires IdOf(a.locks, adr) == 0
    requires IdOf(s.locks, adr) != id
    ensures var ops := [Begins(LockUser(Some(false), Some(id))), ToLock(HandedTo(s.pool), adr)];
            Runs(s, ops) && StickyDecisions(s, ops) != AutoDecisions(a, ops)
  {
    var begins, y := Begins(LockUser(Some(false), Some(id))), HandedTo(s.pool);
    var ops := [begins, ToLock(y, adr)];
    var s1, a1 := StickyStep(s, begins), AutoStep(a, begins);
    assert ops[1..] == [ToLock(y, adr)];
    assert StickyLockAccess(s1, y, adr) == AutoLockAccess(a1, y, adr) == Unlocks(adr, id);
    FirstDiffers(s1, a1, ops[1..]);
    OneDiffers(s, a, ops);
  }

  // Both lock the address, and a third user can take off the anonymous lock only
  lemma LockIdsDiffer(s: Sticky, a: Auto, x: Trans, adr: nat)
    requires Marked(s, a, x) && Counts(s.pool) && !Flag(s.locks.lockMap, adr)
    requires LockExtOf(s.lockExts, x).lock && a.lockExts[x] == AutoLock(true, 0) && LockExtOf(s.lockExts, x).id != 0
    ensures !DecideAlike(s, a)
  {
    var id := if LockExtOf(s.lockExts, x).id == 1 then 2 else 1;
    var ops := [ToLock(x, adr), Begins(LockUser(Some(false), Some(id))), ToLock(HandedTo(s.pool), adr)];
    assert ops[1..] == [Begins(LockUser(Some(false), Some(id))), ToLock(HandedTo(s.pool), adr)];
    UnlockDiffers(StickyStep(s, ops[0]), AutoStep(a, ops[0]), adr, id);
    OneDiffers(s, a, ops);
  }

  // A third user locks the address with the id that one of the two unlocks with
  lemma UnlockIdsDiffer(s: Sticky, a: Auto, x: Trans, adr: nat)
    requires Marked(s, a, x) && Counts(s.pool) && !Flag(s.locks.lockMap, adr)
    requires !LockExtOf(s.lockExts, x).lock && a.lockExts[x] == AutoLock(false, 0) && LockExtOf(s.lockExts, x).id != 0
    ensures !DecideAlike(s, a)
  {
    var begins, y := Begins(LockUser(Some(true), Some(LockExtOf(s.lockExts, x).id))), HandedTo(s.pool);
    OpenCounts(s.pool);
    var ops := [begins, ToLock(y, adr), ToLock(x, adr)];
    var s1, a1 := StickyStep(s, begins), AutoStep(a, begins);
    assert ops[1..] == [ToLock(y, adr), ToLock(x, adr)] && ops[1..][1..] == [ToLock(x, adr)];
    FirstDiffers(StickyStep(s1, ops[1]), AutoStep(a1, ops[1]), ops[1..][1..]);
    OneDiffers(s1, a1, ops[1..]);
    OneDiffers(s, a, ops);
  }

  // A STORE_CONDITIONAL of an address that was never linked is refused, a LOAD_LINK is not
  lemma LinksDiffer(s: Sticky, a: Auto, x: Trans, adr: nat)
    requires x in s.pool.pool.inUse && LinkExtOf(s.linkExts, x).valid && x in a.linkExts
    requires LinkExtOf(s.linkExts, x).cmd.StoreConditional? && a.linkExts[x].LoadLink? && !Flag(s.links, adr)
    ensures !DecideAlike(s, a)
  {
    var ops := [ToLink(x, false, adr)];
    FirstDiffers(s, a, ops);
  }

  // Two ways that are alike, and then differ in what is left unset, differ in some later decision
  lemma BeginDiffers(s: Sticky, a: Auto, user: User)
    requires Matches(s, a) && !LeftAsNew(s, Begins(user))
    ensures !DecideAlike(StickyBegins(s, user), AutoBegins(a, user))
  {
    var s', a', x := StickyBegins(s, user), AutoBegins(a, user), HandedTo(s.pool);
    OpenCounts(s.pool);
    var adr := Unseen(s.locks.lockMap.Keys + s.links.Keys);
    if user.LinkUser? {
      LinksDiffer(s', a', x, adr);
    } else if LockExtOf(s'.lockExts, x).lock != a'.lockExts[x].lock {
      LocksDiffer(s', a', x, adr);
    } else if a'.lockExts[x].lock {
      LockIdsDiffer(s', a', x, adr);
    } else {
      UnlockIdsDiffer(s', a', x, adr);
    }
  }

  // A step leaves the two ways deciding alike, whatever users that set everything do next, exactly when nothing
  // that it leaves unset differs from new
  lemma StepDecidesAlikeIff(s: Sticky, a: Auto, op: Op)
    requires Matches(s, a) && May(s.pool, op)
    ensures DecideAlike(StickyStep(s, op), AutoStep(a, op)) <==> LeftAsNew(s, op)
  {
    var s', a' := StickyStep(s, op), AutoStep(a, op);
    StepMatchesIff(s, a, op);
    if LeftAsNew(s, op) {
      forall ops | Runs(s', ops) && Explicit(ops) ensures StickyDecisions(s', ops) == AutoDecisions(a', ops) {
        UsersLeaveNothing(s', ops);
        RunMatches(s', a', ops);
      }
    } else {
      BeginDiffers(s, a, op.user);
    }
  }

  // One user locks with an id and unlocks; the next to get the transaction locks without setting one; a third
  // then may not unlock with its own id, though the lock ought to be anonymous
  const STALE_ID: seq<Op> := [
    Begins(LockUser(Some(true), Some(7))), ToLock(0, 1024), Ends(0),
    Begins(LockUser(Some(true), None)), ToLock(0, 1028), Ends(0),
    Begins(LockUser(Some(false), Some(9))), ToLock(0, 1028)]

  // A user has taken transaction 0, sent it to the address and ended it
  function StickyUse(s: Sticky, user: User, adr: nat): Sticky {
    StickyEnds(StickyStep(StickyBegins(s, user), ToLock(0, adr)), 0)
  }

  function AutoUse(s: Auto, user: User, adr: nat): Auto {
    AutoEnds(AutoStep(AutoBegins(s, user), ToLock(0, adr)), 0)
  }

  lemma UseDiffers(s: Sticky, a: Auto, user: User, adr: nat, ops: seq<Op>)
    requires HandedTo(s.pool) == 0
    requires Runs(StickyUse(s, user, adr), ops)
    requires StickyDecisions(StickyUse(s, user, adr), ops) != AutoDecisions(AutoUse(a, user, adr), ops)
    ensures var all := [Begins(user), ToLock(0, adr), Ends(0)] + ops;
            Runs(s, all) && StickyDecisions(s, all) != AutoDecisions(a, all)
  {
    var all := [Begins(user), ToLock(0, adr), Ends(0)] + ops;
    var s1, a1 := StickyBegins(s, user), AutoBegins(a, user);
    var s2, a2 := StickyStep(s1, ToLock(0, adr)), AutoStep(a1, ToLock(0, adr));
    assert all[1..] == [ToLock(0, adr), Ends(0)] + ops && all[1..][1..] == [Ends(0)] + ops && all[1..][1..][1..] == ops;
    OneDiffers(s2, a2, all[1..][1..]);
    OneDiffers(s1, a1, all[1..]);
    OneDiffers(s, a, all);
  }

  lemma FirstUse()
    ensures var user := LockUser(Some(true), Some(7));
            var s, a := StickyUse(STICKY, user, 1024), AutoUse(AUTO, user, 1024);
            && s.pool == a.pool == Numbered(Pool([0], {}), 1)
            && LockExtOf(s.lockExts, 0) == LockExt(true, 7, false)
            && !Flag(s.locks.lockMap, 1028) && !Flag(a.locks.lockMap, 1028)
  {
  }

  lemma SecondUse(s: Sticky, a: Auto)
    requires s.pool == a.pool == Numbered(Pool([0], {}), 1) && LockExtOf(s.lockExts, 0) == LockExt(true, 7, false)
    requires !Flag(s.locks.lockMap, 1028) && !Flag(a.locks.lockMap, 1028)
    ensures var user := LockUser(Some(true), None);
            var s', a' := StickyUse(s, user, 1028), AutoUse(a, user, 1028);
            && s'.pool == a'.pool == Numbered(Pool([0], {}), 1)
            && Flag(s'.locks.lockMap, 1028) && Flag(a'.locks.lockMap, 1028)
            && IdOf(s'.locks, 1028) == 7 && IdOf(a'.locks, 1028) == 0
  {
  }

  lemma StaleIdChangesDecision()
    ensures Runs(STICKY, STALE_ID)
    ensures StickyDecisions(STICKY, STALE_ID) != AutoDecisions(AUTO, STALE_ID)
  {
    hide StickyUse, AutoUse, Runs, StickyDecisions, AutoDecisions;
    var u1, u2 := LockUser(Some(true), Some(7)), LockUser(Some(true), None);
    var last := [Begins(LockUser(Some(false), Some(9))), ToLock(0, 1028)];
    var s1, a1 := StickyUse(STICKY, u1, 1024), AutoUse(AUTO, u1, 1024);
    FirstUse();
    SecondUse(s1, a1);
    UnlockDiffers(StickyUse(s1, u2, 1028), AutoUse(a1, u2, 1028), 1028, 9);
    UseDiffers(s1, a1, u2, 1028, last);
    UseDiffers(STICKY, AUTO, u1, 1024, [Begins(u2), ToLock(0, 1028), Ends(0)] + last);
    assert STALE_ID == [Begins(u1), ToLock(0, 1024), Ends(0)] + ([Begins(u2), ToLock(0, 1028), Ends(0)] + last);
  }
}
