/** A transaction pool as its users see it: a stack of free transactions and a set of those in use. */
module PoolSpec {

  datatype Pool<T(==)> = Pool(free: seq<T>, inUse: set<T>)

  // The transaction handed out next; `made` is a new one, taken when none is free
  function Handed<T>(p: Pool<T>, made: T): T {
    if p.free == [] then made else p.free[0]
  }

  function Allocated<T>(p: Pool<T>, made: T): Pool<T> {
    Pool(if p.free == [] then [] else p.free[1..], p.inUse + {Handed(p, made)})
  }

  function Freed<T>(p: Pool<T>, x: T): Pool<T> {
    Pool([x] + p.free, p.inUse - {x})
  }

  ghost predicate Distinct<T>(s: seq<T>) {
    forall j, k :: 0 <= j < k < |s| ==> s[j] != s[k]
  }

  // No transaction is free twice, or free and in use
  ghost predicate Sound<T>(p: Pool<T>) {
    Distinct(p.free) && forall k :: 0 <= k < |p.free| ==> p.free[k] !in p.inUse
  }

  predicate Knows<T(==)>(p: Pool<T>, x: T) { x in p.free || x in p.inUse }

  lemma AllocateIsSound<T>(p: Pool<T>, made: T)
    requires Sound(p) && !Knows(p, made)
    ensures Sound(Allocated(p, made)) && Handed(p, made) !in p.inUse
  {
    var p' := Allocated(p, made);
    forall k | 0 <= k < |p'.free| ensures p'.free[k] !in p'.inUse { assert p'.free[k] == p.free[k + 1]; }
    forall j, k | 0 <= j < k < |p'.free| ensures p'.free[j] != p'.free[k] {
      assert p'.free[j] == p.free[j + 1] && p'.free[k] == p.free[k + 1];
    }
  }

  lemma FreeIsSound<T>(p: Pool<T>, x: T)
    requires Sound(p) && x in p.inUse
    ensures Sound(Freed(p, x))
  {
    var p' := Freed(p, x);
    forall k | 0 <= k < |p'.free| ensures p'.free[k] !in p'.inUse { assert k > 0 ==> p'.free[k] == p.free[k - 1]; }
    forall j, k | 0 <= j < k < |p'.free| ensures p'.free[j] != p'.free[k] {
      assert p'.free[k] == p.free[k - 1] && (j > 0 ==> p'.free[j] == p.free[j - 1]);
    }
  }

  // ---------- Runs ----------

  datatype Op<T> = Allocates(made: T) | Frees(x: T)

  predicate May<T(==)>(p: Pool<T>, op: Op<T>) {
    match op
    case Allocates(made) => !Knows(p, made)
    case Frees(x) => x in p.inUse
  }

  function Step<T>(p: Pool<T>, op: Op<T>): Pool<T> {
    match op
    case Allocates(made) => Allocated(p, made)
    case Frees(x) => Freed(p, x)
  }

  ghost predicate Runs<T>(p: Pool<T>, ops: seq<Op<T>>)
    decreases |ops|
  {
    |ops| > 0 ==> May(p, ops[0]) && Runs(Step(p, ops[0]), ops[1..])
  }

  function After<T>(p: Pool<T>, ops: seq<Op<T>>): Pool<T>
    decreases |ops|
  {
    if |ops| == 0 then p else After(Step(p, ops[0]), ops[1..])
  }

  // How many transactions a run has to make
  function Made<T>(p: Pool<T>, ops: seq<Op<T>>): nat
    decreases |ops|
  {
    if |ops| == 0 then 0
    else (if ops[0].Allocates? && p.free == [] then 1 else 0) + Made(Step(p, ops[0]), ops[1..])
  }

  // Over any run nothing is handed out twice, and every transaction made is still free or in use
  lemma {:induction false} RunIsSound<T>(p: Pool<T>, ops: seq<Op<T>>)
    requires Sound(p) && Runs(p, ops)
    ensures var p' := After(p, ops);
            Sound(p') && |p'.free| + |p'.inUse| == |p.free| + |p.inUse| + Made(p, ops)
    decreases |ops|
  {
    if |ops| > 0 {
      match ops[0]
      case Allocates(made) =>
        AllocateIsSound(p, made);
        RunIsSound(Allocated(p, made), ops[1..]);
      case Frees(x) =>
        FreeIsSound(p, x);
        assert p.inUse == (p.inUse - {x}) + {x};
        RunIsSound(Freed(p, x), ops[1..]);
    }
  }

  // ---------- Nesting ----------

  // Allocations and frees as brackets: each transaction is freed after all those allocated after it
  datatype Nest = Nest(inner: seq<Nest>)

  // Transactions are numbered as they are made
  datatype Numbered = Numbered(pool: Pool<nat>, next: nat)

  function Open(n: Numbered): Numbered {
    Numbered(Allocated(n.pool, n.next), if n.pool.free == [] then n.next + 1 else n.next)
  }

  function Close(n: Numbered, x: nat): Numbered {
    n.(pool := Freed(n.pool, x))
  }

  function Play(n: Numbered, nests: seq<Nest>): Numbered
    decreases nests
  {
    if |nests| == 0 then n
    else
      var inside := Play(Open(n), nests[0].inner);
      Play(Close(inside, Handed(n.pool, n.next)), nests[1..])
  }

  ghost predicate Counts(n: Numbered) {
    Sound(n.pool) && (forall x: nat :: Knows(n.pool, x) ==> x < n.next)
  }

  // Nested use leaves the stack as it found it, with the transactions it had to make below
  lemma {:induction false} NestingRestores(n: Numbered, nests: seq<Nest>)
    requires Counts(n)
    ensures var n' := Play(n, nests); Counts(n') && n'.pool.inUse == n.pool.inUse && n.pool.free <= n'.pool.free
    decreases nests
  {
    if |nests| > 0 {
      var x := Handed(n.pool, n.next);
      var n1 := Open(n);
      OpenCounts(n);
      NestingRestores(n1, nests[0].inner);
      var n2 := Play(n1, nests[0].inner);
      assert x in n2.pool.inUse;
      FreeIsSound(n2.pool, x);
      var n3 := Close(n2, x);
      assert forall y: nat :: Knows(n3.pool, y) ==> Knows(n2.pool, y);
      assert n3.pool.inUse == n.pool.inUse;
      assert n.pool.free <= n3.pool.free;
      NestingRestores(n3, nests[1..]);
    }
  }

  lemma OpenCounts(n: Numbered)
    requires Counts(n)
    ensures Counts(Open(n)) && Handed(n.pool, n.next) !in n.pool.inUse
  {
    assert !Knows(n.pool, n.next);
    AllocateIsSound(n.pool, n.next);
    forall x: nat | Knows(Open(n).pool, x) ensures x < Open(n).next {
      assert Knows(n.pool, x) || x == n.next;
    }
  }
}
