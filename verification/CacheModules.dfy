/** The cache and the bus as modules whose methods update arrays of lines in place. */
module CacheModules {
  import opened CacheLines
  import opened Moesi
  import opened MoesiSafety

  class SingleCache {
    const cachelines: array<Line>
    var pc: Pc
    ghost var age: seq<nat>
    ghost var used: seq<nat>
    ghost var clock: nat

    ghost predicate Valid()
      reads this
    {
      cachelines.Length == |age| == |used| == CACHE_SIZE
    }

    ghost function View(): (c: Core)
      requires Valid()
      reads this, cachelines
      ensures Sized(c)
    {
      Core(cachelines[..], pc, age, used, clock)
    }

    constructor ()
      ensures Valid() && fresh(cachelines) && Empty(View())
    {
      cachelines := new Line[CACHE_SIZE](_ => Line(0, Invalid, 0));
      pc := Idle;
      age, used, clock := seq(CACHE_SIZE, _ => 2049), seq(CACHE_SIZE, _ => 0), 0;
    }

    // Look the address up, find the victim in case of a miss, and age the rest of the set
    method Scan(addr: nat) returns (rindex: int, minId: nat)
      requires Valid()
      modifies this, cachelines
      ensures Valid() && View() == Moesi.Scan(old(View()), addr)
      ensures rindex == FoundIn(old(View()), addr)
      ensures minId == VictimIn(old(View()), addr)
    {
      var index := Index(addr);
      SetsAreInBounds(addr, addr);
      ghost var was := cachelines[..];
      rindex, minId := -1, index;
      var minVal := MAX_COUNTER + 2;
      var i := index;
      while i < index + SET_SIZE
        invariant index <= i <= index + SET_SIZE
        invariant pc == old(pc) && age == old(age) && used == old(used) && clock == old(clock)
        invariant rindex == Found(was, index, i, Tag(addr))
        invariant Choice(minId, minVal) == Choose(was, index, i, Tag(addr))
        invariant cachelines[..] == Aged(was, index, i, Tag(addr))
      {
        assert cachelines[i] == cachelines[..][i] == was[i];
        if !cachelines[i].state.Invalid? && cachelines[i].tag == Tag(addr) {
          rindex := i;
        } else {
          if cachelines[i].state.Invalid? {
            minId, minVal := i, -1;
          } else if cachelines[i].counter < minVal {
            minId, minVal := i, cachelines[i].counter;
          }
          cachelines[i] := Older(cachelines[i]);
        }
        i := i + 1;
      }
      age := Moesi.Scan(Core(was, pc, age, used, clock), addr).age;
    }

    // check_the_cachelinestat
    method Look()
      requires Valid() && pc.Looking?
      modifies this, cachelines
      ensures Valid() && View() == Moesi.Look(old(View()), old(pc).func, old(pc).addr)
    {
      var func, addr := pc.func, pc.addr;
      var rindex, minId := Scan(addr);
      if rindex > -1 {
        pc := Hit(func, addr, rindex);
      } else {
        pc := Miss(func, addr, minId);
      }
    }

    // The way has been used
    method Refresh(way: nat, l: Line)
      requires Valid() && way < CACHE_SIZE
      modifies this, cachelines
      ensures Valid() && View() == Touch(old(View()), way, l)
    {
      cachelines[way] := l.(counter := MAX_COUNTER);
      age, used, clock := age[way := 0], used[way := clock + 1], clock + 1;
    }

    method ChangeState(way: nat, state: State)
      requires Valid() && way < CACHE_SIZE
      modifies cachelines
      ensures Valid() && View() == SetState(old(View()), way, state)
    {
      cachelines[way] := cachelines[way].(state := state);
    }

    // The body of the snooping thread's loop
    method Snooping(req: Request, addr: nat)
      requires Valid()
      modifies cachelines
      ensures Valid() && View() == Snoop(old(View()), req, addr)
    {
      var index := Index(addr);
      SetsAreInBounds(addr, addr);
      var rindex := -1;
      var i := index;
      while i < index + SET_SIZE
        invariant index <= i <= index + SET_SIZE
        invariant rindex == Found(cachelines[..], index, i, Tag(addr))
        invariant cachelines[..] == old(cachelines[..])
      {
        if !cachelines[i].state.Invalid? && cachelines[i].tag == Tag(addr) {
          rindex := i;
        }
        i := i + 1;
      }
      FoundIsLast(cachelines[..], index, i, Tag(addr));
      if rindex > -1 {
        if req.Invalidate? {
          ChangeState(rindex, Invalid);
        } else if cachelines[rindex].state.Modified? {
          ChangeState(rindex, Owned);
        } else if cachelines[rindex].state.Exclusive? {
          ChangeState(rindex, Shared);
        }
      }
    }

    // Is the line here?
    method Answers(addr: nat) returns (found: bool)
      requires Valid()
      ensures found <==> FoundIn(View(), addr) > -1
    {
      SetsAreInBounds(addr, addr);
      found := false;
      var i := Index(addr);
      while i < Index(addr) + SET_SIZE
        invariant Index(addr) <= i <= Index(addr) + SET_SIZE
        invariant found <==> Found(cachelines[..], Index(addr), i, Tag(addr)) > -1
      {
        if !cachelines[i].state.Invalid? && cachelines[i].tag == Tag(addr) {
          found := true;
        }
        i := i + 1;
      }
    }
  }

  // All caches on one bus
  class Bus {
    const caches: seq<SingleCache>

    ghost predicate Valid()
      reads this, caches
    {
      && (forall d :: 0 <= d < |caches| ==> caches[d].Valid())
      && (forall d, e :: 0 <= d < e < |caches| ==>
           caches[d] != caches[e] && caches[d].cachelines != caches[e].cachelines)
    }

    ghost function Arrays(): set<object>
    {
      set d | 0 <= d < |caches| :: caches[d].cachelines
    }

    ghost function View(): (s: System)
      requires Valid()
      reads this, caches, Arrays()
      ensures |s| == |caches| && forall d :: 0 <= d < |s| ==> s[d] == caches[d].View()
    {
      Views(|caches|)
    }

    ghost function Views(n: nat): (s: System)
      requires Valid() && n <= |caches|
      reads this, caches, Arrays()
      ensures |s| == n && forall d :: 0 <= d < n ==> s[d] == caches[d].View()
    {
      if n == 0 then [] else Views(n - 1) + [caches[n - 1].View()]
    }

    constructor (n: nat)
      ensures Valid() && fresh(caches) && fresh(Arrays()) && |caches| == n && Initial(View())
    {
      var cs: seq<SingleCache> := [];
      var k := 0;
      while k < n
        invariant |cs| == k <= n && fresh(cs)
        invariant forall d :: 0 <= d < k ==> cs[d].Valid() && fresh(cs[d].cachelines) && Empty(cs[d].View())
        invariant forall d, e :: 0 <= d < e < k ==> cs[d] != cs[e] && cs[d].cachelines != cs[e].cachelines
      {
        var c := new SingleCache();
        cs := cs + [c];
        k := k + 1;
      }
      caches := cs;
    }

    // One tenure of the bus by cache i: every other cache snoops the request
    method Tenure(i: nat, req: Request, addr: nat)
      requires Valid() && i < |caches| && Formed(View())
      modifies Arrays()
      ensures Valid() && View() == Broadcast(old(View()), i, old(View())[i], req, addr)
    {
      ghost var s := View();
      var d := 0;
      while d < |caches|
        invariant 0 <= d <= |caches| && Valid()
        invariant forall e :: 0 <= e < |caches| ==>
          caches[e].View() == if e < d && e != i then Snoop(s[e], req, addr) else s[e]
      {
        if d != i {
          SnoopAt(d, req, addr);
        }
        d := d + 1;
      }
    }

    method SnoopAt(d: nat, req: Request, addr: nat)
      requires Valid() && d < |caches|
      modifies Arrays()
      ensures Valid() && caches[d].View() == Snoop(old(caches[d].View()), req, addr)
      ensures forall e :: 0 <= e < |caches| && e != d ==> caches[e].View() == old(caches[e].View())
    {
      assert caches[d].cachelines in Arrays();
      caches[d].Snooping(req, addr);
    }

    // The execute thread of cache i goes on to another place
    method GoTo(i: nat, pc: Pc)
      requires Valid() && i < |caches|
      modifies caches
      ensures Valid() && View() == old(View())[i := old(View())[i].(pc := pc)]
    {
      caches[i].pc := pc;
    }

    method Look(i: nat)
      requires Valid() && i < |caches| && caches[i].pc.Looking?
      modifies caches, Arrays()
      ensures Valid()
      ensures View() == old(View())[i := Moesi.Look(old(View())[i], old(caches[i].pc.func), old(caches[i].pc.addr))]
    {
      assert caches[i].cachelines in Arrays();
      caches[i].Look();
    }

    method Refresh(i: nat, way: nat, l: Line)
      requires Valid() && i < |caches| && way < CACHE_SIZE
      modifies caches, Arrays()
      ensures Valid() && View() == old(View())[i := Touch(old(View())[i], way, l)]
    {
      assert caches[i].cachelines in Arrays();
      caches[i].Refresh(way, l);
    }

    method ChangeState(i: nat, way: nat, state: State)
      requires Valid() && i < |caches| && way < CACHE_SIZE
      modifies Arrays()
      ensures Valid() && View() == old(View())[i := SetState(old(View())[i], way, state)]
    {
      assert caches[i].cachelines in Arrays();
      caches[i].ChangeState(way, state);
    }

    // Cache i gets its turn
    method Step(i: nat, granted: bool)
      requires Valid() && Formed(View()) && i < |caches| && !caches[i].pc.Idle?
      modifies caches, Arrays()
      ensures Valid() && View() == Apply(old(View()), Acts(i, granted))
    {
      hide Moesi.Look, Moesi.Use, Moesi.Claim, Moesi.EndRead, Moesi.Evict, Moesi.Fill, Broadcast;
      ghost var s := View();
      assert s[i] == caches[i].View();
      var pc := caches[i].pc;
      match pc {
        case Looking(func, addr) => Look(i);
        case Hit(func, addr, way) => Use(i, granted);
        case Reading(addr, way) => EndRead(i, addr, way);
        case Claiming(addr, way) => Claim(i, addr, way, true, granted);
        case Refused(addr, way, filled) => Retry(i, addr, way, filled, granted);
        case Miss(func, addr, way) => Evict(i, func, addr, way, granted);
        case WriteRefused(func, addr, way) => Evict(i, func, addr, way, granted);
        case Filling(func, addr, way) => Fill(i, func, addr, way);
      }
    }

    method Use(i: nat, granted: bool)
      requires Valid() && Formed(View()) && i < |caches| && caches[i].pc.Hit?
      modifies caches, Arrays()
      ensures Valid() && View() == Moesi.Use(old(View()), i, old(caches[i].pc.func), old(caches[i].pc.addr),
                                             old(caches[i].pc.way), granted)
    {
      hide Snoop, FoundIn, Broadcast;
      ghost var s := View();
      assert s[i] == caches[i].View();
      var func, addr, way := caches[i].pc.func, caches[i].pc.addr, caches[i].pc.way;
      Refresh(i, way, caches[i].cachelines[way]);
      if func.Read? {
        GoTo(i, Reading(addr, way));
      } else {
        ClaimIgnoresOwn(s, i, View()[i], addr, way, false, granted);
        Claim(i, addr, way, false, granted);
      }
    }

    method EndRead(i: nat, addr: nat, way: nat)
      requires Valid() && i < |caches| && way < CACHE_SIZE
      modifies caches
      ensures Valid() && View() == old(View())[i := Moesi.EndRead(old(View())[i], addr, way)]
    {
      assert View()[i] == caches[i].View();
      GoTo(i, if caches[i].cachelines[way].state.Invalid? then Looking(Read, addr) else Idle);
    }

    method Retry(i: nat, addr: nat, way: nat, filled: bool, granted: bool)
      requires Valid() && Formed(View()) && i < |caches| && caches[i].pc == Refused(addr, way, filled)
      modifies caches, Arrays()
      ensures Valid() && View() == Apply(old(View()), Acts(i, granted))
    {
      assert View()[i] == caches[i].View();
      if caches[i].cachelines[way].state.Invalid? {
        GoTo(i, if filled then Filling(Write, addr, way) else Looking(Write, addr));
      } else {
        Claim(i, addr, way, filled, granted);
      }
    }

    method Claim(i: nat, addr: nat, way: nat, filled: bool, granted: bool)
      requires Valid() && Formed(View()) && i < |caches| && way < CACHE_SIZE
      modifies caches, Arrays()
      ensures Valid() && View() == Moesi.Claim(old(View()), i, old(View())[i], addr, way, filled, granted)
    {
      hide Snoop, FoundIn;
      if granted {
        Tenure(i, Invalidate, addr);
        ChangeState(i, way, Modified);
        GoTo(i, Idle);
      } else {
        GoTo(i, Refused(addr, way, filled));
      }
    }

    method Evict(i: nat, func: Func, addr: nat, way: nat, granted: bool)
      requires Valid() && Formed(View()) && i < |caches| && way < CACHE_SIZE
      modifies caches, Arrays()
      ensures Valid() && View() == Moesi.Evict(old(View()), i, func, addr, way, granted)
    {
      assert View()[i] == caches[i].View();
      var victim := caches[i].cachelines[way];
      if !Dirty(victim) {
        GoTo(i, Filling(func, addr, way));
      } else if granted {
        Tenure(i, Invalidate, WriteBackAddress(victim.tag, addr));
        GoTo(i, Filling(func, addr, way));
      } else {
        GoTo(i, WriteRefused(func, addr, way));
      }
    }

    method Fill(i: nat, func: Func, addr: nat, way: nat)
      requires Valid() && Formed(View()) && i < |caches| && way < CACHE_SIZE
      modifies caches, Arrays()
      ensures Valid()
      ensures View() == Broadcast(old(View()), i,
              Moesi.Fill(old(View())[i], func, addr, way, Answered(old(View()), i, addr)),
                                  Fetch, addr / 32 * 32)
    {
      hide Answered, Snoop, FoundIn;
      var answered := AnyAnswer(i, addr);
      Tenure(i, Fetch, addr / 32 * 32);
      var state := if answered then Shared else if func.Write? then Modified else Exclusive;
      Refresh(i, way, Line(MAX_COUNTER, state, Tag(addr)));
      GoTo(i, if func.Write? && answered then Claiming(addr, way) else Idle);
    }

    method AnyAnswer(i: nat, addr: nat) returns (answered: bool)
      requires Valid() && Formed(View()) && i < |caches|
      ensures answered <==> Answered(View(), i, addr)
    {
      ghost var s := View();
      answered := false;
      var d := 0;
      while d < |caches|
        invariant 0 <= d <= |caches|
        invariant answered <==> exists e :: 0 <= e < d && e != i && FoundIn(s[e], addr) > -1
      {
        if d != i {
          var found := caches[d].Answers(addr);
          assert found <==> FoundIn(s[d], addr) > -1;
          answered := answered || found;
        }
        d := d + 1;
      }
    }
  }

  // A claim takes nothing from the old state of the cache that makes it
  lemma ClaimIgnoresOwn(s: System, i: nat, c: Core, addr: nat, way: nat, filled: bool, granted: bool)
    requires Formed(s) && i < |s| && Formed(s[i := c]) && Sized(c) && way < CACHE_SIZE
    ensures Moesi.Claim(s[i := c], i, c, addr, way, filled, granted) == Moesi.Claim(s, i, c, addr, way, filled, granted)
  {
  }
}
