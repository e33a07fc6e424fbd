/** The lines of one set-associative cache: addresses, lookup, ageing and the choice of a victim. */
module CacheLines {

  const CACHE_SIZE: nat := 8192
  const SET_SIZE: nat := 8
  const MAX_COUNTER: int := 2049

  datatype State = Invalid | Modified | Owned | Exclusive | Shared

  datatype Line = Line(counter: int, state: State, tag: nat)

  // ---------- Addresses ----------

  // An address is its 32-bit pattern; masks and shifts are written as remainders and quotients.
  // Bits 5 to 11 choose the set, bits 12 to 31 are the tag.
  function Index(addr: nat): nat {
    (addr / 32 % 128 * SET_SIZE) % CACHE_SIZE
  }

  function Tag(addr: nat): nat { addr / 4096 }

  // The address that a victim is written back to; addr is the one that misses
  function WriteBackAddress(tag: nat, addr: nat): nat {
    tag * 4096 + addr % 4096 / 32 * 32
  }

  lemma IndexIs(addr: nat)
    ensures Index(addr) == addr / 32 % 128 * SET_SIZE <= 1016
  {
  }

  // Only the first 1024 of the 8192 lines can ever be used
  lemma SetsAreInBounds(a: nat, b: nat)
    ensures Index(a) + SET_SIZE <= 1024 <= CACHE_SIZE && Index(a) % SET_SIZE == 0
    ensures Index(a) != Index(b) ==> Index(a) + SET_SIZE <= Index(b) || Index(b) + SET_SIZE <= Index(a)
  {
    IndexIs(a);
    IndexIs(b);
  }

  // Set and tag together tell the 32-byte line, and nothing finer
  lemma PlaceIsInjective(a: nat, b: nat)
    ensures Index(a) == Index(b) && Tag(a) == Tag(b) <==> a / 32 == b / 32
  {
    IndexIs(a);
    IndexIs(b);
    LineOf(a);
    LineOf(b);
  }

  lemma LineOf(a: nat)
    ensures a / 32 == Tag(a) * 128 + a / 32 % 128
  {
    assert a / 32 / 128 == a / 4096;
  }

  // A victim in the set of addr is written back to its own line
  lemma WriteBackIsExact(tag: nat, addr: nat)
    ensures var wb := WriteBackAddress(tag, addr); Index(wb) == Index(addr) && Tag(wb) == tag && wb % 32 == 0
  {
    var wb, n := WriteBackAddress(tag, addr), addr / 32 % 128;
    SetBits(addr);
    WholeLine(tag, n);
    IndexIs(wb);
    IndexIs(addr);
  }

  lemma SetBits(addr: nat)
    ensures addr % 4096 / 32 == addr / 32 % 128
  {
    LineOf(addr);
    assert addr == Tag(addr) * 4096 + addr % 4096;
  }

  lemma WholeLine(tag: nat, n: nat)
    requires n < 128
    ensures var wb := tag * 4096 + n * 32; wb / 32 % 128 == n && Tag(wb) == tag && wb % 32 == 0
  {
    assert tag * 4096 + n * 32 == (tag * 128 + n) * 32;
  }

  // ---------- Lookup ----------

  predicate Match(l: Line, tag: nat) { !l.state.Invalid? && l.tag == tag }

  // The last way from lo up to hi that holds the tag, or -1
  function Found(lines: seq<Line>, lo: nat, hi: nat, tag: nat): int
    requires lo <= hi <= |lines|
    decreases hi - lo
  {
    if hi == lo then -1
    else if Match(lines[hi - 1], tag) then hi - 1
    else Found(lines, lo, hi - 1, tag)
  }

  lemma {:induction false} FoundIsLast(lines: seq<Line>, lo: nat, hi: nat, tag: nat)
    requires lo <= hi <= |lines|
    ensures var r := Found(lines, lo, hi, tag);
            && (r == -1 || (lo <= r < hi && Match(lines[r], tag)))
            && (forall k :: lo <= k < hi && Match(lines[k], tag) ==> k <= r)
    decreases hi - lo
  {
    if hi > lo { FoundIsLast(lines, lo, hi - 1, tag); }
  }

  // ---------- The victim ----------

  datatype Choice = Choice(id: nat, val: int)

  function Choose(lines: seq<Line>, lo: nat, hi: nat, tag: nat): Choice
    requires lo <= hi <= |lines|
    decreases hi - lo
  {
    if hi == lo then Choice(lo, MAX_COUNTER + 2) else
    var c, l := Choose(lines, lo, hi - 1, tag), lines[hi - 1];
    if Match(l, tag) then c
    else if l.state.Invalid? then Choice(hi - 1, -1)
    else if l.counter < c.val then Choice(hi - 1, l.counter)
    else c
  }

  // The last invalid way if there is one, else the first of those with the smallest counter
  lemma {:induction false} ChooseIsOldest(lines: seq<Line>, lo: nat, hi: nat, tag: nat)
    requires lo < hi <= |lines|
    requires forall k :: lo <= k < hi ==> !Match(lines[k], tag) && 0 <= lines[k].counter <= MAX_COUNTER
    ensures var v := Choose(lines, lo, hi, tag).id;
            && lo <= v < hi
            && (if lines[v].state.Invalid? then forall k :: v < k < hi ==> !lines[k].state.Invalid?
                else forall k :: lo <= k < hi ==>
                       !lines[k].state.Invalid? && lines[v].counter <= lines[k].counter
                       && (k < v ==> lines[v].counter < lines[k].counter))
            && Choose(lines, lo, hi, tag).val == if lines[v].state.Invalid? then -1 else lines[v].counter
    decreases hi - lo
  {
    if hi - 1 > lo { ChooseIsOldest(lines, lo, hi - 1, tag); }
  }

  // ---------- Ageing ----------

  function Older(l: Line): Line {
    l.(counter := if l.counter - 1 < 0 then 0 else l.counter - 1)
  }

  // Every way from lo up to hi that does not hold the tag has aged
  function Aged(lines: seq<Line>, lo: nat, hi: nat, tag: nat): seq<Line>
    requires lo <= hi <= |lines|
  {
    seq(|lines|, k requires 0 <= k < |lines| =>
      if lo <= k < hi && !Match(lines[k], tag) then Older(lines[k]) else lines[k])
  }
}
