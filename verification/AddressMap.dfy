/** The address map of the AT interconnect. Addresses are 64 bits wide, target numbers 32. */
module AddressMap {

  const UNSIGNED: nat := 0x1_0000_0000

  // Target numbers from here on lose bits when they are shifted into an address
  const SHIFTED: nat := 0x100_0000

  datatype Place = Place(masked: nat, target: nat)

  // The low eight bits are for the target; the bits above give its number, wrapping around
  function Decode(address: nat, targets: nat): Place
    requires targets > 0
  {
    Place(address % 256, address / 256 % UNSIGNED % targets)
  }

  // On addresses within a target the or of the two is their sum
  function Reconstruct(address: nat, target: nat): nat
    requires address < 256
  {
    address + target * 256 % UNSIGNED
  }

  // Decoding undoes reconstructing exactly for the targets whose number fits when shifted, and reconstructing
  // undoes decoding exactly on the addresses that neither wrap around nor need more bits than fit
  lemma RoundTripIff(address: nat, target: nat, targets: nat, any: nat)
    requires address < 256 && target < targets <= UNSIGNED
    ensures Decode(Reconstruct(address, target), targets) == Place(address, target) <==> target < SHIFTED
    ensures var p := Decode(any, targets);
            Reconstruct(p.masked, p.target) == any <==> any / 256 < targets && any / 256 < SHIFTED
  {
    Shift(target);
    assert Reconstruct(address, target) / 256 == target % SHIFTED;
    RedoneIff(target, targets);
    UndoneIff(any / 256, targets);
  }

  lemma RedoneIff(target: nat, targets: nat)
    requires target < targets <= UNSIGNED
    ensures target % SHIFTED % UNSIGNED % targets == target <==> target < SHIFTED
  {
    Least(target, SHIFTED);
    Small(target % SHIFTED, UNSIGNED);
    Small(target % SHIFTED, targets);
    if target < SHIFTED { Small(target, SHIFTED); }
  }

  lemma UndoneIff(q: nat, targets: nat)
    requires 0 < targets <= UNSIGNED
    ensures q % UNSIGNED % targets * 256 % UNSIGNED == q * 256 <==> q < targets && q < SHIFTED
  {
    var t := q % UNSIGNED % targets;
    Least(q, UNSIGNED);
    Least(q % UNSIGNED, targets);
    Least(t, SHIFTED);
    Shift(t);
    if q < targets && q < SHIFTED {
      Small(q, UNSIGNED);
      Small(q, targets);
      Small(q, SHIFTED);
    }
  }

  // A shift by eight bits keeps the low 24
  lemma Shift(n: nat)
    ensures n * 256 % UNSIGNED == n % SHIFTED * 256 && n % SHIFTED <= n
  {
  }

  lemma Least(n: nat, m: nat)
    requires m > 0
    ensures n % m <= n && n % m < m
  {
  }

  lemma Small(n: nat, m: nat)
    requires n < m
    ensures n % m == n
  {
  }
}
