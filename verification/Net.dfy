/** Addresses and address ranges: the part of Go's net/netip that internal/core builds on. */
module Net {

  datatype Family = V4 | V6

  /** An address is a family and a number below 2^32 or 2^128. `NoAddr` is the zero netip.Addr. */
  datatype Addr = NoAddr | Addr(family: Family, value: nat)

  datatype Option<+T> = None | Some(value: T)

  function Lookup<K, V>(m: map<K, V>, k: K): Option<V> {
    if k in m then Some(m[k]) else None
  }

  lemma SameLookup<K(!new), V>(a: map<K, V>, b: map<K, V>)
    requires forall k :: Lookup(a, k) == Lookup(b, k)
    ensures a == b
  {
    forall k ensures k in a <==> k in b { assert Lookup(a, k) == Lookup(b, k); }
    forall k | k in a ensures a[k] == b[k] { assert Lookup(a, k) == Lookup(b, k); }
  }

  function BitLen(f: Family): (n: nat) {
    match f
    case V4 => 32
    case V6 => 128
  }

  /** The all-ones address of a family. */
  function Top(f: Family): (n: nat) {
    match f
    case V4 => 0xFFFF_FFFF
    case V6 => 0xFFFF_FFFF_FFFF_FFFF_FFFF_FFFF_FFFF_FFFF
  }

  predicate IsValid(a: Addr) {
    a.Addr? && a.value <= Top(a.family)
  }

  /** netip's order: first the bit length (0 for the zero value), then the number. */
  function Compare(a: Addr, b: Addr): int {
    if a.NoAddr? then (if b.NoAddr? then 0 else -1)
    else if b.NoAddr? then 1
    else if a.family != b.family then (if a.family == V4 then -1 else 1)
    else if a.value < b.value then -1 else if a.value == b.value then 0 else 1
  }

  predicate Less(a: Addr, b: Addr) {
    Compare(a, b) < 0
  }

  /** The successor, or the zero value above the all-ones address. */
  function Next(a: Addr): Addr {
    if a.Addr? && a.value < Top(a.family) then Addr(a.family, a.value + 1) else NoAddr
  }

  /** The predecessor, or the zero value below the all-zeros address. */
  function Prev(a: Addr): Addr {
    if a.Addr? && 0 < a.value then Addr(a.family, a.value - 1) else NoAddr
  }

  datatype IPRange = IPRange(start: Addr, end: Addr)

  function Val(a: Addr): int {
    if a.NoAddr? then -1 else a.value
  }

  function Lo(r: IPRange): int { Val(r.start) }

  function Hi(r: IPRange): int { Val(r.end) }

  /** The invariant of every range that NewIPRange lets through. */
  predicate WellFormed(f: Family, r: IPRange) {
    IsValid(r.start) && IsValid(r.end) && r.start.family == r.end.family == f && Lo(r) <= Hi(r)
  }

  predicate Inside(r: IPRange, x: int) {
    Lo(r) <= x <= Hi(r)
  }

  /** NewIPRange refuses mixed families and an end before the start. */
  function NewIPRange(start: Addr, end: Addr): (r: Option<IPRange>)
    requires IsValid(start) && IsValid(end)
    ensures r.Some? <==> WellFormed(start.family, IPRange(start, end))
    ensures r.Some? ==> r.value == IPRange(start, end)
  {
    if start.family != end.family then None
    else if Less(end, start) then None
    else Some(IPRange(start, end))
  }

  /** IPRange.Contains, comparing with the neighbours of the two ends. */
  predicate RangeContains(r: IPRange, a: Addr) {
    Less(Prev(r.start), a) && Less(a, Next(r.end))
  }

  /** Contains is interval membership, except that a range ending at the all-ones address contains
      nothing, and that a v6 range starting at :: also accepts every v4 address. */
  lemma RangeContainsExactly(f: Family, r: IPRange, a: Addr)
    requires WellFormed(f, r) && (a.NoAddr? || IsValid(a))
    ensures RangeContains(r, a) <==>
            && Hi(r) != Top(f)
            && a.Addr?
            && ((a.family == f && Inside(r, a.value)) || (f == V6 && a.family == V4 && Lo(r) == 0))
  {
  }

  function RangeCount(r: IPRange): int {
    Hi(r) - Lo(r) + 1
  }
}
