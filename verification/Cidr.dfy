/** ParseIPRange of internal/core/ip_range.go on entries whose text netip has already parsed. */
module Cidr {
  import opened Net

  function Pow2(n: nat): (p: nat)
    ensures p > 0
  {
    if n == 0 then 1 else 2 * Pow2(n - 1)
  }

  lemma {:induction false} Pow2Add(m: nat, n: nat)
    ensures Pow2(m + n) == Pow2(m) * Pow2(n)
  {
    if m > 0 {
      Pow2Add(m - 1, n);
      DoubledFirst(Pow2(m - 1), Pow2(n));
      assert Pow2(m + n) == 2 * Pow2(m - 1 + n) && Pow2(m) == 2 * Pow2(m - 1);
    }
  }

  lemma DoubledFirst(x: int, y: int)
    ensures (2 * x) * y == 2 * (x * y)
  {
  }

  lemma SmallPowers()
    ensures Pow2(0) == 1 && Pow2(1) == 2 && Pow2(2) == 4 && Pow2(3) == 8 && Pow2(4) == 16
    ensures Pow2(5) == 32 && Pow2(6) == 64 && Pow2(7) == 128 && Pow2(8) == 256
  {
    assert Pow2(2) == 2 * Pow2(1) && Pow2(4) == 2 * Pow2(3) && Pow2(6) == 2 * Pow2(5) && Pow2(8) == 2 * Pow2(7);
  }

  /** Each family's address space has 2^BitLen addresses. */
  lemma SpaceSize(f: Family)
    ensures Pow2(BitLen(f)) == Top(f) + 1
  {
    hide Pow2;
    SmallPowers();
    Pow2Add(8, 8);
    Pow2Add(16, 16);
    Pow2Add(32, 32);
    Pow2Add(64, 64);
  }

  lemma MultipleBounds(c: nat, k: int)
    ensures k >= 1 ==> c * k >= c
    ensures k <= -1 ==> c * k <= -(c as int)
    ensures k >= 0 ==> c * k >= 0
  {
  }

  /** Division with remainder is unique. */
  lemma DivModUnique(a: int, c: nat, d: int, r: nat)
    requires r < c && a == c * d + r
    ensures a / c == d && a % c == r
  {
    var e := a / c;
    assert a == c * e + a % c;
    assert c * (d - e) == a % c - r;
    MultipleBounds(c, d - e);
  }

  // ---------- bytes ----------

  /** AsSlice: the n low bytes of v, most significant first. */
  function Bytes(v: nat, n: nat): (s: seq<nat>)
    ensures |s| == n
    ensures forall k :: 0 <= k < n ==> s[k] < 256
  {
    if n == 0 then [] else Bytes(v / 256, n - 1) + [v % 256]
  }

  /** AddrFromSlice, as a number. */
  function BigEndian(s: seq<nat>): nat {
    if s == [] then 0 else BigEndian(s[..|s| - 1]) * 256 + s[|s| - 1]
  }

  /** Bitwise or. */
  function Or(a: nat, b: nat): nat {
    if a == 0 && b == 0 then 0
    else (if a % 2 == 1 || b % 2 == 1 then 1 else 0) + 2 * Or(a / 2, b / 2)
  }

  /** Sets the h lowest bits of a big-endian byte string, whole bytes first. */
  function FillLow(s: seq<nat>, h: nat): (t: seq<nat>)
    ensures |t| == |s|
    decreases |s|
  {
    if h == 0 || s == [] then s
    else if h >= 8 then FillLow(s[..|s| - 1], h - 8) + [255]
    else s[..|s| - 1] + [Or(s[|s| - 1], 255 / Pow2(8 - h))]
  }

  lemma {:induction false} OrIsSum(a: nat, k: nat)
    requires a % Pow2(k) == 0
    ensures Or(a, Pow2(k) - 1) == a + Pow2(k) - 1
  {
    if k == 0 {
      OrZero(a);
    } else {
      var p := Pow2(k - 1);
      DivModPow(a, k);
      OrIsSum(a / 2, k - 1);
      assert (Pow2(k) - 1) / 2 == p - 1 && (Pow2(k) - 1) % 2 == 1;
    }
  }

  lemma {:induction false} OrZero(a: nat)
    ensures Or(a, 0) == a
  {
    if a > 0 { OrZero(a / 2); }
  }

  lemma DivModPow(a: nat, k: nat)
    requires k > 0 && a % Pow2(k) == 0
    ensures a % 2 == 0 && (a / 2) % Pow2(k - 1) == 0
  {
    MultipleSplits(a, 2, Pow2(k - 1));
  }

  /** A multiple of c * p is a multiple of c whose quotient is a multiple of p. */
  lemma MultipleSplits(a: nat, c: nat, p: nat)
    requires c > 0 && p > 0 && a % (c * p) == 0
    ensures a % c == 0 && (a / c) % p == 0 && a == c * (a / c)
  {
    var q := a / (c * p);
    assert a == (c * p) * q;
    assert (c * p) * q == c * (p * q);
    DivModUnique(a, c, p * q, 0);
    DivModUnique(p * q, p, q, 0);
  }

  lemma LowMask(h: nat)
    requires 0 < h < 8
    ensures 255 / Pow2(8 - h) == Pow2(h) - 1
  {
    hide Pow2;
    SmallPowers();
    match h
    case 1 => case 2 => case 3 => case 4 => case 5 => case 6 => case _ =>
  }

  /** Filling the h low bits of a multiple of 2^h adds 2^h - 1 to it. */
  lemma {:induction false} FillLowValue(v: nat, n: nat, h: nat)
    requires h <= 8 * n && v % Pow2(h) == 0 && BigEndian(Bytes(v, n)) == v
    ensures BigEndian(FillLow(Bytes(v, n), h)) == v + Pow2(h) - 1
  {
    hide Pow2, Or;
    SmallPowers();
    if h >= 8 {
      BytesSplit(v, n);
      Pow2Add(8, h - 8);
      MultipleSplits(v, 256, Pow2(h - 8));
      FillLowValue(v / 256, n - 1, h - 8);
      BigEndianAppend(FillLow(Bytes(v / 256, n - 1), h - 8), 255);
    } else if h > 0 {
      FillPartValue(v, n, h);
    }
  }

  lemma FillPartValue(v: nat, n: nat, h: nat)
    requires 0 < h < 8 && n > 0 && v % Pow2(h) == 0 && BigEndian(Bytes(v, n)) == v
    ensures BigEndian(FillLow(Bytes(v, n), h)) == v + Pow2(h) - 1
  {
    hide Pow2, Or;
    BytesSplit(v, n);
    LowMask(h);
    LowByte(v, h);
    OrIsSum(v % 256, h);
    BigEndianAppend(Bytes(v / 256, n - 1), v % 256 + Pow2(h) - 1);
  }

  lemma BytesSplit(v: nat, n: nat)
    requires n > 0 && BigEndian(Bytes(v, n)) == v
    ensures Bytes(v, n)[..n - 1] == Bytes(v / 256, n - 1) && Bytes(v, n)[n - 1] == v % 256
    ensures BigEndian(Bytes(v / 256, n - 1)) == v / 256
  {
    assert Bytes(v, n)[..n - 1] == Bytes(v / 256, n - 1);
  }

  lemma BigEndianAppend(s: seq<nat>, b: nat)
    ensures BigEndian(s + [b]) == BigEndian(s) * 256 + b
  {
    assert (s + [b])[..|s|] == s;
  }

  lemma LowByte(v: nat, h: nat)
    requires h <= 8 && v % Pow2(h) == 0
    ensures (v % 256) % Pow2(h) == 0 && v % 256 + Pow2(h) - 1 < 256
  {
    hide Pow2;
    SmallPowers();
    Pow2Add(h, 8 - h);
    LowPart(v, Pow2(h), Pow2(8 - h));
  }

  /** The low digit of a multiple of p, in a base that is a multiple of p. */
  lemma LowPart(v: nat, p: nat, q: nat)
    requires p > 0 && q > 0 && p * q == 256 && v % p == 0
    ensures (v % 256) % p == 0 && v % 256 + p - 1 < 256
  {
    var e := v / p;
    var d, r := e / q, e % q;
    MultipleSplits(v, p, 1);
    LowPartSum(v, p, q, e, d, r);
    DivModUnique(v, 256, d, p * r);
    DivModUnique(p * r, p, r, 0);
  }

  lemma LowPartSum(v: nat, p: nat, q: nat, e: nat, d: nat, r: nat)
    requires p > 0 && p * q == 256 && v == p * e && e == q * d + r && r < q
    ensures v == 256 * d + p * r && 0 <= p * r && p * r + p <= 256
  {
    assert p * (q * d) == (p * q) * d;
    assert p * (q * d + r) == p * (q * d) + p * r;
    MultipleBounds(p, r);
    MultipleBounds(p, q - 1 - r);
    assert p * (q - 1 - r) == p * q - p - p * r;
  }

  lemma {:induction false} BytesRoundTrip(v: nat, n: nat)
    requires v < Pow2(8 * n)
    ensures BigEndian(Bytes(v, n)) == v
  {
    if n > 0 {
      Pow2Add(8, 8 * (n - 1));
      assert Pow2(8) == 256;
      BytesRoundTrip(v / 256, n - 1);
      assert Bytes(v, n)[..n - 1] == Bytes(v / 256, n - 1);
    }
  }

  // ---------- entries ----------

  /** An entry of a pool's address list after its text was split and parsed. */
  datatype Entry = Span(start: Addr, end: Addr) | Prefix(addr: Addr, bits: nat) | Single(ip: Addr) | Malformed

  /** What netip's parsers return. */
  predicate IsParsed(e: Entry) {
    match e
    case Span(start, end) => IsValid(start) && IsValid(end)
    case Prefix(addr, bits) => IsValid(addr) && bits <= BitLen(addr.family)
    case Single(ip) => IsValid(ip)
    case Malformed => true
  }

  /** v rounded down to a multiple of p. */
  function RoundDown(v: nat, p: nat): (r: nat)
    requires p > 0
    ensures r == p * (v / p)
  {
    v - v % p
  }

  type ParsedEntry = e: Entry | IsParsed(e) witness Malformed

  /** The first address of a prefix: prefix.Masked().Addr(). */
  function Masked(v: nat, h: nat): nat {
    RoundDown(v, Pow2(h))
  }

  /** The range an entry stands for; None is an error. */
  function RangeOf(e: ParsedEntry, excludeEdges: bool): (r: Option<IPRange>) {
    match e
    case Span(start, end) => NewIPRange(start, end)
    case Single(ip) => Some(IPRange(ip, ip))
    case Malformed => None
    case Prefix(addr, bits) =>
      var h := BitLen(addr.family) - bits;
      var lo := Masked(addr.value, h);
      var hi := lo + Pow2(h) - 1;
      if !excludeEdges then Some(IPRange(Addr(addr.family, lo), Addr(addr.family, hi)))
      else if h <= 1 then None
      else Some(IPRange(Addr(addr.family, lo + 1), Addr(addr.family, hi - 1)))
  }

  lemma PrefixFits(addr: Addr, h: nat)
    requires IsValid(addr) && h <= BitLen(addr.family)
    ensures Masked(addr.value, h) % Pow2(h) == 0
    ensures Masked(addr.value, h) + Pow2(h) - 1 <= Top(addr.family)
  {
    hide Pow2;
    SpaceSize(addr.family);
    Pow2Add(h, BitLen(addr.family) - h);
    BlockFits(addr.value, Pow2(h), Pow2(BitLen(addr.family) - h));
  }

  /** The block of p numbers around v stays within p * q. */
  lemma BlockFits(v: nat, p: nat, q: nat)
    requires p > 0 && v < p * q
    ensures (p * (v / p)) % p == 0 && p * (v / p) + p <= p * q
  {
    var d := v / p;
    assert p * d <= v;
    DivModUnique(p * d, p, d, 0);
    assert p * (d + 1) == p * d + p;
    assert p * (q - d) == p * q - p * d;
    MultipleBounds(p, q - d);
    MultipleBounds(p, q - d - 1);
  }

  /** x lies in the block of p numbers around v iff both have the same quotient. */
  lemma BlockMeaning(v: nat, p: nat, x: nat)
    requires p > 0
    ensures p * (v / p) <= x < p * (v / p) + p <==> x / p == v / p
  {
    var d := v / p;
    if p * d <= x < p * d + p { DivModUnique(x, p, d, x - p * d); }
    assert x == p * (x / p) + x % p;
  }

  lemma RangeOfWellFormed(e: ParsedEntry, excludeEdges: bool)
    requires RangeOf(e, excludeEdges).Some?
    ensures var r := RangeOf(e, excludeEdges).value; r.start.Addr? && WellFormed(r.start.family, r)
  {
    if e.Prefix? {
      var h := BitLen(e.addr.family) - e.bits;
      PrefixFits(e.addr, h);
      EdgesLeftOver(h);
    }
  }

  /** A prefix stands for the 2^h addresses that agree with it on the bits above the host bits. Without
      its edges it loses the first and the last one, and is refused when nothing is left. */
  lemma PrefixMeaning(addr: Addr, bits: nat, x: nat)
    requires IsValid(addr) && bits <= BitLen(addr.family)
    ensures var h := BitLen(addr.family) - bits;
            var whole, inner := RangeOf(Prefix(addr, bits), false), RangeOf(Prefix(addr, bits), true);
            && whole.Some? && RangeCount(whole.value) == Pow2(h)
            && (Inside(whole.value, x) <==> x / Pow2(h) == addr.value / Pow2(h))
            && (inner.None? <==> h <= 1)
            && (inner.Some? ==> RangeCount(inner.value) == Pow2(h) - 2)
            && (inner.Some? ==> (Inside(inner.value, x) <==>
                  Inside(whole.value, x) && x != Lo(whole.value) && x != Hi(whole.value)))
  {
    hide Pow2;
    var h := BitLen(addr.family) - bits;
    BlockMeaning(addr.value, Pow2(h), x);
    PrefixFits(addr, h);
    EdgesLeftOver(h);
  }

  lemma EdgesLeftOver(h: nat)
    ensures h > 1 ==> Pow2(h) >= 4
    ensures h <= 1 ==> Pow2(h) <= 2
  {
    if h > 1 { assert Pow2(h) == 2 * Pow2(h - 1) && Pow2(h - 1) == 2 * Pow2(h - 2); }
  }

  method ParseIPRange(e: ParsedEntry, excludeEdges: bool) returns (r: Option<IPRange>)
    ensures r == RangeOf(e, excludeEdges)
  {
    match e {
      case Malformed => return None;
      case Span(start, end) => return NewIPRange(start, end);
      case Single(ip) => return NewIPRange(ip, ip);
      case Prefix(addr, bits) =>
        r := ParsePrefix(addr, bits, excludeEdges);
    }
  }

  method ParsePrefix(addr: Addr, bits: nat, excludeEdges: bool) returns (r: Option<IPRange>)
    requires IsValid(addr) && bits <= BitLen(addr.family)
    ensures r == RangeOf(Prefix(addr, bits), excludeEdges)
  {
    hide Pow2, Masked, Bytes, BigEndian, FillLow;
    var f, h := addr.family, BitLen(addr.family) - bits;
    var start := Addr(f, Masked(addr.value, h));
    var bytes := Bytes(start.value, BitLen(f) / 8);
    var endS := new nat[BitLen(f) / 8](k requires 0 <= k < |bytes| => bytes[k]);
    assert endS[..] == bytes;
    FillLowBits(endS, h);
    EndAddress(addr, h);
    var end := Addr(f, BigEndian(endS[..]));
    if excludeEdges {
      EdgesLeftOver(h);
      start := Next(start);
      end := Prev(end);
      if !IsValid(start) || !IsValid(end) || Less(end, start) {
        return None;
      }
    }
    return NewIPRange(start, end);
  }

  /** The filled bytes read back as the last address of the prefix. */
  lemma EndAddress(addr: Addr, h: nat)
    requires IsValid(addr) && h <= BitLen(addr.family)
    ensures var start, n := Masked(addr.value, h), BitLen(addr.family) / 8;
            && BigEndian(FillLow(Bytes(start, n), h)) == start + Pow2(h) - 1
            && start + Pow2(h) - 1 <= Top(addr.family)
  {
    hide Pow2, Masked, Bytes, BigEndian, FillLow;
    var start, n := Masked(addr.value, h), BitLen(addr.family) / 8;
    PrefixFits(addr, h);
    SpaceSize(addr.family);
    BytesRoundTrip(start, n);
    FillLowValue(start, n, h);
  }

  lemma FillLowWhole(front: seq<nat>, b: nat, rest: seq<nat>, h: nat)
    requires h >= 8
    ensures FillLow(front + [b], h) + rest == FillLow(front, h - 8) + ([255] + rest)
  {
    assert (front + [b])[..|front|] == front;
  }

  lemma FillLowPart(front: seq<nat>, b: nat, rest: seq<nat>, h: nat)
    requires 0 < h < 8
    ensures FillLow(front + [b], h) + rest == FillLow(front + [Or(b, 255 / Pow2(8 - h))], 0) + rest
  {
    assert (front + [b])[..|front|] == front;
  }

  /** The loop that turns the masked start address into the end address, in place. */
  method FillLowBits(endS: array<nat>, hostBits: nat)
    modifies endS
    ensures endS[..] == FillLow(old(endS[..]), hostBits)
  {
    hide FillLow, Pow2, Or;
    var count := hostBits;
    var j := endS.Length - 1;
    assert endS[..j + 1] == endS[..];
    while count > 0 && j >= 0
      invariant -1 <= j < endS.Length && 0 <= count
      invariant FillLow(endS[..j + 1], count) + endS[j + 1..] == FillLow(old(endS[..]), hostBits)
      decreases count
    {
      ghost var front, b, rest := endS[..j], endS[j], endS[j + 1..];
      assert endS[..j + 1] == front + [b];
      if count >= 8 {
        FillLowWhole(front, b, rest, count);
        endS[j] := 0xff;
        j := j - 1;
        count := count - 8;
        assert endS[j + 1..] == [255] + rest && endS[..j + 1] == front;
      } else {
        FillLowPart(front, b, rest, count);
        var offset := 0xff / Pow2(8 - count);
        endS[j] := Or(endS[j], offset);
        count := 0;
        assert endS[..j + 1] == front + [Or(b, offset)] && endS[j + 1..] == rest;
      }
    }
    FillLowDone(endS[..j + 1], count);
    assert endS[..] == endS[..j + 1] + endS[j + 1..];
  }

  lemma FillLowDone(s: seq<nat>, h: nat)
    ensures h == 0 || s == [] ==> FillLow(s, h) == s
  {
  }
}
