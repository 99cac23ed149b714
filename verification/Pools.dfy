/** IP pools: parsing an address list, the admission check, and the address counts of the status. */
module Pools {
  import opened Net
  import opened Ranges
  import opened Cidr
  import opened IPRangeSets

  /** One line of spec.addresses; a leading "!" makes it an exclusion. */
  datatype PoolEntry = PoolEntry(excluded: bool, entry: ParsedEntry)

  datatype PoolSpec = PoolSpec(addresses: seq<PoolEntry>, family: Family, autoAssign: bool, avoidBuggyIPs: bool,
                               advertise: bool, interfaceName: string)

  datatype Pool = Pool(name: string, spec: PoolSpec)

  // ---------- what an address list denotes ----------

  /** The range of an entry, if it parses and belongs to the pool's family. */
  function EntryRange(e: PoolEntry, f: Family, edges: bool): (r: Option<IPRange>)
    ensures r.Some? ==> WellFormed(f, r.value)
  {
    var r := RangeOf(e.entry, edges);
    if r.None? then None
    else
      RangeOfWellFormed(e.entry, edges);
      if r.value.start.family == f then r else None
  }

  function Gather(es: seq<PoolEntry>, f: Family, edges: bool, excluded: bool): (rs: seq<IPRange>)
    ensures AllWellFormed(f, rs)
  {
    if es == [] then []
    else
      var last := es[|es| - 1];
      var r := EntryRange(last, f, edges);
      Gather(es[..|es| - 1], f, edges, excluded) + if last.excluded == excluded && r.Some? then [r.value] else []
  }

  /** The ranges of an address list: everything included minus everything excluded, as Subtract does it. */
  function ParsedRanges(es: seq<PoolEntry>, f: Family, edges: bool): seq<IPRange> {
    Subtracted(Merged(Gather(es, f, edges, false)), Merged(Gather(es, f, edges, true)))
  }

  lemma ParsedNormal(es: seq<PoolEntry>, f: Family, edges: bool)
    ensures NormalForm(f, Merged(Gather(es, f, edges, false))) && NormalForm(f, Merged(Gather(es, f, edges, true)))
    ensures NormalForm(f, ParsedRanges(es, f, edges))
  {
    MergedCorrect(f, Gather(es, f, edges, false));
    MergedCorrect(f, Gather(es, f, edges, true));
    SubtractedNormal(f, Merged(Gather(es, f, edges, false)), Merged(Gather(es, f, edges, true)));
  }

  function PoolRanges(p: Pool): seq<IPRange> {
    ParsedRanges(p.spec.addresses, p.spec.family, p.spec.avoidBuggyIPs)
  }

  predicate EntryCovers(e: PoolEntry, f: Family, edges: bool, excluded: bool, x: int) {
    e.excluded == excluded && EntryRange(e, f, edges).Some? && Inside(EntryRange(e, f, edges).value, x)
  }

  /** What an entry stands for: a single address or a span of the family, and of a prefix the addresses that agree with it
      above the host bits (RFC 4632 section 3.1), without the all-zeros and all-ones ones of the block if the pool avoids
      those. An entry is refused exactly if nothing is left of it. */
  lemma EntryMeans(e: PoolEntry, f: Family, edges: bool, x: int)
    ensures EntryCovers(e, f, edges, e.excluded, x) <==>
            match e.entry
            case Malformed => false
            case Single(ip) => ip == Addr(f, ip.value) && x == ip.value
            case Span(start, end) => start == Addr(f, start.value) && end == Addr(f, end.value) && start.value <= x <= end.value
            case Prefix(addr, bits) =>
              var size := Pow2(BitLen(addr.family) - bits);
              && addr.family == f && x / size == addr.value / size
              && (edges ==> x % size != 0 && x % size != size - 1)
    ensures EntryRange(e, f, edges).Some? <==>
            match e.entry
            case Malformed => false
            case Single(ip) => ip.family == f
            case Span(start, end) => start.family == end.family == f && start.value <= end.value
            case Prefix(addr, bits) => addr.family == f && (edges ==> BitLen(f) - bits >= 2)
  {
    hide Pow2, Masked;
    match e.entry
    case Prefix(addr, bits) => PrefixCovers(addr, bits, edges, x);
    case _ =>
  }

  lemma PrefixCovers(addr: Addr, bits: nat, edges: bool, x: int)
    requires IsValid(addr) && bits <= BitLen(addr.family)
    ensures var r, size := RangeOf(Prefix(addr, bits), edges), Pow2(BitLen(addr.family) - bits);
            && (r.Some? ==> r.value.start.Addr? && r.value.start.family == addr.family)
            && (r.Some? <==> (edges ==> BitLen(addr.family) - bits >= 2))
            && (r.Some? && Inside(r.value, x) <==>
                  x / size == addr.value / size && (edges ==> x % size != 0 && x % size != size - 1))
  {
    hide Pow2, Masked;
    var h := BitLen(addr.family) - bits;
    EdgesLeftOver(h);
    BlockAround(addr.value, h, x);
  }

  /** The block of a masked address, and its inside. */
  lemma BlockAround(v: nat, h: nat, x: int)
    ensures var lo, size := Masked(v, h), Pow2(h);
            && (lo <= x < lo + size <==> x / size == v / size)
            && (lo < x < lo + size - 1 <==> x / size == v / size && x % size != 0 && x % size != size - 1)
  {
    hide Pow2;
    var size := Pow2(h);
    if x >= 0 {
      BlockMeaning(v, size, x);
      if x / size == v / size { SameBlock(v, size, x); }
    } else {
      NegativeQuotient(x, size);
    }
  }

  lemma SameBlock(v: nat, p: nat, x: nat)
    requires p > 0 && x / p == v / p
    ensures x - p * (v / p) == x % p
  {
  }

  lemma NegativeQuotient(x: int, p: nat)
    requires x < 0 < p
    ensures x / p < 0
  {
  }

  /** Some entry with the given sign covers x. */
  ghost predicate Listed(es: seq<PoolEntry>, f: Family, edges: bool, excluded: bool, x: int) {
    exists i :: 0 <= i < |es| && EntryCovers(es[i], f, edges, excluded, x)
  }

  lemma {:induction false} GatherDenotes(es: seq<PoolEntry>, f: Family, edges: bool, excluded: bool, x: int)
    ensures In(Gather(es, f, edges, excluded), x) <==> Listed(es, f, edges, excluded, x)
  {
    if es != [] {
      var n := |es| - 1;
      var tail := if es[n].excluded == excluded && EntryRange(es[n], f, edges).Some? then [EntryRange(es[n], f, edges).value] else [];
      GatherDenotes(es[..n], f, edges, excluded, x);
      InAppend(Gather(es[..n], f, edges, excluded), tail, x);
      assert In(tail, x) <==> EntryCovers(es[n], f, edges, excluded, x);
      ListedLast(es, f, edges, excluded, x);
    }
  }

  lemma ListedLast(es: seq<PoolEntry>, f: Family, edges: bool, excluded: bool, x: int)
    requires es != []
    ensures var n := |es| - 1;
            Listed(es, f, edges, excluded, x) <==>
            Listed(es[..n], f, edges, excluded, x) || EntryCovers(es[n], f, edges, excluded, x)
  {
    hide EntryCovers;
    var n := |es| - 1;
    if i :| 0 <= i < |es| && EntryCovers(es[i], f, edges, excluded, x) {
      assert i < n ==> es[..n][i] == es[i];
    }
  }

  /** Exactly the addresses of an address list: an excluded address is never in it; an included one is,
      unless excluded; and so is an unlisted one that lies in a gap of the inclusions above the end of
      an exclusion ending in the same gap. */
  lemma ParsedContains(es: seq<PoolEntry>, f: Family, edges: bool, x: int)
    ensures In(ParsedRanges(es, f, edges), x) <==>
            && !Listed(es, f, edges, true, x)
            && (|| Listed(es, f, edges, false, x)
                || ResurrectedAt(-1, Merged(Gather(es, f, edges, false)), Merged(Gather(es, f, edges, true)), x))
  {
    hide In, Subtracted, Merged, Gather, NormalForm;
    ParsedNormal(es, f, edges);
    SubtractContains(f, Merged(Gather(es, f, edges, false)), Merged(Gather(es, f, edges, true)), x);
    MergedListed(es, f, edges, x);
  }

  /** A pool is its inclusions without its exclusions exactly if every merged range of exclusions ends inside the
      inclusions, directly before one, or above all of them. */
  lemma ParsedIsDifferenceIff(es: seq<PoolEntry>, f: Family, edges: bool)
    ensures (forall x :: In(ParsedRanges(es, f, edges), x) <==> Listed(es, f, edges, false, x) && !Listed(es, f, edges, true, x)) <==>
            var cuts := Merged(Gather(es, f, edges, true));
            forall j :: 0 <= j < |cuts| ==> CleanCut(Merged(Gather(es, f, edges, false)), Hi(cuts[j]))
  {
    hide In, Subtracted, Merged, Gather, NormalForm, Listed, CleanCut;
    var rs1, rs2 := Merged(Gather(es, f, edges, false)), Merged(Gather(es, f, edges, true));
    ParsedNormal(es, f, edges);
    SubtractIsDifferenceIff(f, rs1, rs2);
    if IsDifference(Subtracted(rs1, rs2), rs1, rs2) {
      forall x ensures In(ParsedRanges(es, f, edges), x) <==> Listed(es, f, edges, false, x) && !Listed(es, f, edges, true, x) {
        MergedListed(es, f, edges, x);
      }
    } else {
      var x :| !(In(Subtracted(rs1, rs2), x) <==> In(rs1, x) && !In(rs2, x));
      MergedListed(es, f, edges, x);
    }
  }

  lemma MergedListed(es: seq<PoolEntry>, f: Family, edges: bool, x: int)
    ensures In(Merged(Gather(es, f, edges, false)), x) <==> Listed(es, f, edges, false, x)
    ensures In(Merged(Gather(es, f, edges, true)), x) <==> Listed(es, f, edges, true, x)
  {
    hide In, Merged, Gather, NormalForm, Listed;
    var rs1, rs2 := Gather(es, f, edges, false), Gather(es, f, edges, true);
    MergedCorrect(f, rs1);
    MergedCorrect(f, rs2);
    assert (In(Merged(rs1), x) <==> In(rs1, x)) && (In(Merged(rs2), x) <==> In(rs2, x));
    GatherDenotes(es, f, edges, false, x);
    GatherDenotes(es, f, edges, true, x);
  }

  lemma ExampleGathered(es: seq<PoolEntry>, r1: IPRange, r2: IPRange)
    requires es == [PoolEntry(false, Span(Addr(V4, 10), Addr(V4, 11))), PoolEntry(true, Span(Addr(V4, 0), Addr(V4, 4)))]
    requires r1 == IPRange(Addr(V4, 10), Addr(V4, 11)) && r2 == IPRange(Addr(V4, 0), Addr(V4, 4))
    ensures Gather(es, V4, false, false) == [r1] && Gather(es, V4, false, true) == [r2]
  {
    var front := es[..1];
    assert es[..2 - 1] == front && front[..1 - 1] == [];
    assert Gather(front, V4, false, false) == [r1] && Gather(front, V4, false, true) == [];
  }

  /** A pool is documented as its inclusions without its exclusions. But an exclusion that ends below
      an inclusion adds addresses: 10-11 with 0-4 excluded also holds 5. */
  lemma ExclusionAddsAddresses()
    ensures var es := [PoolEntry(false, Span(Addr(V4, 10), Addr(V4, 11))), PoolEntry(true, Span(Addr(V4, 0), Addr(V4, 4)))];
            In(ParsedRanges(es, V4, false), 5) && !Listed(es, V4, false, false, 5)
  {
    hide Gather, Merged, Subtracted, ParsedRanges;
    var es := [PoolEntry(false, Span(Addr(V4, 10), Addr(V4, 11))), PoolEntry(true, Span(Addr(V4, 0), Addr(V4, 4)))];
    var r1, r2 := IPRange(Addr(V4, 10), Addr(V4, 11)), IPRange(Addr(V4, 0), Addr(V4, 4));
    ExampleGathered(es, r1, r2);
    MergedNormalForm(V4, [r1]);
    MergedNormalForm(V4, [r2]);
    assert EndsInGap(-1, [r1], 0, Hi([r2][0]), 5);
    assert !EntryCovers(es[0], V4, false, false, 5) && !EntryCovers(es[1], V4, false, true, 5);
    ParsedContains(es, V4, false, 5);
  }

  method ParseIPPoolAddresses(addresses: seq<PoolEntry>, family: Family, excludeEdges: bool)
    returns (parsed: IPRangeSet, errors: seq<bool>)
    ensures fresh(parsed) && parsed.Valid()
    ensures parsed.ranges4 == if family == V4 then ParsedRanges(addresses, family, excludeEdges) else []
    ensures parsed.ranges6 == if family == V6 then ParsedRanges(addresses, family, excludeEdges) else []
    ensures |errors| == |addresses|
    ensures forall i :: 0 <= i < |addresses| ==> errors[i] == EntryRange(addresses[i], family, excludeEdges).None?
  {
    hide Gather, Subtracted, Merged, Insert, OfFamily, NormalForm, In;
    var ipRanges, ipRangesExcluded: seq<IPRange> := [], [];
    errors := seq(|addresses|, _ => false);
    GatherNone(family, excludeEdges);
    for i := 0 to |addresses|
      invariant |errors| == |addresses|
      invariant ipRanges == Gather(addresses[..i], family, excludeEdges, false)
      invariant ipRangesExcluded == Gather(addresses[..i], family, excludeEdges, true)
      invariant forall k :: 0 <= k < i ==> errors[k] == EntryRange(addresses[k], family, excludeEdges).None?
      invariant forall k :: i <= k < |addresses| ==> !errors[k]
    {
      GatherNext(addresses, i, family, excludeEdges, true);
      GatherNext(addresses, i, family, excludeEdges, false);
      var r := ParseIPRange(addresses[i].entry, excludeEdges);
      if r.None? {
        errors := errors[i := true];
        continue;
      }
      RangeOfWellFormed(addresses[i].entry, excludeEdges);
      if r.value.start.family != family {
        errors := errors[i := true];
        continue;
      }
      if addresses[i].excluded {
        ipRangesExcluded := ipRangesExcluded + [r.value];
      } else {
        ipRanges := ipRanges + [r.value];
      }
    }
    assert addresses[..|addresses|] == addresses;
    OfOneFamily(family, ipRanges);
    OfOneFamily(family, ipRangesExcluded);
    parsed := new IPRangeSet(ipRanges);
    parsed.Subtract(ipRangesExcluded);
    MergedEmpty();
    SubtractTrivial([], []);
  }

  lemma GatherNone(f: Family, edges: bool)
    ensures forall excluded :: Gather([], f, edges, excluded) == []
  {
  }

  lemma GatherNext(es: seq<PoolEntry>, i: nat, f: Family, edges: bool, excluded: bool)
    requires i < |es|
    ensures Gather(es[..i + 1], f, edges, excluded) == Gather(es[..i], f, edges, excluded) +
              if es[i].excluded == excluded && EntryRange(es[i], f, edges).Some? then [EntryRange(es[i], f, edges).value] else []
    ensures !(es[i].excluded == excluded && EntryRange(es[i], f, edges).Some?) ==>
              Gather(es[..i + 1], f, edges, excluded) == Gather(es[..i], f, edges, excluded)
  {
    assert es[..i + 1][..i] == es[..i];
  }

  lemma {:induction false} OfOneFamily(f: Family, rs: seq<IPRange>)
    requires AllWellFormed(f, rs)
    ensures forall r :: r in rs ==> IsRange(r)
    ensures forall g :: OfFamily(rs, g) == if g == f then rs else []
  {
    if rs != [] {
      OfOneFamily(f, rs[..|rs| - 1]);
      assert rs == rs[..|rs| - 1] + [rs[|rs| - 1]];
    }
  }

  // ---------- admission ----------

  ghost predicate DisjointPools(a: Pool, b: Pool) {
    a.spec.family == b.spec.family ==>
    forall x :: !(In(PoolRanges(a), x) && In(PoolRanges(b), x))
  }

  ghost predicate AllEntriesValid(p: Pool) {
    forall i :: 0 <= i < |p.spec.addresses| ==>
      EntryRange(p.spec.addresses[i], p.spec.family, p.spec.avoidBuggyIPs).Some?
  }

  ghost predicate NoOverlap(pools: seq<Pool>, p: Pool) {
    forall i :: 0 <= i < |pools| && pools[i].name != p.name ==> DisjointPools(p, pools[i])
  }

  /** What the webhook demands of a pool, given the pools that exist. */
  ghost predicate Admissible(pools: seq<Pool>, p: Pool) {
    AllEntriesValid(p) && NoOverlap(pools, p)
  }

  datatype FieldError = BadEntry(index: nat) | Overlap(pool: string)

  method Validate(pools: seq<Pool>, pool: Pool) returns (allErrs: seq<FieldError>)
    ensures allErrs == [] <==> Admissible(pools, pool)
  {
    hide ParsedRanges, EntryRange, In, NormalForm, Intersected, DisjointPools;
    allErrs := [];
    var mine, errs := ParseIPPoolAddresses(pool.spec.addresses, pool.spec.family, pool.spec.avoidBuggyIPs);
    for i := 0 to |errs|
      invariant allErrs == [] <==> forall k :: 0 <= k < i ==> !errs[k]
    {
      if errs[i] {
        allErrs := allErrs + [BadEntry(i)];
      }
    }
    assert allErrs == [] <==> AllEntriesValid(pool);
    for i := 0 to |pools|
      invariant mine.Valid()
      invariant mine.ranges4 == (if pool.spec.family == V4 then PoolRanges(pool) else [])
      invariant mine.ranges6 == (if pool.spec.family == V6 then PoolRanges(pool) else [])
      invariant allErrs == [] <==> AllEntriesValid(pool) && NoOverlap(pools[..i], pool)
    {
      var existing := pools[i];
      NoOverlapNext(pools, i, pool);
      if existing.name == pool.name {
        continue;
      }
      var theirs, _ := ParseIPPoolAddresses(existing.spec.addresses, existing.spec.family, existing.spec.avoidBuggyIPs);
      var both := mine.Intersections(theirs);
      SharedRanges(pool, existing, both.ranges4, both.ranges6);
      if |both.ranges4 + both.ranges6| > 0 {
        allErrs := allErrs + [Overlap(existing.name)];
      }
    }
    assert pools[..|pools|] == pools;
  }

  lemma NoOverlapNext(pools: seq<Pool>, i: nat, p: Pool)
    requires i < |pools|
    ensures NoOverlap(pools[..i + 1], p) <==>
            NoOverlap(pools[..i], p) && (pools[i].name != p.name ==> DisjointPools(p, pools[i]))
  {
    hide DisjointPools;
    if NoOverlap(pools[..i + 1], p) {
      assert pools[..i + 1][i] == pools[i];
      forall k | 0 <= k < i && pools[..i][k].name != p.name ensures DisjointPools(p, pools[..i][k]) {
        assert pools[..i + 1][k] == pools[..i][k];
      }
    }
  }

  /** The intersections computed per family are empty exactly when the pools share no address. */
  lemma SharedRanges(a: Pool, b: Pool, both4: seq<IPRange>, both6: seq<IPRange>)
    requires both4 == Intersected(if a.spec.family == V4 then PoolRanges(a) else [],
                                  if b.spec.family == V4 then PoolRanges(b) else [])
    requires both6 == Intersected(if a.spec.family == V6 then PoolRanges(a) else [],
                                  if b.spec.family == V6 then PoolRanges(b) else [])
    ensures |both4 + both6| == 0 <==> DisjointPools(a, b)
  {
    if a.spec.family == b.spec.family {
      hide ParsedRanges;
      var f, ra, rb := a.spec.family, PoolRanges(a), PoolRanges(b);
      ParsedNormal(a.spec.addresses, f, a.spec.avoidBuggyIPs);
      ParsedNormal(b.spec.addresses, f, b.spec.avoidBuggyIPs);
      IntersectionExact(f, ra, rb);
      var both := Intersected(ra, rb);
      if both != [] {
        assert In(both, Lo(both[0]));
      } else {
        assert forall x :: !In(both, x);
      }
    }
  }

  // ---------- runs of admitted changes ----------

  datatype PoolOp = Create(pool: Pool) | Update(pool: Pool) | Delete(name: string)

  ghost predicate UniqueNames(pools: seq<Pool>) {
    forall i, j :: 0 <= i < j < |pools| ==> pools[i].name != pools[j].name
  }

  ghost predicate PairwiseDisjoint(pools: seq<Pool>) {
    forall i, j :: 0 <= i < j < |pools| ==> DisjointPools(pools[i], pools[j])
  }

  predicate HasName(pools: seq<Pool>, name: string) {
    exists i :: 0 <= i < |pools| && pools[i].name == name
  }

  /** Serialised changes: the API server creates only new names and updates only existing ones, and the
      webhook admits or refuses creates and updates. */
  ghost predicate PoolStep(before: seq<Pool>, op: PoolOp, after: seq<Pool>) {
    match op
    case Create(p) =>
      if !HasName(before, p.name) && Admissible(before, p) then
        exists k :: 0 <= k <= |before| && after == before[..k] + [p] + before[k..]
      else after == before
    case Update(p) =>
      if HasName(before, p.name) && Admissible(before, p) then
        exists k :: 0 <= k < |before| && before[k].name == p.name && after == before[k := p]
      else after == before
    case Delete(name) =>
      if HasName(before, name) then
        exists k :: 0 <= k < |before| && before[k].name == name && after == before[..k] + before[k + 1..]
      else after == before
  }

  ghost predicate PoolRun(states: seq<seq<Pool>>, ops: seq<PoolOp>) {
    && |states| == |ops| + 1
    && states[0] == []
    && forall n :: 0 <= n < |ops| ==> PoolStep(states[n], ops[n], states[n + 1])
  }

  lemma DisjointSymmetric(a: Pool, b: Pool)
    requires DisjointPools(a, b)
    ensures DisjointPools(b, a)
  {
  }

  lemma PoolStepKeepsDisjoint(before: seq<Pool>, op: PoolOp, after: seq<Pool>)
    requires PoolStep(before, op, after) && UniqueNames(before) && PairwiseDisjoint(before)
    ensures UniqueNames(after) && PairwiseDisjoint(after)
  {
    hide DisjointPools, AllEntriesValid;
    if after != before {
      match op
      case Create(p) =>
        BothWays(before, p);
        forall i, j | 0 <= i < j < |after| ensures after[i].name != after[j].name && DisjointPools(after[i], after[j]) {
        }
      case Update(p) =>
        BothWays(before, p);
        forall i, j | 0 <= i < j < |after| ensures after[i].name != after[j].name && DisjointPools(after[i], after[j]) {
        }
      case Delete(_) =>
        forall i, j | 0 <= i < j < |after| ensures after[i].name != after[j].name && DisjointPools(after[i], after[j]) {
        }
    }
  }

  lemma BothWays(pools: seq<Pool>, p: Pool)
    requires NoOverlap(pools, p)
    ensures forall i :: 0 <= i < |pools| && pools[i].name != p.name ==>
              DisjointPools(p, pools[i]) && DisjointPools(pools[i], p)
  {
    forall i | 0 <= i < |pools| && pools[i].name != p.name ensures DisjointPools(pools[i], p) {
      DisjointSymmetric(p, pools[i]);
    }
  }

  /** From no pools, every run of admitted creates, admitted updates and deletes keeps the pools disjoint. */
  lemma {:induction false} PoolsStayDisjoint(states: seq<seq<Pool>>, ops: seq<PoolOp>)
    requires PoolRun(states, ops)
    ensures UniqueNames(states[|ops|]) && PairwiseDisjoint(states[|ops|])
  {
    if |ops| > 0 {
      var n := |ops| - 1;
      PoolsStayDisjoint(states[..n + 1], ops[..n]);
      PoolStepKeepsDisjoint(states[n], ops[n], states[n + 1]);
    }
  }

  // ---------- finding the pool of an address ----------

  /** IPRangeSet.Contains on a parsed pool. */
  ghost predicate PoolHolds(p: Pool, a: Addr) {
    a.Addr? && a.family == p.spec.family && InBelowTop(PoolRanges(p), a)
  }

  /** Contains is membership, except for addresses in a range that ends at the all-ones address. */
  lemma PoolHoldsIsMembership(p: Pool, a: Addr)
    requires a.Addr? && a.family == p.spec.family
    ensures PoolHolds(p, a) ==> In(PoolRanges(p), a.value)
    ensures (forall k :: 0 <= k < |PoolRanges(p)| ==> Hi(PoolRanges(p)[k]) != Top(a.family)) ==>
            (PoolHolds(p, a) <==> In(PoolRanges(p), a.value))
  {
    hide ParsedRanges;
    InAt(PoolRanges(p), a.value);
  }

  /** The set is the pool's. */
  ghost predicate SetOf(rs: IPRangeSet, p: Pool)
    reads rs
  {
    && rs.Valid()
    && rs.ranges4 == (if p.spec.family == V4 then PoolRanges(p) else [])
    && rs.ranges6 == (if p.spec.family == V6 then PoolRanges(p) else [])
  }

  method HeldBySet(rs: IPRangeSet, p: Pool, a: Addr) returns (found: bool)
    requires SetOf(rs, p) && (a.NoAddr? || IsValid(a))
    ensures found <==> PoolHolds(p, a)
  {
    hide ParsedRanges, NormalForm;
    found := rs.Contains(a);
  }

  method Contains(p: Pool, a: Addr) returns (found: bool)
    requires a.NoAddr? || IsValid(a)
    ensures found <==> PoolHolds(p, a)
  {
    hide ParsedRanges, PoolHolds, NormalForm;
    var rs, _ := ParseIPPoolAddresses(p.spec.addresses, p.spec.family, p.spec.avoidBuggyIPs);
    found := HeldBySet(rs, p, a);
  }

  /** Of disjoint pools, at most one holds an address: the pool found does not depend on list order. */
  lemma HolderIsUnique(pools: seq<Pool>, i: nat, j: nat, a: Addr)
    requires PairwiseDisjoint(pools) && i < |pools| && j < |pools|
    requires PoolHolds(pools[i], a) && PoolHolds(pools[j], a)
    ensures i == j
  {
    hide ParsedRanges;
    PoolHoldsIsMembership(pools[i], a);
    PoolHoldsIsMembership(pools[j], a);
    NeitherDisjoint(pools[i], pools[j], a.value);
  }

  lemma NeitherDisjoint(p: Pool, q: Pool, x: int)
    requires p.spec.family == q.spec.family && In(PoolRanges(p), x) && In(PoolRanges(q), x)
    ensures !DisjointPools(p, q) && !DisjointPools(q, p)
  {
  }

  // ---------- counting ----------

  /** The numbers of the addresses in a set of one family. */
  lemma {:induction false} AddressesFit(s: set<Addr>, f: Family, values: set<int>)
    requires forall a :: a in s ==> a.Addr? && a.family == f && a.value in values
    ensures |s| <= |values|
  {
    if s != {} {
      var a :| a in s;
      AddressesFit(s - {a}, f, values - {a.value});
    }
  }

  /** The counting part of the pool reconciler: total, allocated and free addresses. `addresses` are the
      parsed status addresses of the allocations, NoAddr where there is none or it does not parse. */
  method CountPool(p: Pool, addresses: seq<Addr>) returns (total: int, inUse: set<Addr>, free: int)
    requires forall i :: 0 <= i < |addresses| ==> addresses[i].NoAddr? || IsValid(addresses[i])
    ensures NormalForm(p.spec.family, PoolRanges(p)) && total == |Denoted(p.spec.family, PoolRanges(p))|
    ensures forall a :: a in inUse <==> a in addresses && PoolHolds(p, a)
    ensures forall a :: a in inUse ==> a.Addr? && a.value in Denoted(p.spec.family, PoolRanges(p))
    ensures free == total - |inUse| && 0 <= free
  {
    hide ParsedRanges, PoolHolds, In, NormalForm, Denoted;
    ParsedNormal(p.spec.addresses, p.spec.family, p.spec.avoidBuggyIPs);
    var rs, _ := ParseIPPoolAddresses(p.spec.addresses, p.spec.family, p.spec.avoidBuggyIPs);
    total := rs.Count(p.spec.family);
    inUse := CountInUse(rs, p, addresses);
    AllocatedInPool(p, inUse);
    free := total - |inUse|;
  }

  /** The loop over the allocations. */
  method CountInUse(rs: IPRangeSet, p: Pool, addresses: seq<Addr>) returns (inUse: set<Addr>)
    requires SetOf(rs, p) && forall i :: 0 <= i < |addresses| ==> addresses[i].NoAddr? || IsValid(addresses[i])
    ensures forall a :: a in inUse <==> a in addresses && PoolHolds(p, a)
  {
    hide SetOf, PoolHolds, IsValid;
    inUse := {};
    for i := 0 to |addresses|
      invariant forall a :: a in inUse <==> a in addresses[..i] && PoolHolds(p, a)
    {
      var matched := HeldBySet(rs, p, addresses[i]);
      assert addresses[..i + 1] == addresses[..i] + [addresses[i]];
      HeldIsAddress(p, addresses[i]);
      if addresses[i].Addr? && matched {
        inUse := inUse + {addresses[i]};
      }
    }
    assert addresses[..|addresses|] == addresses;
  }

  lemma HeldIsAddress(p: Pool, a: Addr)
    ensures PoolHolds(p, a) ==> a.Addr?
  {
  }

  lemma AllocatedInPool(p: Pool, inUse: set<Addr>)
    requires NormalForm(p.spec.family, PoolRanges(p)) && forall a :: a in inUse ==> PoolHolds(p, a)
    ensures forall a :: a in inUse ==> a.Addr? && a.value in Denoted(p.spec.family, PoolRanges(p))
    ensures |inUse| <= |Denoted(p.spec.family, PoolRanges(p))|
  {
    hide ParsedRanges, In, NormalForm;
    forall a | a in inUse ensures a.Addr? && a.value in Denoted(p.spec.family, PoolRanges(p)) {
      PoolHoldsIsMembership(p, a);
    }
    AddressesFit(inUse, p.spec.family, Denoted(p.spec.family, PoolRanges(p)));
  }
}
