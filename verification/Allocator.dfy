/** The allocation reconciler: searching the pools for an address and staging it. */
module Allocator {
  import opened Net
  import opened Ranges
  import opened Probe
  import opened Pools
  import opened Kube
  import opened Expectations

  // ---------- probe order over the pools ----------

  /** An address together with the pool it is taken from. */
  datatype Choice = Choice(ip: Addr, pool: Pool)

  predicate MatchesSpec(p: Pool, spec: AllocSpec) {
    && (spec.poolName != "" ==> p.name == spec.poolName)
    && (spec.family.Some? ==> p.spec.family == spec.family.value)
  }

  /** A pool that dynamic allocation may take from. */
  predicate Eligible(p: Pool, spec: AllocSpec) {
    MatchesSpec(p, spec) && (spec.poolName == "" ==> p.spec.autoAssign)
  }

  function RangesProbe(f: Family, rs: seq<IPRange>, hash: nat): seq<Addr>
    requires AllWellFormed(f, rs)
  {
    if rs == [] then [] else ProbeOrder(f, rs[0], hash) + RangesProbe(f, rs[1..], hash)
  }

  function Tag(ips: seq<Addr>, p: Pool): (cs: seq<Choice>)
    ensures |cs| == |ips| && forall i :: 0 <= i < |ips| ==> cs[i] == Choice(ips[i], p)
  {
    seq(|ips|, i requires 0 <= i < |ips| => Choice(ips[i], p))
  }

  ghost function PoolProbe(p: Pool, hash: nat): seq<Addr> {
    PoolWellFormed(p);
    RangesProbe(p.spec.family, PoolRanges(p), hash)
  }

  lemma PoolWellFormed(p: Pool)
    ensures AllWellFormed(p.spec.family, PoolRanges(p))
  {
    ParsedNormal(p.spec.addresses, p.spec.family, p.spec.avoidBuggyIPs);
    NormalFormPairwise(p.spec.family, PoolRanges(p));
  }

  /** Every address dynamic allocation would try, in order. */
  ghost function Candidates(pools: seq<Pool>, spec: AllocSpec, hash: nat): seq<Choice> {
    if pools == [] then []
    else (if Eligible(pools[0], spec) then Tag(PoolProbe(pools[0], hash), pools[0]) else [])
         + Candidates(pools[1..], spec, hash)
  }

  function FirstFree(cs: seq<Choice>, used: set<Addr>): Option<Choice> {
    if cs == [] then None
    else if cs[0].ip !in used then Some(cs[0])
    else FirstFree(cs[1..], used)
  }

  lemma {:induction false} FirstFreeAppend(a: seq<Choice>, b: seq<Choice>, used: set<Addr>)
    ensures FirstFree(a + b, used) == if FirstFree(a, used).Some? then FirstFree(a, used) else FirstFree(b, used)
  {
    if a == [] {
      assert a + b == b;
    } else {
      assert (a + b)[1..] == a[1..] + b;
      FirstFreeAppend(a[1..], b, used);
    }
  }

  lemma {:induction false} FirstFreeMeaning(cs: seq<Choice>, used: set<Addr>)
    ensures FirstFree(cs, used).None? <==> forall i :: 0 <= i < |cs| ==> cs[i].ip in used
    ensures FirstFree(cs, used).Some? ==>
              exists k :: 0 <= k < |cs| && FirstFree(cs, used) == Some(cs[k]) && cs[k].ip !in used &&
                forall i :: 0 <= i < k ==> cs[i].ip in used
  {
    if cs != [] {
      FirstFreeMeaning(cs[1..], used);
      if cs[0].ip in used && FirstFree(cs[1..], used).Some? {
        var k :| 0 <= k < |cs| - 1 && FirstFree(cs, used) == Some(cs[1..][k]) && cs[1..][k].ip !in used &&
          forall i :: 0 <= i < k ==> cs[1..][i].ip in used;
        forall i | 0 <= i < k + 1 ensures cs[i].ip in used { if i > 0 { assert cs[i] == cs[1..][i - 1]; } }
        assert cs[k + 1] == cs[1..][k];
      }
      if forall i :: 0 <= i < |cs| ==> cs[i].ip in used {
        assert forall i :: 0 <= i < |cs| - 1 ==> cs[1..][i] == cs[i + 1];
      }
      if forall i :: 0 <= i < |cs| - 1 ==> cs[1..][i].ip in used {
        assert forall i :: 1 <= i < |cs| ==> cs[i] == cs[1..][i - 1];
      }
    }
  }

  lemma {:induction false} RangesProbeMeaning(f: Family, rs: seq<IPRange>, hash: nat, a: Addr)
    requires AllWellFormed(f, rs)
    ensures a in RangesProbe(f, rs, hash) <==> a.Addr? && a.family == f && In(rs, a.value)
  {
    if rs != [] {
      ProbesEachOnce(f, rs[0], hash);
      RangesProbeMeaning(f, rs[1..], hash, a);
    }
  }

  /** The candidates are exactly the addresses of the eligible pools. */
  lemma {:induction false} CandidatesMeaning(pools: seq<Pool>, spec: AllocSpec, hash: nat, c: Choice)
    ensures c in Candidates(pools, spec, hash) <==>
            && c.pool in pools && Eligible(c.pool, spec)
            && c.ip.Addr? && c.ip.family == c.pool.spec.family && In(PoolRanges(c.pool), c.ip.value)
  {
    if pools != [] {
      CandidatesMeaning(pools[1..], spec, hash, c);
      PoolWellFormed(c.pool);
      RangesProbeMeaning(c.pool.spec.family, PoolRanges(c.pool), hash, c.ip);
      var head := if Eligible(pools[0], spec) then Tag(PoolProbe(pools[0], hash), pools[0]) else [];
      InTag(PoolProbe(pools[0], hash), pools[0], c);
      assert c in Candidates(pools, spec, hash) <==> c in head || c in Candidates(pools[1..], spec, hash);
      assert pools == [pools[0]] + pools[1..];
    }
  }

  lemma InTag(ips: seq<Addr>, p: Pool, c: Choice)
    ensures c in Tag(ips, p) <==> c.pool == p && c.ip in ips
  {
    if c.pool == p && c.ip in ips {
      var i :| 0 <= i < |ips| && ips[i] == c.ip;
      assert Tag(ips, p)[i] == c;
    }
  }

  /** First fit, and complete: the address chosen is the first free one in probe order, and nothing is
      chosen exactly when every address of every eligible pool is used. */
  lemma SearchIsCompleteFirstFit(pools: seq<Pool>, spec: AllocSpec, hash: nat, used: set<Addr>)
    ensures var cs, found := Candidates(pools, spec, hash), FirstFree(Candidates(pools, spec, hash), used);
            && (found.Some? ==> exists k :: 0 <= k < |cs| && found.value == cs[k] && cs[k].ip !in used &&
                                  forall i :: 0 <= i < k ==> cs[i].ip in used)
            && (found.None? <==> forall p, x :: p in pools && Eligible(p, spec) && In(PoolRanges(p), x) ==>
                                   0 <= x && Addr(p.spec.family, x) in used)
  {
    hide Candidates, ParsedRanges, In, FirstFree;
    var cs, found := Candidates(pools, spec, hash), FirstFree(Candidates(pools, spec, hash), used);
    FirstFreeMeaning(cs, used);
    if found.None? {
      forall p, x | p in pools && Eligible(p, spec) && In(PoolRanges(p), x) ensures 0 <= x && Addr(p.spec.family, x) in used {
        NonNegative(p, x);
        var c := Choice(Addr(p.spec.family, x), p);
        CandidatesMeaning(pools, spec, hash, c);
        assert c in cs;
      }
    } else {
      var k :| 0 <= k < |cs| && found == Some(cs[k]) && cs[k].ip !in used;
      var c := cs[k];
      CandidatesMeaning(pools, spec, hash, c);
      assert In(PoolRanges(c.pool), c.ip.value) && Addr(c.pool.spec.family, c.ip.value) !in used;
    }
  }

  lemma NonNegative(p: Pool, x: int)
    requires In(PoolRanges(p), x)
    ensures 0 <= x
  {
    hide ParsedRanges;
    PoolWellFormed(p);
    InAt(PoolRanges(p), x);
    var i :| 0 <= i < |PoolRanges(p)| && Inside(PoolRanges(p)[i], x);
    assert WellFormed(p.spec.family, PoolRanges(p)[i]);
  }

  // ---------- the search in terms of the hash ----------

  /** The k-th address of a range, counted from the hashed position and around the end. */
  function Around(f: Family, r: IPRange, hash: nat, k: nat): Addr
    requires WellFormed(f, r) && k < RangeCount(r)
  {
    var n, at := Hi(r) - Lo(r) + 1, hash % (Hi(r) - Lo(r) + 1) + k;
    Addr(f, if at < n then Lo(r) + at else Lo(r) + at - n)
  }

  /** ip is the first free address of the range from the hashed position on. */
  ghost predicate FirstAround(f: Family, r: IPRange, hash: nat, used: set<Addr>, ip: Addr)
    requires WellFormed(f, r)
  {
    exists k: nat :: k < RangeCount(r) && ip == Around(f, r, hash, k) && ip !in used && forall m: nat :: m < k ==> Around(f, r, hash, m) in used
  }

  ghost predicate AllUsed(f: Family, r: IPRange, used: set<Addr>) {
    forall x :: Inside(r, x) ==> 0 <= x && Addr(f, x) in used
  }

  /** ip is the first free address of the first range that has one. */
  ghost predicate FirstInRanges(f: Family, rs: seq<IPRange>, hash: nat, used: set<Addr>, ip: Addr)
    requires AllWellFormed(f, rs)
  {
    exists j :: 0 <= j < |rs| && FirstAround(f, rs[j], hash, used, ip) && forall i :: 0 <= i < j ==> AllUsed(f, rs[i], used)
  }

  /** Dynamic allocation may draw on the pool: it is the one asked for, or, if none is, it offers itself. */
  predicate MayDraw(p: Pool, spec: AllocSpec) {
    && (if spec.poolName == "" then p.spec.autoAssign else p.name == spec.poolName)
    && (spec.family.None? || spec.family == Some(p.spec.family))
  }

  ghost predicate Exhausted(p: Pool, used: set<Addr>) {
    forall i :: 0 <= i < |PoolRanges(p)| ==> AllUsed(p.spec.family, PoolRanges(p)[i], used)
  }

  lemma FirstOfRange(f: Family, r: IPRange, p: Pool, hash: nat, used: set<Addr>)
    requires WellFormed(f, r)
    ensures var found := FirstFree(Tag(ProbeOrder(f, r, hash), p), used);
            && (found.Some? ==> found.value.pool == p && FirstAround(f, r, hash, used, found.value.ip))
            && (found.None? <==> AllUsed(f, r, used))
  {
    hide FirstFree, Slot;
    var s := ProbeOrder(f, r, hash);
    FirstFreeMeaning(Tag(s, p), used);
    ProbesEachOnce(f, r, hash);
    forall k: nat | k < |s| ensures s[k] == Around(f, r, hash, k) { SlotWraps(r, hash, k); }
    if AllUsed(f, r, used) {
      forall k | 0 <= k < |s| ensures s[k] in used { assert s[k] in s; }
    }
    if forall k :: 0 <= k < |s| ==> Tag(s, p)[k].ip in used {
      forall x | Inside(r, x) ensures 0 <= x && Addr(f, x) in used {
        assert Addr(f, x) in s;
        var k :| 0 <= k < |s| && s[k] == Addr(f, x);
        assert Tag(s, p)[k].ip == s[k];
      }
    }
  }

  lemma {:induction false} FirstOfRanges(p: Pool, rs: seq<IPRange>, hash: nat, used: set<Addr>)
    requires AllWellFormed(p.spec.family, rs)
    ensures var found := FirstFree(Tag(RangesProbe(p.spec.family, rs, hash), p), used);
            && (found.Some? ==> found.value.pool == p && FirstInRanges(p.spec.family, rs, hash, used, found.value.ip))
            && (found.None? <==> forall i :: 0 <= i < |rs| ==> AllUsed(p.spec.family, rs[i], used))
  {
    hide FirstFree, AllUsed, FirstAround, WellFormed, ProbeOrder;
    if rs == [] {
      FirstFreeNone(used);
      assert Tag(RangesProbe(p.spec.family, rs, hash), p) == [];
    } else {
      var rest := rs[1..];
      assert rs[0..] == rs;
      RangesProbeNext(p, rs, 0, hash, used);
      FirstOfRange(p.spec.family, rs[0], p, hash, used);
      FirstOfRanges(p, rest, hash, used);
      assert forall i :: 1 <= i < |rs| ==> rs[i] == rest[i - 1];
      var found := FirstFree(Tag(RangesProbe(p.spec.family, rest, hash), p), used);
      if found.Some? {
        var j :| 0 <= j < |rest| && FirstAround(p.spec.family, rest[j], hash, used, found.value.ip) &&
          forall i :: 0 <= i < j ==> AllUsed(p.spec.family, rest[i], used);
        assert rs[j + 1] == rest[j];
      }
    }
  }

  /** The choice is what the i-th pool gives, and no earlier pool has anything to give. */
  ghost predicate DrawnFrom(pools: seq<Pool>, i: nat, spec: AllocSpec, hash: nat, used: set<Addr>, c: Choice)
    requires i < |pools| && AllWellFormed(pools[i].spec.family, PoolRanges(pools[i]))
  {
    && c.pool == pools[i] && MayDraw(pools[i], spec)
    && FirstInRanges(pools[i].spec.family, PoolRanges(pools[i]), hash, used, c.ip)
    && forall j :: 0 <= j < i && MayDraw(pools[j], spec) ==> Exhausted(pools[j], used)
  }

  lemma FirstOfPool(p: Pool, hash: nat, used: set<Addr>)
    ensures AllWellFormed(p.spec.family, PoolRanges(p))
    ensures var found := FirstFree(Tag(PoolProbe(p, hash), p), used);
            && (found.Some? ==> found.value.pool == p && FirstInRanges(p.spec.family, PoolRanges(p), hash, used, found.value.ip))
            && (found.None? <==> Exhausted(p, used))
  {
    hide FirstFree, FirstInRanges, PoolRanges, AllUsed;
    PoolWellFormed(p);
    FirstOfRanges(p, PoolRanges(p), hash, used);
  }

  /** The whole search, address by address: it takes an address of the first pool it may draw on that has a free one, of
      the first such range there, and of that range the first free one from the hashed position on and around the end;
      it finds none exactly if every such pool is exhausted. */
  lemma {:induction false} SearchStartsAtHash(pools: seq<Pool>, spec: AllocSpec, hash: nat, used: set<Addr>)
    ensures forall i :: 0 <= i < |pools| ==> AllWellFormed(pools[i].spec.family, PoolRanges(pools[i]))
    ensures var found := FirstFree(Candidates(pools, spec, hash), used);
            && (found.None? <==> forall i :: 0 <= i < |pools| && MayDraw(pools[i], spec) ==> Exhausted(pools[i], used))
            && (found.Some? ==> exists i :: 0 <= i < |pools| && DrawnFrom(pools, i, spec, hash, used, found.value))
  {
    hide FirstFree, Exhausted, PoolProbe, FirstInRanges, PoolRanges;
    forall i | 0 <= i < |pools| ensures AllWellFormed(pools[i].spec.family, PoolRanges(pools[i])) { PoolWellFormed(pools[i]); }
    if pools == [] {
      FirstFreeNone(used);
    } else {
      var rest := pools[1..];
      assert pools[0..] == pools;
      CandidatesNext(pools, 0, spec, hash, used);
      FirstOfPool(pools[0], hash, used);
      SearchStartsAtHash(rest, spec, hash, used);
      assert forall i :: 1 <= i < |pools| ==> pools[i] == rest[i - 1];
      var first, later := FirstFree(Tag(PoolProbe(pools[0], hash), pools[0]), used), FirstFree(Candidates(rest, spec, hash), used);
      if Eligible(pools[0], spec) && first.Some? {
        assert DrawnFrom(pools, 0, spec, hash, used, first.value);
      } else if later.Some? {
        var i :| 0 <= i < |rest| && DrawnFrom(rest, i, spec, hash, used, later.value);
        assert DrawnFrom(pools, i + 1, spec, hash, used, later.value);
      }
    }
  }

  // ---------- staging what was found ----------

  /** An address Resolve does not report to `id` is never refused to it. */
  lemma UnusedIsNeverRefused(t: Tracker, cached: map<Addr, Time>, id: string, p: IPAllocationPending)
    requires Coherent(t) && p.id == id && p.address !in Resolved(t, cached, id)
    ensures !Refuses(t, p)
  {
    ResolvedExactly(t, cached, id, p.address);
  }

  lemma {:induction false} DistinctFit(s: seq<Addr>, used: set<Addr>)
    requires forall i, j :: 0 <= i < j < |s| ==> s[i] != s[j]
    requires forall i :: 0 <= i < |s| ==> s[i] in used
    ensures |s| <= |used|
  {
    if s != [] {
      var n := |s| - 1;
      DistinctFit(s[..n], used - {s[n]});
    }
  }

  /** A range has no more used addresses in front of a free one than there are used addresses. */
  lemma ProbesBounded(f: Family, r: IPRange, hash: nat, k: nat, used: map<Addr, Time>)
    requires WellFormed(f, r) && k <= RangeCount(r)
    requires forall i :: 0 <= i < k ==> ProbeOrder(f, r, hash)[i] in used
    ensures k <= |used|
  {
    ProbesEachOnce(f, r, hash);
    DistinctFit(ProbeOrder(f, r, hash)[..k], used.Keys);
    assert |used.Keys| == |used|;
  }

  /** What the search needs to know of the tracker: no free address would be refused. */
  ghost predicate NoneRefused(t: Tracker, used: set<Addr>, id: string) {
    forall ip :: ip in t.allocations && ip !in used ==> t.allocations[ip].id == id
  }

  /** Probes one range; `probes` is the number of addresses tried. */
  method SearchRange(e: IPAllocationExpectations, id: string, now: Time, p: Pool, r: IPRange, hash: nat, used: map<Addr, Time>)
    returns (found: Option<Choice>, probes: nat)
    requires WellFormed(p.spec.family, r) && hash <= Top(V6) && NoneRefused(e.Value(), used.Keys, id)
    modifies e
    ensures found == FirstFree(Tag(ProbeOrder(p.spec.family, r, hash), p), used.Keys)
    ensures e.Value() == if found.Some? then Staged(old(e.Value()), IPAllocationPending(id, found.value.ip, now)) else old(e.Value())
    ensures found.Some? ==> probes <= |used| + 1
  {
    hide FirstFree;
    var ips := Iterate(p.spec.family, r, hash);
    ghost var all := Tag(ips, p);
    probes := 0;
    assert all[0..] == all;
    while probes < |ips|
      invariant 0 <= probes <= |ips|
      invariant e.Value() == old(e.Value())
      invariant FirstFree(all[probes..], used.Keys) == FirstFree(all, used.Keys)
      invariant forall i :: 0 <= i < probes ==> ips[i] in used
    {
      var ip := ips[probes];
      FirstFreeNext(all, probes, used.Keys);
      probes := probes + 1;
      if ip !in used {
        var pending := IPAllocationPending(id, ip, now);
        var ok := e.StageAllocation(pending);
        if ok {
          ProbesBounded(p.spec.family, r, hash, probes - 1, used);
          return Some(Choice(ip, p)), probes;
        }
        assert false;
      }
    }
    assert all[|ips|..] == [];
    FirstFreeNone(used.Keys);
    return None, probes;
  }

  lemma FirstFreeNext(cs: seq<Choice>, k: nat, used: set<Addr>)
    requires k < |cs|
    ensures FirstFree(cs[k..], used) == if cs[k].ip !in used then Some(cs[k]) else FirstFree(cs[k + 1..], used)
  {
    assert cs[k..][1..] == cs[k + 1..];
  }

  lemma FirstFreeNone(used: set<Addr>)
    ensures FirstFree([], used) == None
  {
  }

  method SearchPool(e: IPAllocationExpectations, id: string, now: Time, p: Pool, hash: nat, used: map<Addr, Time>)
    returns (found: Option<Choice>, ghost probes: nat)
    requires hash <= Top(V6) && NoneRefused(e.Value(), used.Keys, id)
    modifies e
    ensures found == FirstFree(Tag(PoolProbe(p, hash), p), used.Keys)
    ensures e.Value() == if found.Some? then Staged(old(e.Value()), IPAllocationPending(id, found.value.ip, now)) else old(e.Value())
    ensures found.Some? ==> probes <= |used| + 1
  {
    hide FirstFree, ParsedRanges;
    var parsed, _ := ParseIPPoolAddresses(p.spec.addresses, p.spec.family, p.spec.avoidBuggyIPs);
    var rs := parsed.RangesForFamily(p.spec.family);
    PoolWellFormed(p);
    var all := Tag(RangesProbe(p.spec.family, rs, hash), p);
    probes := 0;
    assert rs[0..] == rs;
    for j := 0 to |rs|
      invariant e.Value() == old(e.Value())
      invariant FirstFree(Tag(RangesProbe(p.spec.family, rs[j..], hash), p), used.Keys) == FirstFree(all, used.Keys)
    {
      RangesProbeNext(p, rs, j, hash, used.Keys);
      found, probes := SearchRange(e, id, now, p, rs[j], hash, used);
      if found.Some? {
        return;
      }
    }
    FirstFreeNone(used.Keys);
    return None, probes;
  }

  lemma RangesProbeNext(p: Pool, rs: seq<IPRange>, j: nat, hash: nat, used: set<Addr>)
    requires AllWellFormed(p.spec.family, rs) && j < |rs|
    ensures var first := FirstFree(Tag(ProbeOrder(p.spec.family, rs[j], hash), p), used);
            FirstFree(Tag(RangesProbe(p.spec.family, rs[j..], hash), p), used) ==
            if first.Some? then first else FirstFree(Tag(RangesProbe(p.spec.family, rs[j + 1..], hash), p), used)
  {
    hide FirstFree;
    var a, b := ProbeOrder(p.spec.family, rs[j], hash), RangesProbe(p.spec.family, rs[j + 1..], hash);
    assert rs[j..][1..] == rs[j + 1..];
    assert RangesProbe(p.spec.family, rs[j..], hash) == a + b;
    assert Tag(a + b, p) == Tag(a, p) + Tag(b, p);
    FirstFreeAppend(Tag(a, p), Tag(b, p), used);
  }

  method SearchDynamic(e: IPAllocationExpectations, id: string, now: Time, pools: seq<Pool>, spec: AllocSpec, hash: nat,
                       used: map<Addr, Time>)
    returns (found: Option<Choice>, ghost probes: nat)
    requires hash <= Top(V6) && NoneRefused(e.Value(), used.Keys, id)
    modifies e
    ensures found == FirstFree(Candidates(pools, spec, hash), used.Keys)
    ensures e.Value() == if found.Some? then Staged(old(e.Value()), IPAllocationPending(id, found.value.ip, now)) else old(e.Value())
    ensures found.Some? ==> probes <= |used| + 1
  {
    hide FirstFree, Candidates, PoolProbe;
    probes := 0;
    assert pools[0..] == pools;
    for i := 0 to |pools|
      invariant e.Value() == old(e.Value())
      invariant FirstFree(Candidates(pools[i..], spec, hash), used.Keys) == FirstFree(Candidates(pools, spec, hash), used.Keys)
    {
      var p := pools[i];
      CandidatesNext(pools, i, spec, hash, used.Keys);
      if spec.poolName != "" && p.name != spec.poolName {
        continue;
      }
      if spec.family.Some? && p.spec.family != spec.family.value {
        continue;
      }
      if spec.poolName == "" && !p.spec.autoAssign {
        continue;
      }
      found, probes := SearchPool(e, id, now, p, hash, used);
      if found.Some? {
        return;
      }
    }
    assert pools[|pools|..] == [];
    CandidatesNone(spec, hash);
    FirstFreeNone(used.Keys);
    return None, probes;
  }

  lemma CandidatesNone(spec: AllocSpec, hash: nat)
    ensures Candidates([], spec, hash) == []
  {
  }

  lemma CandidatesNext(pools: seq<Pool>, i: nat, spec: AllocSpec, hash: nat, used: set<Addr>)
    requires i < |pools|
    ensures var first := if Eligible(pools[i], spec) then FirstFree(Tag(PoolProbe(pools[i], hash), pools[i]), used) else None;
            FirstFree(Candidates(pools[i..], spec, hash), used) ==
            if first.Some? then first else FirstFree(Candidates(pools[i + 1..], spec, hash), used)
  {
    hide PoolProbe;
    assert pools[i..][1..] == pools[i + 1..];
    var head := if Eligible(pools[i], spec) then Tag(PoolProbe(pools[i], hash), pools[i]) else [];
    assert Candidates(pools[i..], spec, hash) == head + Candidates(pools[i + 1..], spec, hash);
    FirstFreeAppend(head, Candidates(pools[i + 1..], spec, hash), used);
  }
}
