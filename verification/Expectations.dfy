/** The allocation tracker: reservations and releases staged in memory while the cache lags. */
module Expectations {
  import opened Net
  import opened Kube

  datatype IPAllocationPending = IPAllocationPending(id: string, address: Addr, allocatedAt: Time)

  // ---------- the tracker as a value ----------

  datatype Tracker = Tracker(allocations: map<Addr, IPAllocationPending>, releases: map<Addr, Time>)

  function MaxTime(a: Time, b: Time): Time {
    if a < b then b else a
  }

  predicate Refuses(t: Tracker, p: IPAllocationPending) {
    p.address in t.allocations && t.allocations[p.address].id != p.id
  }

  function Staged(t: Tracker, p: IPAllocationPending): Tracker {
    if Refuses(t, p) then t
    else Tracker(t.allocations[p.address := p], t.releases - {p.address})
  }

  function Unstaged(t: Tracker, p: IPAllocationPending): Tracker {
    if p.address in t.allocations && t.allocations[p.address].id == p.id &&
       t.allocations[p.address].allocatedAt == p.allocatedAt
    then t.(allocations := t.allocations - {p.address})
    else t
  }

  function ReleaseStaged(t: Tracker, ip: Addr, at: Time): Tracker {
    if ip in t.allocations && t.allocations[ip].allocatedAt > at then t
    else Tracker(t.allocations - {ip}, t.releases[ip := at])
  }

  function ReleaseUnstaged(t: Tracker, ip: Addr, at: Time): Tracker {
    if ip in t.releases && t.releases[ip] == at then t.(releases := t.releases - {ip}) else t
  }

  /** Whether a pending allocation takes part in a Resolve that excludes `excludeID`. */
  predicate Counts(p: IPAllocationPending, excludeID: string) {
    !(excludeID != "" && p.id == excludeID)
  }

  /** The cached times raised by the pending allocations. */
  function WithPending(t: Tracker, cached: map<Addr, Time>, excludeID: string): map<Addr, Time> {
    map ip | ip in cached.Keys + t.allocations.Keys && (ip in cached || Counts(t.allocations[ip], excludeID)) ::
      if ip in t.allocations && Counts(t.allocations[ip], excludeID) && (ip in cached ==> cached[ip] < t.allocations[ip].allocatedAt)
      then t.allocations[ip].allocatedAt else cached[ip]
  }

  lemma WithPendingAt(t: Tracker, cached: map<Addr, Time>, excludeID: string, ip: Addr)
    ensures Lookup(WithPending(t, cached, excludeID), ip) ==
            if ip in t.allocations && Counts(t.allocations[ip], excludeID) &&
               (ip in cached ==> cached[ip] < t.allocations[ip].allocatedAt)
            then Some(t.allocations[ip].allocatedAt) else Lookup(cached, ip)
  {
  }

  /** The addresses Resolve reports as used. */
  function Resolved(t: Tracker, cached: map<Addr, Time>, excludeID: string): map<Addr, Time> {
    var all := WithPending(t, cached, excludeID);
    map ip | ip in all && !(ip in t.releases && all[ip] < t.releases[ip]) :: all[ip]
  }

  /** A release that Confirm drops: timed out without being seen, or older than what is seen. `clock` is
      the reading of the clock when the loop visits an address. */
  predicate DropsRelease(t: Tracker, seen: map<Addr, Time>, clock: Addr -> Time, timeout: Time, ip: Addr)
    requires ip in t.releases
  {
    if ip !in seen then clock(ip) - t.releases[ip] > timeout else seen[ip] > t.releases[ip]
  }

  predicate DropsAllocation(t: Tracker, seen: map<Addr, Time>, ip: Addr)
    requires ip in t.allocations
  {
    ip in seen && seen[ip] >= t.allocations[ip].allocatedAt
  }

  function Confirmed(t: Tracker, seen: map<Addr, Time>, clock: Addr -> Time, timeout: Time): Tracker {
    Tracker(map ip | ip in t.allocations && !DropsAllocation(t, seen, ip) :: t.allocations[ip],
            map ip | ip in t.releases && !DropsRelease(t, seen, clock, timeout, ip) :: t.releases[ip])
  }

  /** What the cache shows: for every address shown as allocated, the latest transition time. */
  function AllocTimes(allocs: seq<Allocation>): map<Addr, Time> {
    if allocs == [] then map[]
    else
      var before := AllocTimes(allocs[..|allocs| - 1]);
      var s := allocs[|allocs| - 1].status;
      if ShowsSome(s) && (s.address.addr in before ==> before[s.address.addr] < s.allocCond.value.since)
      then before[s.address.addr := s.allocCond.value.since]
      else before
  }

  /** AllocTimes holds exactly the shown addresses, each with the latest time it is shown with. */
  lemma {:induction false} AllocTimesMeaning(allocs: seq<Allocation>, ip: Addr)
    ensures ip in AllocTimes(allocs) <==> exists i :: 0 <= i < |allocs| && Shows(allocs[i].status, ip)
    ensures forall i :: 0 <= i < |allocs| && Shows(allocs[i].status, ip) ==>
              ip in AllocTimes(allocs) && allocs[i].status.allocCond.value.since <= AllocTimes(allocs)[ip]
    ensures ip in AllocTimes(allocs) ==>
              exists i :: 0 <= i < |allocs| && Shows(allocs[i].status, ip) &&
                allocs[i].status.allocCond.value.since == AllocTimes(allocs)[ip]
  {
    if allocs != [] {
      var n := |allocs| - 1;
      var front := allocs[..n];
      AllocTimesMeaning(front, ip);
      assert forall i :: 0 <= i < n ==> front[i] == allocs[i];
      assert ip in AllocTimes(allocs) && !(Shows(allocs[n].status, ip) && AllocTimes(allocs)[ip] == allocs[n].status.allocCond.value.since)
             ==> ip in AllocTimes(front) && AllocTimes(allocs)[ip] == AllocTimes(front)[ip];
    }
  }

  // ---------- the tracker as the source's object ----------

  class IPAllocationExpectations {
    const allocationTimeout: Time
    var pendingAllocations: map<Addr, IPAllocationPending>
    var pendingReleases: map<Addr, Time>

    function Value(): Tracker
      reads this
    {
      Tracker(pendingAllocations, pendingReleases)
    }

    constructor (allocTimeout: Time)
      ensures Value() == Tracker(map[], map[]) && allocationTimeout == allocTimeout
    {
      allocationTimeout := allocTimeout;
      pendingAllocations := map[];
      pendingReleases := map[];
    }

    method StageAllocation(alloc: IPAllocationPending) returns (ok: bool)
      modifies this
      ensures ok == !Refuses(old(Value()), alloc) && Value() == Staged(old(Value()), alloc)
    {
      if alloc.address in pendingAllocations && pendingAllocations[alloc.address].id != alloc.id {
        return false;
      }
      pendingAllocations := pendingAllocations[alloc.address := alloc];
      pendingReleases := pendingReleases - {alloc.address};
      return true;
    }

    method UnstageAllocation(alloc: IPAllocationPending)
      modifies this
      ensures Value() == Unstaged(old(Value()), alloc)
    {
      if alloc.address !in pendingAllocations {
        return;
      }
      var existing := pendingAllocations[alloc.address];
      if existing.id == alloc.id && existing.allocatedAt == alloc.allocatedAt {
        pendingAllocations := pendingAllocations - {alloc.address};
      }
    }

    method StageRelease(ip: Addr, releaseTime: Time)
      modifies this
      ensures Value() == ReleaseStaged(old(Value()), ip, releaseTime)
    {
      if ip in pendingAllocations && pendingAllocations[ip].allocatedAt > releaseTime {
        return;
      }
      pendingReleases := pendingReleases[ip := releaseTime];
      pendingAllocations := pendingAllocations - {ip};
    }

    method UnstageRelease(ip: Addr, releaseTime: Time)
      modifies this
      ensures Value() == ReleaseUnstaged(old(Value()), ip, releaseTime)
    {
      if ip !in pendingReleases {
        return;
      }
      if pendingReleases[ip] == releaseTime {
        pendingReleases := pendingReleases - {ip};
      }
    }

    method BuildAllocTimeMap(allocs: seq<Allocation>) returns (result: map<Addr, Time>)
      ensures result == AllocTimes(allocs)
    {
      result := map[];
      for i := 0 to |allocs|
        invariant result == AllocTimes(allocs[..i])
      {
        assert allocs[..i + 1][..i] == allocs[..i];
        var s := allocs[i].status;
        if !s.address.Parsed? {
          continue;
        }
        if !(s.allocCond.Some? && s.allocCond.value.isTrue) {
          continue;
        }
        var allocTime := s.allocCond.value.since;
        if s.address.addr !in result || result[s.address.addr] < allocTime {
          result := result[s.address.addr := allocTime];
        }
      }
      assert allocs[..|allocs|] == allocs;
    }

    method Resolve(fromCache: seq<Allocation>, excludeID: string) returns (result: map<Addr, Time>)
      ensures result == Resolved(Value(), AllocTimes(fromCache), excludeID)
    {
      var cached := BuildAllocTimeMap(fromCache);
      var all := ApplyPending(cached, excludeID);
      result := ApplyReleases(all);
    }

    /** The first loop of Resolve; like all loops over a map, it visits the entries in an arbitrary order. */
    method ApplyPending(cached: map<Addr, Time>, excludeID: string) returns (result: map<Addr, Time>)
      ensures result == WithPending(Value(), cached, excludeID)
    {
      hide WithPending;
      result := cached;
      ghost var all := WithPending(Value(), cached, excludeID);
      forall ip | ip !in pendingAllocations ensures Lookup(all, ip) == Lookup(cached, ip) {
        WithPendingAt(Value(), cached, excludeID, ip);
      }
      var todo := pendingAllocations.Keys;
      while todo != {}
        invariant todo <= pendingAllocations.Keys
        invariant forall ip :: Lookup(result, ip) == if ip in todo then Lookup(cached, ip) else Lookup(all, ip)
        decreases |todo|
      {
        var ip :| ip in todo;
        todo := todo - {ip};
        var p := pendingAllocations[ip];
        WithPendingAt(Value(), cached, excludeID, ip);
        assert Lookup(result, ip) == Lookup(cached, ip);
        if excludeID != "" && p.id == excludeID {
          continue;
        }
        if ip !in result || result[ip] < p.allocatedAt {
          result := result[ip := p.allocatedAt];
        }
      }
      SameLookup(result, all);
    }

    /** The second loop of Resolve. */
    method ApplyReleases(all: map<Addr, Time>) returns (result: map<Addr, Time>)
      ensures result == map ip | ip in all && !(ip in pendingReleases && all[ip] < pendingReleases[ip]) :: all[ip]
    {
      result := all;
      var todo := pendingReleases.Keys;
      while todo != {}
        invariant todo <= pendingReleases.Keys
        invariant forall ip :: ip in result <==>
                    ip in all && (ip in pendingReleases && ip !in todo ==> all[ip] >= pendingReleases[ip])
        invariant forall ip :: ip in result ==> result[ip] == all[ip]
        decreases |todo|
      {
        var ip :| ip in todo;
        todo := todo - {ip};
        if ip in result && result[ip] < pendingReleases[ip] {
          result := result - {ip};
        }
      }
    }

    method Confirm(allocs: seq<Allocation>, clock: Addr -> Time)
      modifies this
      ensures Value() == Confirmed(old(Value()), AllocTimes(allocs), clock, allocationTimeout)
    {
      var results := BuildAllocTimeMap(allocs);
      DropReleases(results, clock);
      DropAllocations(results);
    }

    /** The first loop of Confirm. */
    method DropReleases(results: map<Addr, Time>, clock: Addr -> Time)
      modifies this`pendingReleases
      ensures pendingReleases == Confirmed(old(Value()), results, clock, allocationTimeout).releases
    {
      ghost var t := Value();
      var todo := pendingReleases.Keys;
      while todo != {}
        invariant todo <= pendingReleases.Keys
        invariant forall ip :: ip in pendingReleases <==>
                    ip in t.releases && (ip in todo || !DropsRelease(t, results, clock, allocationTimeout, ip))
        invariant forall ip :: ip in pendingReleases ==> pendingReleases[ip] == t.releases[ip]
        decreases |todo|
      {
        var ip :| ip in todo;
        todo := todo - {ip};
        if ip !in results {
          if clock(ip) - pendingReleases[ip] > allocationTimeout {
            pendingReleases := pendingReleases - {ip};
          }
        } else if results[ip] > pendingReleases[ip] {
          pendingReleases := pendingReleases - {ip};
        }
      }
    }

    /** The second loop of Confirm. */
    method DropAllocations(results: map<Addr, Time>)
      modifies this`pendingAllocations
      ensures pendingAllocations ==
              map ip | ip in old(pendingAllocations) && !DropsAllocation(old(Value()), results, ip) :: old(pendingAllocations)[ip]
    {
      ghost var t := Value();
      var todo := results.Keys;
      while todo != {}
        invariant todo <= results.Keys
        invariant forall ip :: ip in pendingAllocations <==>
                    ip in t.allocations && (ip in todo || !DropsAllocation(t, results, ip))
        invariant forall ip :: ip in pendingAllocations ==> pendingAllocations[ip] == t.allocations[ip]
        decreases |todo|
      {
        var ip :| ip in todo;
        todo := todo - {ip};
        if ip in pendingAllocations && results[ip] >= pendingAllocations[ip].allocatedAt {
          pendingAllocations := pendingAllocations - {ip};
        }
      }
    }
  }

  // ---------- runs of tracker operations ----------

  datatype Op =
    | Stage(p: IPAllocationPending)
    | Unstage(p: IPAllocationPending)
    | StageRelease(ip: Addr, at: Time)
    | UnstageRelease(ip: Addr, at: Time)
    | Confirm(seen: map<Addr, Time>, clock: Addr -> Time, timeout: Time)

  function Apply(t: Tracker, op: Op): Tracker {
    match op
    case Stage(p) => Staged(t, p)
    case Unstage(p) => Unstaged(t, p)
    case StageRelease(ip, at) => ReleaseStaged(t, ip, at)
    case UnstageRelease(ip, at) => ReleaseUnstaged(t, ip, at)
    case Confirm(seen, clock, timeout) => Confirmed(t, seen, clock, timeout)
  }

  function Run(t: Tracker, ops: seq<Op>): Tracker {
    if ops == [] then t else Apply(Run(t, ops[..|ops| - 1]), ops[|ops| - 1])
  }

  /** No address is both reserved and released, and every reservation is filed under its own address. */
  ghost predicate Coherent(t: Tracker) {
    && t.allocations.Keys !! t.releases.Keys
    && forall ip :: ip in t.allocations ==> t.allocations[ip].address == ip
  }

  /** Every tracker that any sequence of operations reaches is coherent. */
  lemma {:induction false} ReachableIsCoherent(ops: seq<Op>)
    ensures Coherent(Run(Tracker(map[], map[]), ops))
  {
    if ops != [] { ReachableIsCoherent(ops[..|ops| - 1]); }
  }

  /** On a coherent tracker Resolve is exactly the reservations of others plus the cached allocations not
      older than a staged release, each with the latest of its times. */
  lemma ResolvedExactly(t: Tracker, cached: map<Addr, Time>, excludeID: string, ip: Addr)
    requires Coherent(t)
    ensures var r := Resolved(t, cached, excludeID);
            var reserved := ip in t.allocations && Counts(t.allocations[ip], excludeID);
            && (ip in r <==> reserved || (ip in cached && (ip in t.releases ==> t.releases[ip] <= cached[ip])))
            && (ip in r ==> r[ip] == if reserved && ip in cached then MaxTime(cached[ip], t.allocations[ip].allocatedAt)
                                     else if reserved then t.allocations[ip].allocatedAt else cached[ip])
  {
  }

  /** Confirming against a snapshot does not change what Resolve says about that snapshot. */
  lemma ConfirmInvisible(t: Tracker, seen: map<Addr, Time>, clock: Addr -> Time, timeout: Time, excludeID: string)
    requires Coherent(t)
    ensures Resolved(Confirmed(t, seen, clock, timeout), seen, excludeID) == Resolved(t, seen, excludeID)
  {
    var t' := Confirmed(t, seen, clock, timeout);
    forall ip
      ensures ip in Resolved(t', seen, excludeID) <==> ip in Resolved(t, seen, excludeID)
      ensures ip in Resolved(t, seen, excludeID) ==> Resolved(t', seen, excludeID)[ip] == Resolved(t, seen, excludeID)[ip]
    {
      ResolvedExactly(t, seen, excludeID, ip);
      ResolvedExactly(t', seen, excludeID, ip);
    }
  }

  // ---------- exclusive reservation ----------

  predicate Reserves(t: Tracker, p: IPAllocationPending) {
    p.address in t.allocations && t.allocations[p.address] == p
  }

  /** A staged allocation is reserved at once, exactly if nobody else has the address; otherwise nothing happens. */
  lemma StagingTakesEffect(t: Tracker, p: IPAllocationPending)
    requires Coherent(t)
    ensures var t' := Apply(t, Stage(p));
            if p.address in t.allocations && t.allocations[p.address].id != p.id then t' == t
            else
              && Coherent(t') && Reserves(t', p) && p.address !in t'.releases
              && forall a :: a != p.address ==> Lookup(t'.allocations, a) == Lookup(t.allocations, a) && Lookup(t'.releases, a) == Lookup(t.releases, a)
  {
  }

  /** The operations that end a reservation. */
  predicate Ends(op: Op, p: IPAllocationPending) {
    match op
    case Stage(q) => q.address == p.address && q.id == p.id && q != p
    case Unstage(q) => q == p
    case StageRelease(ip, at) => ip == p.address && p.allocatedAt <= at
    case UnstageRelease(_, _) => false
    case Confirm(seen, _, _) => p.address in seen && p.allocatedAt <= seen[p.address]
  }

  lemma ReservationStep(t: Tracker, op: Op, p: IPAllocationPending)
    requires Reserves(t, p)
    ensures Reserves(Apply(t, op), p) <==> !Ends(op, p)
  {
  }

  /** A reservation stands through every run of operations that does not contain one of those that end it:
      a matching unstage, a release not before it, a re-stage by its owner, or a confirmation that shows
      the address allocated at or after it. The first such operation does end it. While it stands, no
      other owner can stage the address and every Resolve that does not exclude its owner reports it. */
  lemma {:induction false} ReservationIsExclusive(t: Tracker, p: IPAllocationPending, ops: seq<Op>, last: Op)
    requires Coherent(t) && Reserves(t, p)
    requires forall i :: 0 <= i < |ops| ==> !Ends(ops[i], p)
    ensures Coherent(Run(t, ops)) && Reserves(Run(t, ops), p)
    ensures Reserves(Apply(Run(t, ops), last), p) <==> !Ends(last, p)
    ensures forall q: IPAllocationPending :: q.address == p.address && q.id != p.id ==> Refuses(Run(t, ops), q)
    ensures forall cached, excludeID :: Counts(p, excludeID) ==> p.address in Resolved(Run(t, ops), cached, excludeID)
  {
    if ops != [] {
      var n := |ops| - 1;
      ReservationIsExclusive(t, p, ops[..n], ops[n]);
      assert Run(t, ops) == Apply(Run(t, ops[..n]), ops[n]);
    }
    var now := Run(t, ops);
    ReservationStep(now, last, p);
    forall cached, excludeID | Counts(p, excludeID) ensures p.address in Resolved(now, cached, excludeID) {
      ResolvedExactly(now, cached, excludeID, p.address);
    }
  }

  // ---------- releases ----------

  predicate Releases(t: Tracker, ip: Addr, at: Time) {
    ip in t.releases && t.releases[ip] == at
  }

  /** A staged release takes effect at once, exactly if no reservation of the address is newer; otherwise nothing
      happens. */
  lemma ReleaseTakesEffect(t: Tracker, ip: Addr, at: Time)
    requires Coherent(t)
    ensures var t' := Apply(t, StageRelease(ip, at));
            if ip in t.allocations && t.allocations[ip].allocatedAt > at then t' == t
            else
              && Coherent(t') && Releases(t', ip, at) && ip !in t'.allocations
              && forall a :: a != ip ==> Lookup(t'.allocations, a) == Lookup(t.allocations, a) && Lookup(t'.releases, a) == Lookup(t.releases, a)
  {
  }

  /** The operations that end a release: a reservation of the address, a release of another time, taking it back, and a
      confirmation that shows the address allocated after it, or does not show it when its time is over. */
  predicate EndsRelease(op: Op, ip: Addr, at: Time) {
    match op
    case Stage(q) => q.address == ip
    case Unstage(_) => false
    case StageRelease(a, other) => a == ip && other != at
    case UnstageRelease(a, other) => a == ip && other == at
    case Confirm(seen, clock, timeout) => if ip in seen then at < seen[ip] else timeout < clock(ip) - at
  }

  lemma ReleaseStep(t: Tracker, op: Op, ip: Addr, at: Time)
    requires Coherent(t) && Releases(t, ip, at)
    ensures Releases(Apply(t, op), ip, at) <==> !EndsRelease(op, ip, at)
  {
    assert ip !in t.allocations;
  }

  /** A release stands through every run of operations that does not contain one of those that end it, and the first
      of these does. While it stands, anyone can reserve the address, and Resolve reports it exactly if the cache
      shows it allocated at or after the release. */
  lemma {:induction false} ReleaseFreesAddress(t: Tracker, ip: Addr, at: Time, ops: seq<Op>, last: Op)
    requires Coherent(t) && Releases(t, ip, at)
    requires forall i :: 0 <= i < |ops| ==> !EndsRelease(ops[i], ip, at)
    ensures Coherent(Run(t, ops)) && Releases(Run(t, ops), ip, at)
    ensures Releases(Apply(Run(t, ops), last), ip, at) <==> !EndsRelease(last, ip, at)
    ensures forall q: IPAllocationPending :: q.address == ip ==> !Refuses(Run(t, ops), q)
    ensures forall cached: map<Addr, Time>, excludeID :: ip in Resolved(Run(t, ops), cached, excludeID) <==> ip in cached && at <= cached[ip]
  {
    if ops != [] {
      var n := |ops| - 1;
      ReleaseFreesAddress(t, ip, at, ops[..n], ops[n]);
      assert Run(t, ops) == Apply(Run(t, ops[..n]), ops[n]);
    }
    var now := Run(t, ops);
    ReleaseStep(now, last, ip, at);
    forall cached: map<Addr, Time>, excludeID ensures ip in Resolved(now, cached, excludeID) <==> ip in cached && at <= cached[ip] {
      ResolvedExactly(now, cached, excludeID, ip);
    }
  }
}
