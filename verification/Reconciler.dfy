/** One reconcile of an IPAllocation, as a plan over the tracker and as the method that carries it out. */
module Reconciler {
  import opened Net
  import opened Pools
  import opened Kube
  import opened Expectations
  import opened Allocator

  // ---------- the outside world of one reconcile ----------

  /** What one reconcile reads: the pools (direct), the allocations (cache), the hash of the name, the
      clock at each point where it is read, the router's answers, whether a condition changes in a field
      that is not modelled, and whether the store accepts the write. `stampAt` is the transition time as
      the store keeps it. */
  datatype Inputs = Inputs(pools: seq<Pool>, listed: seq<Allocation>, startHash: nat,
                           releaseAt: Time, confirmAt: Addr -> Time, stageAt: Time, stampAt: Time,
                           cleanupOk: bool, advertised: Option<string>, conditionsChanged: bool, writeOk: bool)

  datatype Write = NoWrite | AddFinalizer | RemoveFinalizer | SetStatus(status: Status)

  // ---------- choosing ----------

  function Others(listed: seq<Allocation>, uid: nat): seq<Allocation> {
    if listed == [] then []
    else Others(listed[..|listed| - 1], uid) + if listed[|listed| - 1].uid != uid then [listed[|listed| - 1]] else []
  }

  /** The first pool allowed by the spec that contains the address. */
  ghost function FirstHolder(pools: seq<Pool>, spec: AllocSpec, ip: Addr): Option<Choice> {
    if pools == [] then None
    else if MatchesSpec(pools[0], spec) && PoolHolds(pools[0], ip) then Some(Choice(ip, pools[0]))
    else FirstHolder(pools[1..], spec, ip)
  }

  ghost function Chosen(pools: seq<Pool>, spec: AllocSpec, hash: nat, used: set<Addr>): Option<Choice> {
    match spec.address
    case Empty => FirstFree(Candidates(pools, spec, hash), used)
    case Malformed => None
    case Parsed(ip) => if ip in used then None else FirstHolder(pools, spec, ip)
  }

  /** The allocation may take the address from the pool: its name and family are as asked for, and it holds it. */
  ghost predicate MayTake(p: Pool, spec: AllocSpec, ip: Addr) {
    && (spec.poolName == "" || spec.poolName == p.name)
    && (spec.family.None? || spec.family == Some(p.spec.family))
    && PoolHolds(p, ip)
  }

  /** A requested address comes from the first listed pool that it may be taken from. */
  lemma {:induction false} FirstHolderMeaning(pools: seq<Pool>, spec: AllocSpec, ip: Addr)
    ensures var found := FirstHolder(pools, spec, ip);
            && (found.None? <==> forall i :: 0 <= i < |pools| ==> !MayTake(pools[i], spec, ip))
            && (found.Some? ==> exists i :: 0 <= i < |pools| && found == Some(Choice(ip, pools[i])) && MayTake(pools[i], spec, ip) &&
                                  forall j :: 0 <= j < i ==> !MayTake(pools[j], spec, ip))
  {
    hide PoolHolds;
    if pools != [] {
      var rest := pools[1..];
      FirstHolderMeaning(rest, spec, ip);
      assert forall i :: 1 <= i < |pools| ==> pools[i] == rest[i - 1];
      if !MayTake(pools[0], spec, ip) && FirstHolder(rest, spec, ip).Some? {
        var i :| 0 <= i < |rest| && FirstHolder(rest, spec, ip) == Some(Choice(ip, rest[i])) && MayTake(rest[i], spec, ip) &&
          forall j :: 0 <= j < i ==> !MayTake(rest[j], spec, ip);
        assert pools[i + 1] == rest[i];
        assert forall j :: 1 <= j < i + 1 ==> pools[j] == rest[j - 1];
      }
    }
  }

  /** Whatever is chosen is not used. */
  lemma ChosenIsUnused(pools: seq<Pool>, spec: AllocSpec, hash: nat, used: set<Addr>)
    requires Chosen(pools, spec, hash, used).Some?
    ensures Chosen(pools, spec, hash, used).value.ip !in used
  {
    hide Candidates;
    match spec.address
    case Empty => FirstFreeMeaning(Candidates(pools, spec, hash), used);
    case Malformed =>
    case Parsed(ip) => FirstHolderMeaning(pools, spec, ip);
  }

  // ---------- status ----------

  function SetCondition(c: Option<Condition>, isTrue: bool, now: Time): Option<Condition> {
    if c.Some? && c.value.isTrue == isTrue then c else Some(Condition(isTrue, now))
  }

  function NextStatus(s: Status, choice: Option<Choice>, advertised: Option<string>, now: Time): Status {
    if choice.None? then
      if s.phase != Failed then Status(Failed, Empty, false, "", SetCondition(s.allocCond, false, now))
      else s.(allocCond := SetCondition(s.allocCond, false, now))
    else
      var c := choice.value;
      var s1 := if s.phase != Allocated || s.address != Parsed(c.ip)
                then Status(Allocated, Parsed(c.ip), c.pool.spec.advertise, c.pool.spec.interfaceName, s.allocCond)
                else s;
      var s2 := s1.(allocCond := SetCondition(s.allocCond, true, now));
      if !c.pool.spec.advertise then s2.(phase := Allocated)
      else if advertised.None? then s2
      else s2.(phase := Programmed, advertised := c.pool.spec.advertise, interfaceName := advertised.value)
  }

  predicate NeedsUpdate(s: Status, choice: Option<Choice>, advertised: Option<string>, conditionsChanged: bool) {
    || conditionsChanged
    || SetCondition(s.allocCond, choice.Some?, 0) != s.allocCond
    || (choice.None? && s.phase != Failed)
    || (choice.Some? && (s.phase != Allocated || s.address != Parsed(choice.value.ip)))
    || (choice.Some? && (!choice.value.pool.spec.advertise || advertised.Some?))
  }

  /** A reconcile that writes no status would have written the status it read. */
  lemma SkippedWriteChangesNothing(s: Status, choice: Option<Choice>, advertised: Option<string>, changed: bool, now: Time)
    requires !NeedsUpdate(s, choice, advertised, changed)
    ensures NextStatus(s, choice, advertised, now) == s
  {
  }

  /** A status the controller writes shows an address exactly when its phase says so. */
  predicate WellKept(s: Status) {
    && (s.phase in {Allocated, Programmed} <==> s.address.Parsed?)
    && (s.address.Parsed? <==> s.allocCond.Some? && s.allocCond.value.isTrue)
    && (s.phase in {Pending, Failed} ==> s.address == Empty)
  }

  lemma NextStatusWellKept(s: Status, choice: Option<Choice>, advertised: Option<string>, now: Time)
    requires WellKept(s)
    ensures var s' := NextStatus(s, choice, advertised, now);
            && WellKept(s')
            && (choice.Some? <==> s'.address.Parsed?)
            && (choice.Some? ==> s'.address == Parsed(choice.value.ip))
            && (choice.Some? ==> s'.allocCond.value.since == if ShowsSome(s) then s.allocCond.value.since else now)
  {
  }

  // ---------- the plan ----------

  datatype Effect = Effect(tracker: Tracker, write: Write)

  /** Releasing: stage the release of the shown address, remove the finalizer, and take the release back
      if the store refuses. */
  function PlannedRelease(t: Tracker, obj: Allocation, inp: Inputs): Effect {
    var shown := obj.status.phase in {Allocated, Programmed};
    if !obj.finalizer || (shown && (!obj.status.address.Parsed? || !inp.cleanupOk)) then Effect(t, NoWrite)
    else
      var ip := if shown then obj.status.address.addr else NoAddr;
      var staged := if ip.Addr? then ReleaseStaged(t, ip, inp.releaseAt) else t;
      Effect(if inp.writeOk then staged else ReleaseUnstaged(staged, ip, inp.releaseAt), RemoveFinalizer)
  }

  function UsedAddresses(t: Tracker, timeout: Time, obj: Allocation, inp: Inputs): map<Addr, Time> {
    Resolved(Confirmed(t, AllocTimes(inp.listed), inp.confirmAt, timeout), AllocTimes(Others(inp.listed, obj.uid)), obj.name)
  }

  ghost function PlannedChoice(t: Tracker, timeout: Time, obj: Allocation, inp: Inputs): Option<Choice> {
    Chosen(inp.pools, obj.spec, inp.startHash, UsedAddresses(t, timeout, obj, inp).Keys)
  }

  /** Allocating: confirm, resolve, choose, stage, write the status, and unstage if the store refuses. */
  ghost function PlannedAllocation(t: Tracker, timeout: Time, obj: Allocation, inp: Inputs): Effect {
    var t1 := Confirmed(t, AllocTimes(inp.listed), inp.confirmAt, timeout);
    var choice := PlannedChoice(t, timeout, obj, inp);
    var write := if NeedsUpdate(obj.status, choice, inp.advertised, inp.conditionsChanged)
                 then SetStatus(NextStatus(obj.status, choice, inp.advertised, inp.stampAt)) else NoWrite;
    if choice.None? then Effect(t1, write)
    else
      var p := IPAllocationPending(obj.name, choice.value.ip, inp.stageAt);
      Effect(if write.SetStatus? && !inp.writeOk then Unstaged(Staged(t1, p), p) else Staged(t1, p), write)
  }

  ghost function Planned(t: Tracker, timeout: Time, obj: Allocation, inp: Inputs): Effect {
    if obj.deleting then PlannedRelease(t, obj, inp)
    else if !obj.finalizer then Effect(t, AddFinalizer)
    else PlannedAllocation(t, timeout, obj, inp)
  }

  // ---------- what the plan comes to ----------

  /** The Allocated condition is as given; if it was before, it keeps its time. */
  predicate ConditionShows(s: Status, s': Status, isTrue: bool, stamp: Time) {
    s'.allocCond == if s.allocCond.Some? && s.allocCond.value.isTrue == isTrue then s.allocCond else Some(Condition(isTrue, stamp))
  }

  /** The status an allocation is left with by a pass that read status `s`, chose this, and had this answer from the router.
      It is Programmed exactly if the chosen pool is advertised and the router said where; an address it already had without
      being Programmed keeps what was said of it. */
  predicate Reflects(s: Status, s': Status, choice: Option<Choice>, router: Option<string>, stamp: Time) {
    match choice
    case None =>
      && s'.phase == Failed && ConditionShows(s, s', false, stamp)
      && (s.phase == Failed ==> s'.address == s.address && s'.advertised == s.advertised && s'.interfaceName == s.interfaceName)
      && (s.phase != Failed ==> s'.address == Empty && !s'.advertised && s'.interfaceName == "")
    case Some(c) =>
      var kept := s.phase == Allocated && s.address == Parsed(c.ip);
      && s'.address == Parsed(c.ip) && ConditionShows(s, s', true, stamp)
      && (s'.phase == Allocated || s'.phase == Programmed)
      && (s'.phase == Programmed <==> c.pool.spec.advertise && router.Some?)
      && (s'.phase == Programmed ==> s'.advertised && router == Some(s'.interfaceName))
      && (s'.phase == Allocated && kept ==> s'.advertised == s.advertised && s'.interfaceName == s.interfaceName)
      && (s'.phase == Allocated && !kept ==> s'.advertised == c.pool.spec.advertise && s'.interfaceName == c.pool.spec.interfaceName)
  }

  /** A pass leaves the allocation with a status that reflects its choice, whether it writes one or finds it there. It writes
      none exactly if no other condition changes, the status is that one already, and the router neither advertised the
      address nor had it taken back. */
  lemma PassReflects(t: Tracker, timeout: Time, obj: Allocation, inp: Inputs)
    requires !obj.deleting && obj.finalizer
    ensures var write, choice := Planned(t, timeout, obj, inp).write, PlannedChoice(t, timeout, obj, inp);
            && (write.SetStatus? || write == NoWrite)
            && Reflects(obj.status, if write.SetStatus? then write.status else obj.status, choice, inp.advertised, inp.stampAt)
            && (write == NoWrite <==> !inp.conditionsChanged && Reflects(obj.status, obj.status, choice, inp.advertised, inp.stampAt) &&
                                      (choice.Some? ==> choice.value.pool.spec.advertise && inp.advertised.None?))
  {
    hide PlannedChoice;
  }

  /** Only one status reflects a choice. */
  lemma ReflectsOnce(s: Status, a: Status, b: Status, choice: Option<Choice>, router: Option<string>, stamp: Time)
    requires Reflects(s, a, choice, router, stamp) && Reflects(s, b, choice, router, stamp)
    ensures a == b
  {
  }

  /** An allocation that is not protected yet is only given a finalizer, and no address. */
  lemma PassProtects(t: Tracker, timeout: Time, obj: Allocation, inp: Inputs)
    requires !obj.deleting
    ensures var e := Planned(t, timeout, obj, inp);
            (e.write == AddFinalizer <==> !obj.finalizer) && (e.write == AddFinalizer ==> e.tracker == t)
  {
    hide PlannedAllocation;
    if obj.finalizer { PassReflects(t, timeout, obj, inp); }
  }

  /** The addresses but one are as they were. */
  ghost predicate OthersKept(t: Tracker, t': Tracker, ip: Addr) {
    forall a :: a != ip ==> Lookup(t'.allocations, a) == Lookup(t.allocations, a) && Lookup(t'.releases, a) == Lookup(t.releases, a)
  }

  /** A deleted allocation that shows an address loses its finalizer only once the router has cleaned up; the address is
      then released, unless a newer reservation holds it. If the store refuses, neither release nor reservation is left. */
  lemma PassReleases(t: Tracker, timeout: Time, obj: Allocation, inp: Inputs, ip: Addr)
    requires obj.deleting && Coherent(t) && WellKept(obj.status) && obj.status.address == Parsed(ip) && ip.Addr?
    ensures var e := Planned(t, timeout, obj, inp);
            && (e.write == RemoveFinalizer || e.write == NoWrite)
            && (e.write == RemoveFinalizer <==> obj.finalizer && inp.cleanupOk)
            && OthersKept(t, e.tracker, ip)
            && if e.write == NoWrite || (ip in t.allocations && t.allocations[ip].allocatedAt > inp.releaseAt) then e.tracker == t
               else ip !in e.tracker.allocations && Lookup(e.tracker.releases, ip) == if inp.writeOk then Some(inp.releaseAt) else None
  {
  }

  /** One that shows none loses it at once, and with it no address. */
  lemma PassLetsGo(t: Tracker, timeout: Time, obj: Allocation, inp: Inputs)
    requires obj.deleting && WellKept(obj.status) && !obj.status.address.Parsed?
    ensures var e := Planned(t, timeout, obj, inp);
            && e.write == (if obj.finalizer then RemoveFinalizer else NoWrite)
            && OthersKept(t, e.tracker, NoAddr)
  {
  }

  lemma {:induction false} OthersListed(listed: seq<Allocation>, uid: nat, o: Allocation)
    ensures o in Others(listed, uid) <==> o in listed && o.uid != uid
  {
    if listed != [] {
      var k := |listed| - 1;
      OthersListed(listed[..k], uid, o);
      assert listed == listed[..k] + [listed[k]];
    }
  }

  /** A released address can be given out at once: to any other pass it is unused, as long as the cache it reads shows it
      allocated only from before the release. */
  lemma ReleasedIsFree(t: Tracker, timeout: Time, obj: Allocation, inp: Inputs, ip: Addr, at: Time)
    requires Coherent(t) && Releases(t, ip, at)
    requires forall i :: 0 <= i < |inp.listed| && Shows(inp.listed[i].status, ip) ==> inp.listed[i].status.allocCond.value.since < at
    ensures ip !in UsedAddresses(t, timeout, obj, inp)
  {
    hide AllocTimes, Resolved, Others;
    var seen, others := AllocTimes(inp.listed), Others(inp.listed, obj.uid);
    var t1 := Confirmed(t, seen, inp.confirmAt, timeout);
    ConfirmedCoherent(t, seen, inp.confirmAt, timeout);
    AllocTimesMeaning(inp.listed, ip);
    AllocTimesMeaning(others, ip);
    ResolvedExactly(t1, AllocTimes(others), obj.name, ip);
    if ip in AllocTimes(others) {
      var i :| 0 <= i < |others| && Shows(others[i].status, ip) && others[i].status.allocCond.value.since == AllocTimes(others)[ip];
      OthersListed(inp.listed, obj.uid, others[i]);
      var k :| 0 <= k < |inp.listed| && inp.listed[k] == others[i];
      assert Shows(inp.listed[k].status, ip);
    }
  }

  // ---------- the reconciler ----------

  class IPAllocationReconciler {
    const expectations: IPAllocationExpectations

    constructor (e: IPAllocationExpectations)
      ensures expectations == e
    {
      expectations := e;
    }

    /** `cached` is what the cache returns for the request; None if it is not found. */
    method Reconcile(cached: Option<Allocation>, inp: Inputs) returns (write: Write)
      requires inp.startHash <= Top(V6) && Coherent(expectations.Value())
      requires cached.Some? && cached.value.spec.address.Parsed? ==> IsValid(cached.value.spec.address.addr)
      modifies expectations
      ensures Coherent(expectations.Value())
      ensures cached.None? ==> write == NoWrite && expectations.Value() == old(expectations.Value())
      ensures cached.Some? ==>
                Effect(expectations.Value(), write) ==
                Planned(old(expectations.Value()), expectations.allocationTimeout, cached.value, inp)
    {
      if cached.None? {
        return NoWrite;
      }
      var alloc := cached.value;
      if alloc.deleting {
        write := Release(alloc, inp);
      } else if !alloc.finalizer {
        write := AddFinalizer;
      } else {
        write := Allocate(alloc, inp);
      }
    }

    method Release(alloc: Allocation, inp: Inputs) returns (write: Write)
      requires Coherent(expectations.Value())
      modifies expectations
      ensures Coherent(expectations.Value())
      ensures Effect(expectations.Value(), write) == PlannedRelease(old(expectations.Value()), alloc, inp)
    {
      if !alloc.finalizer {
        return NoWrite;
      }
      var ip := NoAddr;
      if alloc.status.phase == Allocated || alloc.status.phase == Programmed {
        if !alloc.status.address.Parsed? {
          return NoWrite;
        }
        ip := alloc.status.address.addr;
        if !inp.cleanupOk {
          return NoWrite;
        }
      }
      if ip.Addr? {
        expectations.StageRelease(ip, inp.releaseAt);
      }
      if !inp.writeOk {
        expectations.UnstageRelease(ip, inp.releaseAt);
      }
      return RemoveFinalizer;
    }

    method OtherAllocations(listed: seq<Allocation>, uid: nat) returns (others: seq<Allocation>)
      ensures others == Others(listed, uid)
    {
      others := [];
      for i := 0 to |listed|
        invariant others == Others(listed[..i], uid)
      {
        assert listed[..i + 1][..i] == listed[..i];
        if listed[i].uid != uid {
          others := others + [listed[i]];
        }
      }
      assert listed[..|listed|] == listed;
    }

    method FindHolder(pools: seq<Pool>, spec: AllocSpec, ip: Addr) returns (found: Option<Choice>)
      requires IsValid(ip)
      ensures found == FirstHolder(pools, spec, ip)
    {
      hide PoolHolds;
      assert pools[0..] == pools;
      for i := 0 to |pools|
        invariant FirstHolder(pools[i..], spec, ip) == FirstHolder(pools, spec, ip)
      {
        var p := pools[i];
        assert pools[i..][1..] == pools[i + 1..];
        if spec.poolName != "" && p.name != spec.poolName {
          continue;
        }
        if spec.family.Some? && p.spec.family != spec.family.value {
          continue;
        }
        var holds := Contains(p, ip);
        if holds {
          return Some(Choice(ip, p));
        }
      }
      return None;
    }

    /** The choice between a requested address and the dynamic search, ending with the address staged. */
    method ChooseAndStage(alloc: Allocation, inp: Inputs, used: map<Addr, Time>) returns (choice: Option<Choice>)
      requires inp.startHash <= Top(V6) && NoneRefused(expectations.Value(), used.Keys, alloc.name)
      requires alloc.spec.address.Parsed? ==> IsValid(alloc.spec.address.addr)
      modifies expectations
      ensures choice == Chosen(inp.pools, alloc.spec, inp.startHash, used.Keys)
      ensures expectations.Value() ==
              if choice.None? then old(expectations.Value())
              else Staged(old(expectations.Value()), IPAllocationPending(alloc.name, choice.value.ip, inp.stageAt))
    {
      hide FirstFree, Candidates, FirstHolder;
      match alloc.spec.address {
        case Malformed => return None;
        case Empty =>
          var found, _ := SearchDynamic(expectations, alloc.name, inp.stageAt, inp.pools, alloc.spec, inp.startHash, used);
          return found;
        case Parsed(reqIP) =>
          if reqIP in used {
            return None;
          }
          choice := FindHolder(inp.pools, alloc.spec, reqIP);
          FirstHolderMeaning(inp.pools, alloc.spec, reqIP);
          if choice.Some? {
            var ok := expectations.StageAllocation(IPAllocationPending(alloc.name, reqIP, inp.stageAt));
            if !ok {
              assert false;
            }
          }
      }
    }

    method Allocate(alloc: Allocation, inp: Inputs) returns (write: Write)
      requires inp.startHash <= Top(V6) && Coherent(expectations.Value())
      requires alloc.spec.address.Parsed? ==> IsValid(alloc.spec.address.addr)
      modifies expectations
      ensures Coherent(expectations.Value())
      ensures Effect(expectations.Value(), write) ==
              PlannedAllocation(old(expectations.Value()), expectations.allocationTimeout, alloc, inp)
    {
      hide Chosen, AllocTimes, Others, Resolved, Confirmed, Staged, Unstaged;
      ghost var t := expectations.Value();
      expectations.Confirm(inp.listed, inp.confirmAt);
      ConfirmedCoherent(t, AllocTimes(inp.listed), inp.confirmAt, expectations.allocationTimeout);
      var others := OtherAllocations(inp.listed, alloc.uid);
      var used := expectations.Resolve(others, alloc.name);
      NothingRefused(expectations.Value(), AllocTimes(others), alloc.name);
      ghost var t1 := expectations.Value();
      var choice := ChooseAndStage(alloc, inp, used);
      write := ComputeStatus(alloc.status, choice, inp);
      var staged := if choice.Some? then Some(IPAllocationPending(alloc.name, choice.value.ip, inp.stageAt)) else None;
      if write.SetStatus? && !inp.writeOk {
        if staged.Some? {
          expectations.UnstageAllocation(staged.value);
        }
      }
      if staged.Some? {
        StagedCoherent(t1, staged.value);
      }
    }

    /** The status phases of Reconcile, on a copy of the status. */
    method ComputeStatus(status: Status, choice: Option<Choice>, inp: Inputs) returns (write: Write)
      ensures write == if NeedsUpdate(status, choice, inp.advertised, inp.conditionsChanged)
                       then SetStatus(NextStatus(status, choice, inp.advertised, inp.stampAt)) else NoWrite
    {
      var s := status;
      var needsUpdate := false;
      if choice.None? {
        if s.phase != Failed {
          s := s.(phase := Failed, address := Empty, advertised := false, interfaceName := "");
          needsUpdate := true;
        }
      } else {
        var ip, pool := choice.value.ip, choice.value.pool;
        if s.phase != Allocated || s.address != Parsed(ip) {
          s := s.(phase := Allocated, address := Parsed(ip),
                  advertised := pool.spec.advertise, interfaceName := pool.spec.interfaceName);
          needsUpdate := true;
        }
      }
      if s.allocCond.None? || s.allocCond.value.isTrue != choice.Some? {
        s := s.(allocCond := Some(Condition(choice.Some?, inp.stampAt)));
        needsUpdate := true;
      }
      if choice.Some? {
        var pool := choice.value.pool;
        if pool.spec.advertise {
          if inp.advertised.Some? {
            s := s.(phase := Programmed, advertised := pool.spec.advertise, interfaceName := inp.advertised.value);
            needsUpdate := true;
          }
        } else {
          s := s.(phase := Allocated);
          needsUpdate := true;
        }
      }
      if inp.conditionsChanged {
        needsUpdate := true;
      }
      return if needsUpdate then SetStatus(s) else NoWrite;
    }
  }

  lemma ConfirmedCoherent(t: Tracker, seen: map<Addr, Time>, clock: Addr -> Time, timeout: Time)
    requires Coherent(t)
    ensures Coherent(Confirmed(t, seen, clock, timeout))
  {
  }

  lemma StagedCoherent(t: Tracker, p: IPAllocationPending)
    requires Coherent(t)
    ensures Coherent(Staged(t, p)) && Coherent(Unstaged(Staged(t, p), p))
  {
  }

  lemma NothingRefused(t: Tracker, cached: map<Addr, Time>, id: string)
    requires Coherent(t)
    ensures NoneRefused(t, Resolved(t, cached, id).Keys, id)
  {
    forall ip | ip in t.allocations && ip !in Resolved(t, cached, id) ensures t.allocations[ip].id == id {
      ResolvedExactly(t, cached, id, ip);
    }
  }
}
