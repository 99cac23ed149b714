/** Two runs that end with one address held twice: what the demand of AddressesStayUnique is for. */
module StaleReads {
  import opened Net
  import opened IPRangeSets
  import opened Cidr
  import opened Pools
  import opened Kube
  import opened Expectations
  import opened Reconciler
  import opened Protocol

  const IP := Addr(V4, 10)
  const POOL := Pool("p", PoolSpec([PoolEntry(false, Single(IP))], V4, true, false, false, ""))
  const TIMEOUT: Time := 1000

  function Waiting(name: string, uid: nat): Allocation {
    Allocation(name, uid, 0, true, false, AllocSpec(Parsed(IP), "", None), Status(Pending, Empty, false, "", None))
  }

  function Given(since: Time): Status {
    Status(Allocated, Parsed(IP), false, "", Some(Condition(true, since)))
  }

  function At(listed: seq<Allocation>, now: Time, writeOk: bool): Inputs {
    Inputs([POOL], listed, 0, now, _ => now, now, now, true, None, false, writeOk)
  }

  lemma PoolHoldsIP()
    ensures PoolHolds(POOL, IP)
  {
    var es, r := POOL.spec.addresses, IPRange(IP, IP);
    assert es[..0] == [];
    assert Gather([], V4, false, false) == [] && Gather([], V4, false, true) == [];
    assert Gather(es, V4, false, false) == [r] && Gather(es, V4, false, true) == [];
    MergedNormalForm(V4, [r]);
    MergedEmpty();
    assert PoolRanges(POOL) == [r];
    assert Inside([r][0], IP.value);
  }

  /** A waiting allocation that finds the address unused takes it. */
  lemma Takes(t: Tracker, obj: Allocation, inp: Inputs)
    requires obj == Waiting(obj.name, obj.uid) && inp.pools == [POOL] && !inp.conditionsChanged
    requires IP !in UsedAddresses(t, TIMEOUT, obj, inp)
    ensures var t1 := Confirmed(t, AllocTimes(inp.listed), inp.confirmAt, TIMEOUT);
            var p := IPAllocationPending(obj.name, IP, inp.stageAt);
            Planned(t, TIMEOUT, obj, inp) ==
            Effect(if inp.writeOk then Staged(t1, p) else Unstaged(Staged(t1, p), p), SetStatus(Given(inp.stampAt)))
  {
    hide PoolHolds, UsedAddresses;
    PoolHoldsIP();
  }

  /** With nothing shown and nothing reserved for others, the address is unused and Confirm does nothing. */
  lemma NothingShown(t: Tracker, obj: Allocation, inp: Inputs)
    requires Coherent(t) && t.releases == map[]
    requires forall i :: 0 <= i < |inp.listed| ==> !ShowsSome(inp.listed[i].status)
    requires obj.name != "" && forall ip :: ip in t.allocations ==> t.allocations[ip].id == obj.name
    ensures IP !in UsedAddresses(t, TIMEOUT, obj, inp)
    ensures Confirmed(t, AllocTimes(inp.listed), inp.confirmAt, TIMEOUT) == t
  {
    ShowsNothing(inp.listed);
    var t1 := Confirmed(t, map[], inp.confirmAt, TIMEOUT);
    assert t1 == t;
    var others := Others(inp.listed, obj.uid);
    OthersShowNothing(inp.listed, obj.uid);
    ShowsNothing(others);
    ResolvedExactly(t, map[], obj.name, IP);
  }

  lemma {:induction false} ShowsNothing(listed: seq<Allocation>)
    requires forall i :: 0 <= i < |listed| ==> !ShowsSome(listed[i].status)
    ensures AllocTimes(listed) == map[]
  {
    if listed != [] { ShowsNothing(listed[..|listed| - 1]); }
  }

  lemma {:induction false} OthersShowNothing(listed: seq<Allocation>, uid: nat)
    requires forall i :: 0 <= i < |listed| ==> !ShowsSome(listed[i].status)
    ensures forall i :: 0 <= i < |Others(listed, uid)| ==> !ShowsSome(Others(listed, uid)[i].status)
  {
    if listed != [] { OthersShowNothing(listed[..|listed| - 1], uid); }
  }

  /** A reconcile in which a waiting allocation takes the address, or tries to and is refused the write. */
  lemma TakingStep(s: Sys, s': Sys, obj: Allocation, listed: seq<Allocation>, ok: bool, d: Demand)
    requires s.history != [] && s.cache < |s.history| && obj == Waiting(obj.name, obj.uid)
    requires obj.name in s.history[s.cache] && s.history[s.cache][obj.name] == obj && Lists(s.history[s.cache], listed)
    requires Meets(s, obj.uid, d) && s.now < s'.now && s'.cache == s.cache
    requires var inp := At(listed, s'.now, ok);
             var t1 := Confirmed(s.tracker, AllocTimes(listed), inp.confirmAt, TIMEOUT);
             var p := IPAllocationPending(obj.name, IP, s'.now);
             && IP !in UsedAddresses(s.tracker, TIMEOUT, obj, inp)
             && s'.tracker == if ok then Staged(t1, p) else Unstaged(Staged(t1, p), p)
    requires if ok then
               var k := |s.history|;
               && obj.name in Latest(s) && Latest(s)[obj.name] == obj
               && s'.history == s.history + [Latest(s)[obj.name := obj.(status := Given(s'.now), version := k)]]
               && s'.own == s.own[obj.uid := k] && s'.ownStatus == s.ownStatus[obj.uid := k]
             else s'.history == s.history && s'.own == s.own && s'.ownStatus == s.ownStatus
    ensures Step(s, Reconcile(obj.name, At(listed, s'.now, ok)), s', TIMEOUT, d)
  {
    hide Planned, UsedAddresses, Confirmed, AllocTimes, Staged, Unstaged;
    Takes(s.tracker, obj, At(listed, s'.now, ok));
  }

  const NONE := Tracker(map[], map[])
  const A := Waiting("a", 1)
  const B := Waiting("b", 2)
  const C := Waiting("c", 3)

  function Reserved(name: string, at: Time): Tracker {
    Tracker(map[IP := IPAllocationPending(name, IP, at)], map[])
  }

  // ---------- a failed re-stage ----------

  const STORE0: Store := map["a" := A, "b" := B]
  const STORE1: Store := STORE0["a" := A.(status := Given(1), version := 1)]
  const STORE2: Store := STORE1["b" := B.(status := Given(3), version := 2)]
  const RESTAGE0 := Sys([STORE0], 0, NONE, 0, map[], map[])
  const RESTAGE1 := Sys([STORE0, STORE1], 0, Reserved("a", 1), 1, map[1 := 1], map[1 := 1])
  const RESTAGE2 := Sys([STORE0, STORE1], 0, NONE, 2, map[1 := 1], map[1 := 1])
  const RESTAGE3 := Sys([STORE0, STORE1, STORE2], 0, Reserved("b", 3), 3, map[1 := 1, 2 := 2], map[1 := 1, 2 := 2])

  lemma BothListed()
    ensures Lists(STORE0, [A, B])
  {
    assert [A, B][0] == A && [A, B][1] == B;
  }

  lemma Restage1()
    ensures Step(RESTAGE0, Reconcile("a", At([A, B], 1, true)), RESTAGE1, TIMEOUT, OwnRemovalSeen)
  {
    hide AllocTimes, UsedAddresses, Confirmed, Step;
    BothListed();
    NothingShown(NONE, A, At([A, B], 1, true));
    TakingStep(RESTAGE0, RESTAGE1, A, [A, B], true, OwnRemovalSeen);
  }

  lemma Restage2()
    ensures Step(RESTAGE1, Reconcile("a", At([A, B], 2, false)), RESTAGE2, TIMEOUT, OwnRemovalSeen)
  {
    hide AllocTimes, UsedAddresses, Confirmed, Step;
    BothListed();
    NothingShown(Reserved("a", 1), A, At([A, B], 2, false));
    var p := IPAllocationPending("a", IP, 2);
    assert Unstaged(Staged(Reserved("a", 1), p), p) == NONE;
    TakingStep(RESTAGE1, RESTAGE2, A, [A, B], false, OwnRemovalSeen);
  }

  lemma Restage3()
    ensures Step(RESTAGE2, Reconcile("b", At([A, B], 3, true)), RESTAGE3, TIMEOUT, OwnRemovalSeen)
  {
    hide AllocTimes, UsedAddresses, Confirmed, Step;
    BothListed();
    NothingShown(NONE, B, At([A, B], 3, true));
    TakingStep(RESTAGE2, RESTAGE3, B, [A, B], true, OwnRemovalSeen);
  }

  /** `a` takes the address; reconciled again before the cache shows that, it takes it once more, the store
      refuses the outdated status, and unstaging drops the reservation outright; then `b` takes it too.
      Every own removal of a finalizer is seen (there is none), so seeing those alone is not enough. */
  lemma FailedRestageDuplicates() returns (states: seq<Sys>, labels: seq<Label>)
    ensures SysRun(states, labels, TIMEOUT, OwnRemovalSeen)
    ensures states[|labels|].history != [] && !UniqueAddresses(Latest(states[|labels|]))
  {
    hide Step;
    Restage1();
    Restage2();
    Restage3();
    assert Start(RESTAGE0);
    states := [RESTAGE0, RESTAGE1, RESTAGE2, RESTAGE3];
    labels := [Reconcile("a", At([A, B], 1, true)), Reconcile("a", At([A, B], 2, false)), Reconcile("b", At([A, B], 3, true))];
    assert HoldsAt(STORE2, "a", IP) && HoldsAt(STORE2, "b", IP);
  }

  // ---------- a repeated release ----------

  const LEAVING := A.(status := Given(0), deleting := true)
  const RELEASED := Tracker(map[], map[IP := 1])
  const FULL0: Store := map["a" := LEAVING, "b" := B, "c" := C]
  const FULL1: Store := map["b" := B, "c" := C]
  const FULL2: Store := FULL1["b" := B.(status := Given(2), version := 2)]
  const FULL3: Store := FULL2["c" := C.(status := Given(5), version := 3)]
  const REPEAT0 := Sys([FULL0], 0, NONE, 0, map[], map[])
  const REPEAT1 := Sys([FULL0, FULL1], 0, RELEASED, 1, map[1 := 1], map[])
  const REPEAT2 := Sys([FULL0, FULL1, FULL2], 0, Reserved("b", 2), 2, map[1 := 1, 2 := 2], map[2 := 2])
  const REPEAT3 := REPEAT2.(tracker := NONE, now := 3)
  const REPEAT4 := REPEAT3.(cache := 1, now := 4)
  const REPEAT5 := Sys([FULL0, FULL1, FULL2, FULL3], 1, Reserved("c", 5), 5, map[1 := 1, 2 := 2, 3 := 3], map[2 := 2, 3 := 3])

  lemma AllListed()
    ensures Lists(FULL0, [LEAVING, B, C]) && Lists(FULL1, [B, C])
  {
    assert [LEAVING, B, C][0] == LEAVING && [LEAVING, B, C][1] == B && [LEAVING, B, C][2] == C;
    assert [B, C][0] == B && [B, C][1] == C;
  }

  lemma Repeat1()
    ensures Step(REPEAT0, Reconcile("a", At([LEAVING, B, C], 1, true)), REPEAT1, TIMEOUT, OwnStatusSeen)
  {
    hide AllocTimes, PlannedAllocation, Lists;
    AllListed();
    assert FULL0 - {"a"} == FULL1;
  }

  /** The staged release hides the outdated holder from b, and survives b's Confirm. */
  lemma SuppressedByRelease(inp: Inputs)
    requires inp == At([LEAVING, B, C], 2, true)
    ensures IP !in UsedAddresses(RELEASED, TIMEOUT, B, inp)
    ensures Confirmed(RELEASED, AllocTimes(inp.listed), inp.confirmAt, TIMEOUT) == RELEASED
  {
    hide Resolved;
    var all := inp.listed;
    assert AllocTimes([LEAVING]) == map[IP := 0] by { assert [LEAVING][..0] == []; }
    assert AllocTimes([LEAVING, B]) == map[IP := 0] by { assert [LEAVING, B][..1] == [LEAVING]; }
    assert AllocTimes(all) == map[IP := 0] by { assert all[..2] == [LEAVING, B]; }
    assert Others([LEAVING], 2) == [LEAVING] by { assert [LEAVING][..0] == []; }
    assert Others([LEAVING, B], 2) == [LEAVING] by { assert [LEAVING, B][..1] == [LEAVING]; }
    assert Others(all, 2) == [LEAVING, C] by { assert all[..2] == [LEAVING, B]; }
    assert AllocTimes([LEAVING, C]) == map[IP := 0] by { assert [LEAVING, C][..1] == [LEAVING]; }
    var t1 := Confirmed(RELEASED, map[IP := 0], inp.confirmAt, TIMEOUT);
    assert t1.allocations == map[] && t1.releases == map[IP := 1];
    ResolvedExactly(RELEASED, map[IP := 0], "b", IP);
  }

  lemma Repeat2()
    ensures Step(REPEAT1, Reconcile("b", At([LEAVING, B, C], 2, true)), REPEAT2, TIMEOUT, OwnStatusSeen)
  {
    hide AllocTimes, UsedAddresses, Confirmed, Step, Lists;
    AllListed();
    SuppressedByRelease(At([LEAVING, B, C], 2, true));
    assert Staged(RELEASED, IPAllocationPending("b", IP, 2)) == Reserved("b", 2);
    TakingStep(REPEAT1, REPEAT2, B, [LEAVING, B, C], true, OwnStatusSeen);
  }

  lemma Repeat3()
    ensures Step(REPEAT2, Reconcile("a", At([LEAVING, B, C], 3, false)), REPEAT3, TIMEOUT, OwnStatusSeen)
  {
    hide AllocTimes, PlannedAllocation, Lists;
    AllListed();
    assert ReleaseUnstaged(ReleaseStaged(Reserved("b", 2), IP, 3), IP, 3) == NONE;
  }

  lemma Repeat4()
    ensures Step(REPEAT3, Advance, REPEAT4, TIMEOUT, OwnStatusSeen)
  {
  }

  lemma RepeatStart()
    ensures Start(REPEAT0)
  {
  }

  lemma Repeat5()
    ensures Step(REPEAT4, Reconcile("c", At([B, C], 5, true)), REPEAT5, TIMEOUT, OwnStatusSeen)
  {
    hide AllocTimes, UsedAddresses, Confirmed, Step, Lists, PoolHolds, Resolved, ParsedRanges, EntryRange;
    AllListed();
    NothingShown(NONE, C, At([B, C], 5, true));
    TakingStep(REPEAT4, REPEAT5, C, [B, C], true, OwnStatusSeen);
  }

  /** `a` is released and `b` takes the address; reconciled again from a cache that does not show the
      removed finalizer, `a` stages its release a second time, which drops the reservation of `b`; then `c`
      takes the address too. Every allocation is reconciled from a cache that shows its own last status
      write, so seeing the status writes alone is not enough. */
  lemma RepeatedReleaseDuplicates() returns (states: seq<Sys>, labels: seq<Label>)
    ensures SysRun(states, labels, TIMEOUT, OwnStatusSeen)
    ensures states[|labels|].history != [] && !UniqueAddresses(Latest(states[|labels|]))
  {
    hide Step, Start;
    RepeatStart();
    Repeat1();
    Repeat2();
    Repeat3();
    Repeat4();
    Repeat5();
    states := [REPEAT0, REPEAT1, REPEAT2, REPEAT3, REPEAT4, REPEAT5];
    labels := [Reconcile("a", At([LEAVING, B, C], 1, true)), Reconcile("b", At([LEAVING, B, C], 2, true)),
               Reconcile("a", At([LEAVING, B, C], 3, false)), Advance, Reconcile("c", At([B, C], 5, true))];
    assert HoldsAt(FULL3, "b", IP) && HoldsAt(FULL3, "c", IP);
  }
}
