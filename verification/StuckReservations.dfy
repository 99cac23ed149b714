/** When an address that no allocation holds can be given out again, and a run after which one never is. */
module StuckReservations {
  import opened Net
  import opened Pools
  import opened Kube
  import opened Expectations
  import opened Allocator
  import opened Reconciler
  import opened Protocol
  import opened StaleReads

  // ---------- when an address is free again ----------

  ghost predicate NobodyShows(listed: seq<Allocation>, ip: Addr) {
    forall i :: 0 <= i < |listed| ==> !Shows(listed[i].status, ip)
  }

  lemma {:induction false} OthersShowNothingOf(listed: seq<Allocation>, uid: nat, ip: Addr)
    requires NobodyShows(listed, ip)
    ensures NobodyShows(Others(listed, uid), ip)
  {
    if listed != [] {
      var k := |listed| - 1;
      OthersShowNothingOf(listed[..k], uid, ip);
    }
  }

  /** What keeps an address that no listed allocation shows from being given to an allocation is another one's
      reservation, and nothing else. */
  lemma FreeAgainIff(t: Tracker, timeout: Time, obj: Allocation, inp: Inputs, ip: Addr)
    requires Coherent(t) && NobodyShows(inp.listed, ip) && obj.name != ""
    ensures ip in UsedAddresses(t, timeout, obj, inp) <==> ip in t.allocations && t.allocations[ip].id != obj.name
  {
    hide AllocTimes, Resolved;
    var t1 := Confirmed(t, AllocTimes(inp.listed), inp.confirmAt, timeout);
    ConfirmedCoherent(t, AllocTimes(inp.listed), inp.confirmAt, timeout);
    AllocTimesMeaning(inp.listed, ip);
    OthersShowNothingOf(inp.listed, obj.uid, ip);
    AllocTimesMeaning(Others(inp.listed, obj.uid), ip);
    ResolvedExactly(t1, AllocTimes(Others(inp.listed, obj.uid)), obj.name, ip);
  }

  /** So an allocation that asks for such an address gets it exactly if no other name has it reserved and a pool it may
      use holds it. */
  lemma AskedForIsGivenIff(t: Tracker, timeout: Time, obj: Allocation, inp: Inputs, ip: Addr)
    requires Coherent(t) && NobodyShows(inp.listed, ip) && obj.name != "" && obj.spec.address == Parsed(ip)
    ensures PlannedChoice(t, timeout, obj, inp).Some? <==>
            !(ip in t.allocations && t.allocations[ip].id != obj.name) &&
            exists i :: 0 <= i < |inp.pools| && MayTake(inp.pools[i], obj.spec, ip)
  {
    hide UsedAddresses, MayTake;
    FreeAgainIff(t, timeout, obj, inp, ip);
    FirstHolderMeaning(inp.pools, obj.spec, ip);
  }

  // ---------- stuck ----------

  /** The name is gone, and nobody holds the address. */
  ghost predicate Unheld(st: Store, ip: Addr, name: string) {
    && name !in st
    && forall n :: n in st ==> n != "" && OtherAddress(st[n], ip) && st[n].name == n
  }

  /** The address is reserved for a name that is gone, and nobody holds it in any state the cache may still show. */
  ghost predicate Stuck(s: Sys, ip: Addr, name: string) {
    && Coherent(s.tracker) && s.cache < |s.history| && ReservedFor(s.tracker, name, ip)
    && forall j :: s.cache <= j < |s.history| ==> Unheld(s.history[j], ip, name)
  }

  predicate OtherAddress(o: Allocation, ip: Addr) {
    o.status.address != Parsed(ip)
  }

  lemma StagedLeavesIt(t: Tracker, p: IPAllocationPending, ip: Addr, name: string)
    requires Coherent(t) && ReservedFor(t, name, ip) && p.address != ip
    ensures Coherent(Staged(t, p)) && ReservedFor(Staged(t, p), name, ip)
    ensures Coherent(Unstaged(Staged(t, p), p)) && ReservedFor(Unstaged(Staged(t, p), p), name, ip)
  {
    hide Coherent;
    StagedCoherent(t, p);
  }

  lemma ConfirmedLeavesIt(t: Tracker, timeout: Time, inp: Inputs, ip: Addr, name: string)
    requires Coherent(t) && ReservedFor(t, name, ip) && NobodyShows(inp.listed, ip)
    ensures var t1 := Confirmed(t, AllocTimes(inp.listed), inp.confirmAt, timeout); Coherent(t1) && ReservedFor(t1, name, ip)
  {
    hide AllocTimes;
    AllocTimesMeaning(inp.listed, ip);
    ConfirmedCoherent(t, AllocTimes(inp.listed), inp.confirmAt, timeout);
  }

  /** The plan of any other allocation leaves the reservation alone and writes no status with the address. */
  lemma PlanLeavesIt(t: Tracker, timeout: Time, obj: Allocation, inp: Inputs, ip: Addr, name: string)
    requires Coherent(t) && ReservedFor(t, name, ip) && obj.name != name && obj.name != "" && OtherAddress(obj, ip)
    requires NobodyShows(inp.listed, ip)
    ensures var e := Planned(t, timeout, obj, inp);
            && Coherent(e.tracker) && ReservedFor(e.tracker, name, ip)
            && (e.write.SetStatus? ==> e.write.status.address != Parsed(ip))
  {
    hide UsedAddresses, AllocTimes, Chosen, Confirmed, Staged, Unstaged, Coherent, NobodyShows;
    if obj.deleting {
      ReleaseLeavesIt(t, obj, inp, ip, name);
    } else if obj.finalizer {
      ConfirmedLeavesIt(t, timeout, inp, ip, name);
      FreeAgainIff(t, timeout, obj, inp, ip);
      var choice := PlannedChoice(t, timeout, obj, inp);
      if choice.Some? {
        ChosenIsUnused(inp.pools, obj.spec, inp.startHash, UsedAddresses(t, timeout, obj, inp).Keys);
        StagedLeavesIt(Confirmed(t, AllocTimes(inp.listed), inp.confirmAt, timeout),
                       IPAllocationPending(obj.name, choice.value.ip, inp.stageAt), ip, name);
      }
    }
  }

  lemma ReleaseLeavesIt(t: Tracker, obj: Allocation, inp: Inputs, ip: Addr, name: string)
    requires Coherent(t) && ReservedFor(t, name, ip) && OtherAddress(obj, ip)
    ensures var e := PlannedRelease(t, obj, inp); Coherent(e.tracker) && ReservedFor(e.tracker, name, ip) && !e.write.SetStatus?
  {
  }

  /** Steps that do not create the name again. */
  ghost predicate NotAgain(l: Label, name: string) {
    match l
    case Env(change) => change.Create? ==> change.obj.name != name && change.obj.name != ""
    case _ => true
  }

  lemma LandedUnheld(st: Store, obj: Allocation, write: Write, version: nat, ip: Addr, name: string)
    requires Unheld(st, ip, name) && obj.name != "" && obj.name != name && OtherAddress(obj, ip)
    requires write.SetStatus? ==> write.status.address != Parsed(ip)
    ensures var landed := Landed(st, obj, write, version); landed.Some? ==> Unheld(landed.value, ip, name)
  {
  }

  lemma EnvUnheld(s: Sys, s': Sys, change: EnvChange, ip: Addr, name: string)
    requires s.history != [] && EnvStep(s, s', change) && NotAgain(Env(change), name) && Unheld(Latest(s), ip, name)
    ensures Unheld(Latest(s'), ip, name) && s'.history == s.history + [Latest(s')]
  {
    hide Fresh;
  }

  lemma ReconcileStaysStuck(s: Sys, n: string, inp: Inputs, s': Sys, timeout: Time, d: Demand, ip: Addr, name: string)
    requires Stuck(s, ip, name) && s.history != [] && ReconcileStep(s, s', timeout, n, inp, d)
    ensures Stuck(s', ip, name)
  {
    hide Planned, Lists, Meets, ClockOk, Coherent, Landed, ChangesStore;
    var obj := s.history[s.cache][n];
    assert Unheld(s.history[s.cache], ip, name);
    ListedOthers(s.history[s.cache], inp.listed, ip);
    PlanLeavesIt(s.tracker, timeout, obj, inp, ip, name);
    LandedUnheld(Latest(s), obj, Planned(s.tracker, timeout, obj, inp).write, |s.history|, ip, name);
    hide Unheld, OtherAddress;
  }

  lemma StaysStuck(s: Sys, l: Label, s': Sys, timeout: Time, d: Demand, ip: Addr, name: string)
    requires Stuck(s, ip, name) && Step(s, l, s', timeout, d) && NotAgain(l, name)
    ensures Stuck(s', ip, name)
  {
    hide ReconcileStep, Unheld, Coherent, NotAgain;
    match l
    case Reconcile(n, inp) => ReconcileStaysStuck(s, n, inp, s', timeout, d, ip, name);
    case Env(change) => EnvUnheld(s, s', change, ip, name);
    case Advance =>
  }

  lemma ListedOthers(st: Store, listed: seq<Allocation>, ip: Addr)
    requires Lists(st, listed) && forall n :: n in st ==> OtherAddress(st[n], ip)
    ensures NobodyShows(listed, ip)
  {
    forall i | 0 <= i < |listed| ensures !Shows(listed[i].status, ip) {
      assert listed[i] in listed;
    }
  }

  /** Once stuck, and unless an allocation of that name is created again, no allocation ever gets the address: not in
      any later state of any run, however fresh the cache. */
  lemma {:induction false} StuckForGood(states: seq<Sys>, labels: seq<Label>, timeout: Time, d: Demand, ip: Addr, name: string)
    requires |states| == |labels| + 1 && Stuck(states[0], ip, name)
    requires forall i :: 0 <= i < |labels| ==> Step(states[i], labels[i], states[i + 1], timeout, d) && NotAgain(labels[i], name)
    ensures Stuck(states[|labels|], ip, name)
    ensures forall n :: !HoldsAt(Last(states[|labels|].history), n, ip)
  {
    hide Step, Stuck, NotAgain;
    var k := |labels|;
    if k > 0 {
      StuckForGood(states[..k], labels[..k - 1], timeout, d, ip, name);
      StaysStuck(states[k - 1], labels[k - 1], states[k], timeout, d, ip, name);
    }
    NobodyHolds(states[k], ip, name);
  }

  lemma NobodyHolds(s: Sys, ip: Addr, name: string)
    requires Stuck(s, ip, name)
    ensures forall n :: !HoldsAt(Last(s.history), n, ip)
  {
  }

  // ---------- a run that ends stuck ----------

  const FAILED := Status(Failed, Empty, false, "", Some(Condition(false, 3)))
  const A1 := A.(status := Given(1), version := 1)
  const A2 := A1.(version := 2)
  const A3 := A2.(status := FAILED, version := 3)
  const A4 := A3.(deleting := true, version := 4)
  const S0: Store := map["a" := A]
  const S1: Store := map["a" := A1]
  const S2: Store := map["a" := A2]
  const S3: Store := map["a" := A3]
  const S4: Store := map["a" := A4]
  const S5: Store := map[]

  /** The pass finds no pool any more. */
  function NoPools(listed: seq<Allocation>, now: Time): Inputs {
    At(listed, now, true).(pools := [])
  }

  const RUN0 := Sys([S0], 0, NONE, 0, map[], map[])
  const RUN1 := Sys([S0, S1], 0, Reserved("a", 1), 1, map[1 := 1], map[1 := 1])
  const RUN2 := RUN1.(cache := 1)
  const RUN3 := Sys([S0, S1, S2], 1, Reserved("a", 2), 2, map[1 := 2], map[1 := 2])
  const RUN4 := RUN3.(cache := 2)
  const RUN5 := Sys([S0, S1, S2, S3], 2, Reserved("a", 2), 3, map[1 := 3], map[1 := 3])
  const RUN6 := Sys([S0, S1, S2, S3, S4], 2, Reserved("a", 2), 3, map[1 := 3], map[1 := 3])
  const RUN7 := RUN6.(cache := 4)
  const RUN8 := Sys([S0, S1, S2, S3, S4, S5], 4, Reserved("a", 2), 4, map[1 := 5], map[1 := 3])
  const RUN9 := RUN8.(cache := 5)

  lemma OneListed(o: Allocation)
    requires o.name == "a"
    ensures Lists(map["a" := o], [o])
  {
    assert [o][0] == o;
  }

  lemma Run1()
    ensures Step(RUN0, Reconcile("a", At([A], 1, true)), RUN1, TIMEOUT, OwnWritesSeen)
  {
    hide AllocTimes, UsedAddresses, Confirmed, Step;
    OneListed(A);
    NothingShown(NONE, A, At([A], 1, true));
    assert S0["a" := A1] == S1;
    TakingStep(RUN0, RUN1, A, [A], true, OwnWritesSeen);
  }

  lemma ShowsOne(o: Allocation, uid: nat)
    ensures AllocTimes([o]) == (if ShowsSome(o.status) then map[o.status.address.addr := o.status.allocCond.value.since] else map[])
    ensures Others([o], o.uid) == [] && AllocTimes([]) == map[]
  {
    assert [o][..0] == [];
  }

  /** The allocation is confirmed, and reserves its address anew; its condition keeps its time. */
  lemma Run3Plan()
    ensures Planned(Reserved("a", 1), TIMEOUT, A1, At([A1], 2, true)) == Effect(Reserved("a", 2), SetStatus(Given(1)))
  {
    hide PoolHolds, AllocTimes, Resolved;
    var inp := At([A1], 2, true);
    ShowsOne(A1, 1);
    var t1 := Confirmed(Reserved("a", 1), map[IP := 1], inp.confirmAt, TIMEOUT);
    assert t1 == NONE;
    ResolvedExactly(t1, map[], "a", IP);
    PoolHoldsIP();
    assert Chosen(inp.pools, A1.spec, inp.startHash, UsedAddresses(Reserved("a", 1), TIMEOUT, A1, inp).Keys).Some?;
    FirstHolderMeaning(inp.pools, A1.spec, IP);
  }

  lemma Run3()
    ensures Step(RUN2, Reconcile("a", At([A1], 2, true)), RUN3, TIMEOUT, OwnWritesSeen)
  {
    hide Planned, Lists;
    OneListed(A1);
    Run3Plan();
    assert S1["a" := A2] == S2;
  }

  /** The reservation is newer than what is shown, so it is not confirmed; and failing does not release it. */
  lemma Run5Plan()
    ensures Planned(Reserved("a", 2), TIMEOUT, A2, NoPools([A2], 3)) == Effect(Reserved("a", 2), SetStatus(FAILED))
  {
    hide PoolHolds, AllocTimes, UsedAddresses;
    var inp := NoPools([A2], 3);
    ShowsOne(A2, 1);
    assert Confirmed(Reserved("a", 2), map[IP := 1], inp.confirmAt, TIMEOUT) == Reserved("a", 2);
  }

  lemma Run5()
    ensures Step(RUN4, Reconcile("a", NoPools([A2], 3)), RUN5, TIMEOUT, OwnWritesSeen)
  {
    hide Planned, Lists;
    OneListed(A2);
    Run5Plan();
    assert S2["a" := A3] == S3;
  }

  lemma Run6()
    ensures Step(RUN5, Env(EnvChange.Delete("a")), RUN6, TIMEOUT, OwnWritesSeen)
  {
    assert S3["a" := A4] == S4;
  }

  /** A failed allocation shows no address, so its deletion releases none. */
  lemma Run8()
    ensures Step(RUN7, Reconcile("a", At([A4], 4, true)), RUN8, TIMEOUT, OwnWritesSeen)
  {
    hide Lists, PlannedAllocation;
    OneListed(A4);
    assert S4 - {"a"} == S5;
  }

  lemma Advances()
    ensures Step(RUN1, Advance, RUN2, TIMEOUT, OwnWritesSeen) && Step(RUN3, Advance, RUN4, TIMEOUT, OwnWritesSeen)
    ensures Step(RUN6, Advance, RUN7, TIMEOUT, OwnWritesSeen) && Step(RUN8, Advance, RUN9, TIMEOUT, OwnWritesSeen)
  {
  }

  lemma RunStarts()
    ensures Start(RUN0)
  {
  }

  /** `a` takes the address and is reconciled once more, fails for want of a pool, and is deleted. Every pass sees the own
      writes. The store is empty, and the address is stuck. */
  lemma FailedAllocationGetsStuck() returns (states: seq<Sys>, labels: seq<Label>)
    ensures SysRun(states, labels, TIMEOUT, OwnWritesSeen)
    ensures Stuck(states[|labels|], IP, "a") && Last(states[|labels|].history) == map[]
  {
    hide Step, Start;
    RunStarts();
    Run1();
    Run3();
    Run5();
    Run6();
    Run8();
    Advances();
    states := [RUN0, RUN1, RUN2, RUN3, RUN4, RUN5, RUN6, RUN7, RUN8, RUN9];
    labels := [Reconcile("a", At([A], 1, true)), Advance, Reconcile("a", At([A1], 2, true)), Advance, Reconcile("a", NoPools([A2], 3)),
               Env(EnvChange.Delete("a")), Advance, Reconcile("a", At([A4], 4, true)), Advance];
  }
}
