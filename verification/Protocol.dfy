/** The store, the lagging cache and the tracker as one system, and uniqueness of addresses over its runs. */
module Protocol {
  import opened Net
  import opened Kube
  import opened Expectations
  import opened Allocator
  import opened Reconciler

  // ---------- states ----------

  /** The allocations by name. */
  type Store = map<string, Allocation>

  /** `history` holds every state of the store, newest last; the cache shows history[cache]. `now` is a
      bound on every clock reading so far. `own` records, for each uid, where in the history the controller last
      wrote the allocation's status or removed its finalizer, and `ownStatus` where it last wrote the status. */
  datatype Sys = Sys(history: seq<Store>, cache: nat, tracker: Tracker, now: Time,
                     own: map<nat, nat>, ownStatus: map<nat, nat>)

  function Last(history: seq<Store>): Store
    requires history != []
  {
    history[|history| - 1]
  }

  /** The store as it is. */
  function Latest(s: Sys): Store
    requires s.history != []
  {
    Last(s.history)
  }

  function IndexOf(own: map<nat, nat>, uid: nat): nat {
    if uid in own then own[uid] else 0
  }

  predicate HoldsAt(st: Store, n: string, ip: Addr) {
    n in st && st[n].status.address == Parsed(ip)
  }

  /** No two stored allocations hold the same address. */
  ghost predicate UniqueAddresses(st: Store) {
    forall n, m, ip :: HoldsAt(st, n, ip) && HoldsAt(st, m, ip) ==> n == m
  }

  // ---------- steps ----------

  /** What is demanded of the cache when an allocation is reconciled: that it shows the controller's own last write
      to it if that removed the finalizer, that it shows the own last status write, or both. */
  datatype Demand = OwnRemovalSeen | OwnStatusSeen | OwnWritesSeen

  predicate Meets(s: Sys, uid: nat, d: Demand) {
    match d
    case OwnRemovalSeen => IndexOf(s.own, uid) == IndexOf(s.ownStatus, uid) || IndexOf(s.own, uid) <= s.cache
    case OwnStatusSeen => IndexOf(s.ownStatus, uid) <= s.cache
    case OwnWritesSeen => IndexOf(s.own, uid) <= s.cache
  }

  /** The cache lists exactly the allocations of a store state, in some order. */
  ghost predicate Lists(st: Store, listed: seq<Allocation>) {
    && (forall n :: n in st ==> st[n] in listed)
    && (forall a :: a in listed ==> a.name in st && st[a.name] == a)
  }

  /** The clock strictly increases from step to step; a stored transition time may be rounded down. */
  predicate ClockOk(before: Time, inp: Inputs, after: Time) {
    before < inp.stageAt <= after && before < inp.releaseAt <= after && inp.stampAt <= after
  }

  /** The store after a write of the reconcile of `obj` that it accepts; None if it cannot accept it. A
      status update carries the version it was read with; a finalizer patch addresses the name only. */
  function Landed(st: Store, obj: Allocation, write: Write, version: nat): Option<Store> {
    if obj.name !in st then None
    else
      var cur := st[obj.name];
      match write
      case NoWrite => Some(st)
      case AddFinalizer => Some(st[obj.name := cur.(finalizer := true, version := version)])
      case RemoveFinalizer =>
        if cur.deleting then Some(st - {obj.name}) else Some(st[obj.name := cur.(finalizer := false, version := version)])
      case SetStatus(status) =>
        if cur != obj then None else Some(st[obj.name := cur.(status := status, version := version)])
  }

  /** A patch that changes nothing makes no new store state. */
  predicate ChangesStore(st: Store, obj: Allocation, write: Write) {
    match write
    case NoWrite => false
    case AddFinalizer => obj.name in st && !st[obj.name].finalizer
    case RemoveFinalizer => obj.name in st && st[obj.name].finalizer
    case SetStatus(_) => true
  }

  ghost predicate ReconcileStep(s: Sys, s': Sys, timeout: Time, n: string, inp: Inputs, d: Demand)
    requires s.history != [] && s.cache < |s.history|
  {
    && n in s.history[s.cache]
    && var obj := s.history[s.cache][n];
       var effect := Planned(s.tracker, timeout, obj, inp);
       var landed := Landed(Latest(s), obj, effect.write, |s.history|);
       && Meets(s, obj.uid, d)
       && Lists(s.history[s.cache], inp.listed) && ClockOk(s.now, inp, s'.now)
       && s'.tracker == effect.tracker && s'.cache == s.cache
       && (inp.writeOk ==> effect.write == NoWrite || landed.Some?)
       && if inp.writeOk && landed.Some? && ChangesStore(Latest(s), obj, effect.write) then
            var uid := Latest(s)[obj.name].uid;
            && s'.history == s.history + [landed.value]
            && s'.own == (if effect.write.AddFinalizer? then s.own else s.own[uid := |s.history|])
            && s'.ownStatus == if effect.write.SetStatus? then s.ownStatus[uid := |s.history|] else s.ownStatus
          else
            s'.history == s.history && s'.own == s.own && s'.ownStatus == s.ownStatus
  }

  /** Users and the API server: creating an allocation, editing its spec, and deleting it, which only marks
      it while it has a finalizer. */
  datatype EnvChange = Create(obj: Allocation) | Edit(name: string, spec: AllocSpec) | Delete(name: string)

  ghost predicate Fresh(s: Sys, uid: nat) {
    uid !in s.own && uid !in s.ownStatus && NewUid(s.history, uid)
  }

  ghost predicate NewUid(history: seq<Store>, uid: nat) {
    forall j, n :: 0 <= j < |history| && n in history[j] ==> history[j][n].uid != uid
  }

  ghost predicate EnvStep(s: Sys, s': Sys, change: EnvChange)
    requires s.history != []
  {
    && s'.cache == s.cache && s'.tracker == s.tracker && s'.own == s.own && s'.ownStatus == s.ownStatus && s.now <= s'.now
    && var st, version := Latest(s), |s.history|;
       match change
       case Create(obj) =>
         && obj.name !in st && Fresh(s, obj.uid) && !obj.deleting
         && obj.status == Status(Pending, Empty, false, "", None)
         && s'.history == s.history + [st[obj.name := obj]]
       case Edit(n, spec) =>
         && n in st
         && s'.history == s.history + [st[n := st[n].(spec := spec, version := version)]]
       case Delete(n) =>
         && n in st
         && s'.history == s.history + [if st[n].finalizer then st[n := st[n].(deleting := true, version := version)] else st - {n}]
  }

  ghost predicate CacheStep(s: Sys, s': Sys) {
    && s.cache <= s'.cache < |s.history| && s.now <= s'.now
    && s' == s.(cache := s'.cache, now := s'.now)
  }

  datatype Label = Reconcile(name: string, inp: Inputs) | Env(change: EnvChange) | Advance

  ghost predicate Step(s: Sys, l: Label, s': Sys, timeout: Time, d: Demand) {
    && s.history != [] && s.cache < |s.history|
    && match l
       case Reconcile(n, inp) => ReconcileStep(s, s', timeout, n, inp, d)
       case Env(change) => EnvStep(s, s', change)
       case Advance => CacheStep(s, s')
  }

  /** A controller starts with an empty tracker and a cache that shows the store as it is. */
  ghost predicate Start(s: Sys) {
    && |s.history| == 1 && s.cache == 0
    && s.tracker == Tracker(map[], map[]) && s.own == map[] && s.ownStatus == map[]
    && StoreOk(s.history[0], s.now)
    && (forall n, m :: n in s.history[0] && m in s.history[0] && s.history[0][n].uid == s.history[0][m].uid ==> n == m)
    && UniqueAddresses(s.history[0])
  }

  ghost predicate SysRun(states: seq<Sys>, labels: seq<Label>, timeout: Time, d: Demand) {
    && |states| == |labels| + 1 && Start(states[0])
    && forall i :: 0 <= i < |labels| ==> Step(states[i], labels[i], states[i + 1], timeout, d)
  }

  // ---------- the invariant ----------

  predicate ObjectOk(n: string, o: Allocation, now: Time) {
    && o.name == n && WellKept(o.status)
    && (o.status.address.Parsed? ==> o.finalizer)
    && (o.status.allocCond.Some? ==> o.status.allocCond.value.since <= now)
  }

  ghost predicate StoreOk(st: Store, now: Time) {
    forall n :: n in st ==> ObjectOk(n, st[n], now)
  }

  ghost predicate HistoryOk(history: seq<Store>, own: map<nat, nat>, now: Time) {
    && history != []
    && (forall j :: 0 <= j < |history| ==> StoreOk(history[j], now))
    && (forall u :: u in own ==> own[u] < |history|)
  }

  /** A uid belongs to one name for ever. */
  ghost predicate UidsOk(history: seq<Store>) {
    forall j, k, n, m :: 0 <= j < |history| && 0 <= k < |history| && n in history[j] && m in history[k] ==>
      (history[j][n].uid == history[k][m].uid ==> n == m)
  }

  /** The allocation is still there with its finalizer and its status. */
  predicate KeptIn(n: string, o: Allocation, st: Store) {
    n in st && st[n].uid == o.uid && st[n].finalizer && st[n].status == o.status && (o.deleting ==> st[n].deleting)
  }

  /** State j is not older than the controller's last write to this allocation, which has a finalizer. */
  predicate SettledAt(o: Allocation, own: map<nat, nat>, j: int) {
    o.finalizer && IndexOf(own, o.uid) <= j
  }

  /** From its last own write on, an allocation with a finalizer stays as it is. */
  ghost predicate Steady(history: seq<Store>, own: map<nat, nat>) {
    forall j, k, n :: 0 <= j <= k < |history| && n in history[j] ==>
      (SettledAt(history[j][n], own, j) ==> KeptIn(n, history[j][n], history[k]))
  }

  /** The allocation held the address, with its finalizer, in state w. */
  predicate HeldIn(history: seq<Store>, w: nat, n: string, uid: nat, ip: Addr) {
    w < |history| && HoldsAt(history[w], n, ip) && history[w][n].uid == uid && history[w][n].finalizer
  }

  /** Holders have held their address since their last own write. */
  ghost predicate HoldersWritten(history: seq<Store>, own: map<nat, nat>)
    requires history != []
  {
    forall n, ip :: HoldsAt(Last(history), n, ip) ==>
      HeldIn(history, IndexOf(own, Last(history)[n].uid), n, Last(history)[n].uid, ip)
  }

  predicate ReservedFor(t: Tracker, n: string, ip: Addr) {
    ip in t.allocations && t.allocations[ip].id == n
  }

  /** A held address is unreleased, and reserved for its holder or visible in the cache. */
  predicate SafelyHeld(own: map<nat, nat>, cache: nat, t: Tracker, n: string, uid: nat, ip: Addr) {
    ip !in t.releases && (ReservedFor(t, n, ip) || IndexOf(own, uid) <= cache)
  }

  ghost predicate Protected(last: Store, own: map<nat, nat>, cache: nat, t: Tracker) {
    forall n, ip :: HoldsAt(last, n, ip) ==> SafelyHeld(own, cache, t, n, last[n].uid, ip)
  }

  /** Before index w, the address was shown only with times before `at`. */
  ghost predicate ShownBefore(history: seq<Store>, w: nat, ip: Addr, at: Time) {
    forall j, m :: 0 <= j < w && j < |history| && m in history[j] ==>
      (Shows(history[j][m].status, ip) ==> history[j][m].status.allocCond.value.since < at)
  }

  /** A reservation cannot be confirmed by a state older than its holder's last write. */
  ghost predicate NotConfirmable(history: seq<Store>, own: map<nat, nat>, t: Tracker)
    requires history != []
  {
    forall n, ip :: HoldsAt(Last(history), n, ip) && ReservedFor(t, n, ip) ==>
      ShownBefore(history, IndexOf(own, Last(history)[n].uid), ip, t.allocations[ip].allocatedAt)
  }

  ghost predicate TrackerTimes(t: Tracker, now: Time) {
    forall ip :: ip in t.allocations ==> t.allocations[ip].allocatedAt <= now
  }

  /** What the tracker owes to a store history, as seen through the cache. */
  ghost predicate TrackerOk(history: seq<Store>, own: map<nat, nat>, cache: nat, t: Tracker, now: Time)
    requires history != []
  {
    Coherent(t) && TrackerTimes(t, now) && Protected(Last(history), own, cache, t) && NotConfirmable(history, own, t)
  }

  ghost predicate Inv(s: Sys) {
    && HistoryOk(s.history, s.own, s.now) && s.cache < |s.history|
    && UidsOk(s.history) && Steady(s.history, s.own) && HoldersWritten(s.history, s.own)
    && UniqueAddresses(Last(s.history)) && TrackerOk(s.history, s.own, s.cache, s.tracker, s.now)
  }

  lemma StartInv(s: Sys)
    requires Start(s)
    ensures Inv(s)
  {
    var st := s.history[0];
    assert Steady(s.history, s.own);
    forall n, ip | HoldsAt(Last(s.history), n, ip)
      ensures HeldIn(s.history, IndexOf(s.own, st[n].uid), n, st[n].uid, ip)
    {
      assert ObjectOk(n, st[n], s.now);
    }
  }

  // ---------- appending a store state ----------

  lemma SteadyAppend(history: seq<Store>, own: map<nat, nat>, own': map<nat, nat>, st: Store)
    requires history != [] && Steady(history, own)
    requires forall u :: IndexOf(own, u) <= IndexOf(own', u)
    requires forall n :: n in Last(history) && SettledAt(Last(history)[n], own', |history| - 1) ==> KeptIn(n, Last(history)[n], st)
    ensures Steady(history + [st], own')
  {
    var h': seq<Store>, last := history + [st], Last(history);
    forall j, k, n: string | 0 <= j <= k < |h'| && n in h'[j] && SettledAt(h'[j][n], own', j)
      ensures KeptIn(n, h'[j][n], h'[k])
    {
      if j < |history| {
        assert SettledAt(history[j][n], own, j);
        if k == |history| {
          assert KeptIn(n, history[j][n], last);
          assert KeptIn(n, last[n], st);
        } else {
          assert KeptIn(n, history[j][n], history[k]);
        }
      }
    }
  }

  lemma UidsAppend(history: seq<Store>, st: Store)
    requires history != [] && UidsOk(history)
    requires forall n :: n in st ==>
               (n in Last(history) && Last(history)[n].uid == st[n].uid) || NewUid(history, st[n].uid)
    requires forall n, m :: n in st && m in st && st[n].uid == st[m].uid ==> n == m
    ensures UidsOk(history + [st])
  {
    var h': seq<Store> := history + [st];
    forall j, k, n: string, m: string |
      0 <= j < |h'| && 0 <= k < |h'| && n in h'[j] && m in h'[k] && h'[j][n].uid == h'[k][m].uid
      ensures n == m
    {
      if j < |history| == k {
        assert !NewUid(history, st[m].uid);
      } else if k < |history| == j {
        assert !NewUid(history, st[n].uid);
      }
    }
  }

  lemma HistoryAppend(history: seq<Store>, own: map<nat, nat>, own': map<nat, nat>, now: Time, now': Time, st: Store)
    requires HistoryOk(history, own, now) && now <= now' && StoreOk(st, now')
    requires forall u :: u in own' ==> own'[u] <= |history|
    ensures HistoryOk(history + [st], own', now')
  {
    var h': seq<Store> := history + [st];
    forall j | 0 <= j < |h'| ensures StoreOk(h'[j], now') {
      if j < |history| {
        assert StoreOk(history[j], now);
        assert forall n :: n in h'[j] && ObjectOk(n, h'[j][n], now) ==> ObjectOk(n, h'[j][n], now');
      }
    }
  }

  // ---------- steps of the environment and of the cache ----------

  /** The change adds no holder and takes nobody's finalizer or status. */
  ghost predicate Quiet(st: Store, st': Store) {
    && (forall n :: n in st && st[n].finalizer ==> KeptIn(n, st[n], st'))
    && (forall n, ip :: HoldsAt(st', n, ip) ==> HoldsAt(st, n, ip) && st[n].uid == st'[n].uid)
  }

  lemma EnvIsQuiet(s: Sys, s': Sys, change: EnvChange)
    requires HistoryOk(s.history, s.own, s.now) && EnvStep(s, s', change)
    ensures var st' := Last(s'.history);
            s'.history == s.history + [st'] && Quiet(Latest(s), st') && StoreOk(st', s'.now)
  {
    var st, st' := Latest(s), Last(s'.history);
    assert StoreOk(st, s.now);
    forall n | n in st' ensures ObjectOk(n, st'[n], s'.now) {
      if n in st { assert ObjectOk(n, st[n], s.now); }
    }
  }

  lemma EnvKeepsUids(s: Sys, s': Sys, change: EnvChange)
    requires s.history != [] && UidsOk(s.history) && EnvStep(s, s', change)
    ensures UidsOk(s'.history)
  {
    var st, st' := Latest(s), Last(s'.history);
    assert forall n, m :: n in st && m in st && st[n].uid == st[m].uid ==> n == m;
    assert forall n :: n in st' ==> (n in st && st[n].uid == st'[n].uid) || (change.Create? && n == change.obj.name);
    if change.Create? { assert forall n :: n in st ==> st[n].uid != change.obj.uid; }
    UidsAppend(s.history, st');
  }

  lemma QuietKeepsHolders(history: seq<Store>, own: map<nat, nat>, cache: nat, t: Tracker, now: Time, now': Time, st: Store)
    requires history != [] && Quiet(Last(history), st) && now <= now'
    requires forall u :: u in own ==> own[u] < |history|
    requires HoldersWritten(history, own) && UniqueAddresses(Last(history)) && TrackerOk(history, own, cache, t, now)
    ensures HoldersWritten(history + [st], own) && UniqueAddresses(st) && TrackerOk(history + [st], own, cache, t, now')
  {
    var h': seq<Store> := history + [st];
    forall n, ip | HoldsAt(st, n, ip)
      ensures HeldIn(h', IndexOf(own, st[n].uid), n, st[n].uid, ip)
      ensures SafelyHeld(own, cache, t, n, st[n].uid, ip)
      ensures ReservedFor(t, n, ip) ==> ShownBefore(h', IndexOf(own, st[n].uid), ip, t.allocations[ip].allocatedAt)
    {
      assert HoldsAt(Last(history), n, ip);
      assert HeldIn(history, IndexOf(own, st[n].uid), n, st[n].uid, ip);
      if ReservedFor(t, n, ip) {
        ShownBeforeAppend(history, st, IndexOf(own, st[n].uid), ip, t.allocations[ip].allocatedAt);
      }
    }
  }

  lemma ShownBeforeAppend(history: seq<Store>, st: Store, w: nat, ip: Addr, at: Time)
    requires w <= |history| && ShownBefore(history, w, ip, at)
    ensures ShownBefore(history + [st], w, ip, at)
  {
  }

  lemma EnvKeepsInv(s: Sys, s': Sys, change: EnvChange)
    requires Inv(s) && EnvStep(s, s', change)
    ensures Inv(s')
  {
    hide Steady, HoldersWritten, TrackerOk, UniqueAddresses, UidsOk, StoreOk;
    var st' := Last(s'.history);
    EnvIsQuiet(s, s', change);
    EnvKeepsUids(s, s', change);
    HistoryAppend(s.history, s.own, s.own, s.now, s'.now, st');
    SteadyAppend(s.history, s.own, s.own, st');
    QuietKeepsHolders(s.history, s.own, s.cache, s.tracker, s.now, s'.now, st');
  }

  lemma CacheKeepsInv(s: Sys, s': Sys)
    requires Inv(s) && CacheStep(s, s')
    ensures Inv(s')
  {
    hide Steady, HoldersWritten, UniqueAddresses, UidsOk, NotConfirmable, Coherent;
    LaterHistory(s.history, s.own, s.now, s'.now);
    forall n, ip | HoldsAt(Last(s.history), n, ip)
      ensures SafelyHeld(s.own, s'.cache, s.tracker, n, Last(s.history)[n].uid, ip)
    {
      assert SafelyHeld(s.own, s.cache, s.tracker, n, Last(s.history)[n].uid, ip);
    }
  }

  lemma LaterHistory(history: seq<Store>, own: map<nat, nat>, now: Time, now': Time)
    requires HistoryOk(history, own, now) && now <= now'
    ensures HistoryOk(history, own, now')
  {
    forall j | 0 <= j < |history| ensures StoreOk(history[j], now') {
      assert StoreOk(history[j], now);
      assert forall n :: n in history[j] && ObjectOk(n, history[j][n], now) ==> ObjectOk(n, history[j][n], now');
    }
  }

  // ---------- tracker operations against a fixed history ----------

  lemma ConfirmKeeps(history: seq<Store>, own: map<nat, nat>, cache: nat, t: Tracker, now: Time,
                     listed: seq<Allocation>, clock: Addr -> Time, timeout: Time)
    requires cache < |history| && Lists(history[cache], listed) && TrackerOk(history, own, cache, t, now)
    ensures TrackerOk(history, own, cache, Confirmed(t, AllocTimes(listed), clock, timeout), now)
  {
    hide AllocTimes;
    var seen := AllocTimes(listed);
    var t1 := Confirmed(t, seen, clock, timeout);
    forall n, ip | HoldsAt(Last(history), n, ip)
      ensures SafelyHeld(own, cache, t1, n, Last(history)[n].uid, ip)
    {
      assert SafelyHeld(own, cache, t, n, Last(history)[n].uid, ip);
      if ReservedFor(t, n, ip) && DropsAllocation(t, seen, ip) {
        AllocTimesMeaning(listed, ip);
        var i :| 0 <= i < |listed| && Shows(listed[i].status, ip) && listed[i].status.allocCond.value.since == seen[ip];
        assert listed[i] in listed && history[cache][listed[i].name] == listed[i];
        assert ShownBefore(history, IndexOf(own, Last(history)[n].uid), ip, t.allocations[ip].allocatedAt);
      }
    }
    ConfirmedCoherent(t, seen, clock, timeout);
  }

  lemma {:induction false} OthersMeaning(listed: seq<Allocation>, uid: nat, a: Allocation)
    ensures a in Others(listed, uid) <==> a in listed && a.uid != uid
  {
    if listed != [] {
      OthersMeaning(listed[..|listed| - 1], uid, a);
      assert listed == listed[..|listed| - 1] + [listed[|listed| - 1]];
    }
  }

  /** A holder whose last write the cache has seen is listed as it is in the latest state. */
  lemma SeenHolder(history: seq<Store>, own: map<nat, nat>, cache: nat, now: Time, m: string, ip: Addr)
    requires HistoryOk(history, own, now) && cache < |history| && Steady(history, own) && HoldersWritten(history, own)
    requires HoldsAt(Last(history), m, ip) && IndexOf(own, Last(history)[m].uid) <= cache
    ensures HoldsAt(history[cache], m, ip) && history[cache][m].uid == Last(history)[m].uid
    ensures Shows(history[cache][m].status, ip)
  {
    var w := IndexOf(own, Last(history)[m].uid);
    assert HeldIn(history, w, m, Last(history)[m].uid, ip);
    assert SettledAt(history[w][m], own, w);
    assert KeptIn(m, history[w][m], history[cache]);
    assert StoreOk(history[cache], now);
    assert ObjectOk(m, history[cache][m], now);
  }

  /** An address that Resolve does not report for n is held by nobody else. */
  lemma UnusedIsUnheld(history: seq<Store>, own: map<nat, nat>, cache: nat, t: Tracker, now: Time,
                       listed: seq<Allocation>, n: string, m: string, ip: Addr)
    requires HistoryOk(history, own, now) && UidsOk(history) && Steady(history, own) && HoldersWritten(history, own)
    requires cache < |history| && Lists(history[cache], listed) && TrackerOk(history, own, cache, t, now)
    requires n in history[cache] && m != n
    requires ip !in Resolved(t, AllocTimes(Others(listed, history[cache][n].uid)), n)
    ensures !HoldsAt(Last(history), m, ip)
  {
    hide AllocTimes, Others, Resolved, Steady, HoldersWritten, NotConfirmable, StoreOk;
    if HoldsAt(Last(history), m, ip) {
      var others := Others(listed, history[cache][n].uid);
      assert SafelyHeld(own, cache, t, m, Last(history)[m].uid, ip);
      ResolvedExactly(t, AllocTimes(others), n, ip);
      if !ReservedFor(t, m, ip) {
        SeenHolder(history, own, cache, now, m, ip);
        var a := history[cache][m];
        OthersMeaning(listed, history[cache][n].uid, a);
        assert a in others;
        var i :| 0 <= i < |others| && others[i] == a;
        AllocTimesMeaning(others, ip);
      }
      assert false;
    }
  }

  lemma StageKeeps(history: seq<Store>, own: map<nat, nat>, cache: nat, t: Tracker, now: Time, now': Time, p: IPAllocationPending)
    requires HistoryOk(history, own, now) && TrackerOk(history, own, cache, t, now) && now < p.allocatedAt <= now'
    requires !Refuses(t, p) && forall m :: m != p.id ==> !HoldsAt(Last(history), m, p.address)
    ensures TrackerOk(history, own, cache, Staged(t, p), now')
    ensures ReservedFor(Staged(t, p), p.id, p.address) && p.address !in Staged(t, p).releases
    ensures forall w :: ShownBefore(history, w, p.address, Staged(t, p).allocations[p.address].allocatedAt)
  {
    var t' := Staged(t, p);
    StagedCoherent(t, p);
    forall w ensures ShownBefore(history, w, p.address, p.allocatedAt) {
      AllBefore(history, own, now, w, p.address, p.allocatedAt);
    }
    forall n, ip | HoldsAt(Last(history), n, ip) ensures SafelyHeld(own, cache, t', n, Last(history)[n].uid, ip) {
      assert SafelyHeld(own, cache, t, n, Last(history)[n].uid, ip);
    }
  }

  lemma AllBefore(history: seq<Store>, own: map<nat, nat>, now: Time, w: nat, ip: Addr, at: Time)
    requires HistoryOk(history, own, now) && now < at
    ensures ShownBefore(history, w, ip, at)
  {
    forall j, m: string | 0 <= j < w && j < |history| && m in history[j] && Shows(history[j][m].status, ip)
      ensures history[j][m].status.allocCond.value.since < at
    {
      assert StoreOk(history[j], now);
      assert ObjectOk(m, history[j][m], now);
    }
  }

  lemma UnstageKeeps(history: seq<Store>, own: map<nat, nat>, cache: nat, t: Tracker, now: Time, p: IPAllocationPending)
    requires history != [] && TrackerOk(history, own, cache, t, now) && Reserves(t, p)
    requires HoldsAt(Last(history), p.id, p.address) ==> IndexOf(own, Last(history)[p.id].uid) <= cache
    ensures TrackerOk(history, own, cache, Unstaged(t, p), now)
  {
    var t' := Unstaged(t, p);
    forall n, ip | HoldsAt(Last(history), n, ip) ensures SafelyHeld(own, cache, t', n, Last(history)[n].uid, ip) {
      assert SafelyHeld(own, cache, t, n, Last(history)[n].uid, ip);
    }
  }

  /** A release that is taken back leaves the tracker without anything on the address. */
  lemma FailedReleaseKeeps(history: seq<Store>, own: map<nat, nat>, cache: nat, t: Tracker, now: Time, now': Time,
                           n: string, ip: Addr, at: Time)
    requires history != [] && TrackerOk(history, own, cache, t, now) && now < at && now <= now'
    requires forall m :: m != n ==> !HoldsAt(Last(history), m, ip)
    requires HoldsAt(Last(history), n, ip) ==> IndexOf(own, Last(history)[n].uid) <= cache
    ensures TrackerOk(history, own, cache, ReleaseUnstaged(ReleaseStaged(t, ip, at), ip, at), now')
  {
    var t' := ReleaseUnstaged(ReleaseStaged(t, ip, at), ip, at);
    assert t'.allocations == t.allocations - {ip} && t'.releases == t.releases - {ip};
    forall m, a | HoldsAt(Last(history), m, a) ensures SafelyHeld(own, cache, t', m, Last(history)[m].uid, a) {
      assert SafelyHeld(own, cache, t, m, Last(history)[m].uid, a);
    }
  }

  // ---------- a write that lands ----------

  /** TrackerOk for every holder but n. */
  ghost predicate OthersOk(history: seq<Store>, own: map<nat, nat>, cache: nat, t: Tracker, now: Time, n: string)
    requires history != []
  {
    && Coherent(t) && TrackerTimes(t, now)
    && forall m, ip :: HoldsAt(Last(history), m, ip) && m != n ==>
         && SafelyHeld(own, cache, t, m, Last(history)[m].uid, ip)
         && (ReservedFor(t, m, ip) ==>
               ShownBefore(history, IndexOf(own, Last(history)[m].uid), ip, t.allocations[ip].allocatedAt))
  }

  /** Two store states that differ at most at n. */
  ghost predicate SameBut(st: Store, st': Store, n: string) {
    forall m :: m != n ==> (m in st <==> m in st') && (m in st ==> st[m] == st'[m])
  }

  /** What a write of n must come with. */
  ghost predicate WriteOk(history: seq<Store>, t: Tracker, n: string, st: Store, now: Time)
    requires history != []
  {
    && n in Last(history) && SameBut(Last(history), st, n)
    && (n in st ==> ObjectOk(n, st[n], now) && st[n].uid == Last(history)[n].uid)
    && forall ip :: HoldsAt(st, n, ip) ==>
         && ip !in t.releases && ReservedFor(t, n, ip)
         && ShownBefore(history, |history|, ip, t.allocations[ip].allocatedAt)
         && forall m :: m != n ==> !HoldsAt(Last(history), m, ip)
  }

  lemma WriteKeepsHolders(history: seq<Store>, own: map<nat, nat>, cache: nat, t: Tracker, now: Time, n: string, st: Store)
    requires history != [] && UidsOk(history) && HoldersWritten(history, own) && UniqueAddresses(Last(history))
    requires forall u :: u in own ==> own[u] < |history|
    requires OthersOk(history, own, cache, t, now, n) && WriteOk(history, t, n, st, now)
    ensures var own' := own[Last(history)[n].uid := |history|];
            HoldersWritten(history + [st], own') && UniqueAddresses(st) && TrackerOk(history + [st], own', cache, t, now)
  {
    var last, uid := Last(history), Last(history)[n].uid;
    var h': seq<Store>, own' := history + [st], own[uid := |history|];
    forall m, ip | HoldsAt(st, m, ip)
      ensures HeldIn(h', IndexOf(own', st[m].uid), m, st[m].uid, ip)
      ensures SafelyHeld(own', cache, t, m, st[m].uid, ip)
      ensures ReservedFor(t, m, ip) ==> ShownBefore(h', IndexOf(own', st[m].uid), ip, t.allocations[ip].allocatedAt)
    {
      if m == n {
        ShownBeforeAppend(history, st, |history|, ip, t.allocations[ip].allocatedAt);
      } else {
        assert HoldsAt(last, m, ip) && last[m].uid != uid;
        assert HeldIn(history, IndexOf(own, last[m].uid), m, last[m].uid, ip);
        if ReservedFor(t, m, ip) {
          ShownBeforeAppend(history, st, IndexOf(own, last[m].uid), ip, t.allocations[ip].allocatedAt);
        }
      }
    }
    forall a, b, ip | HoldsAt(st, a, ip) && HoldsAt(st, b, ip) ensures a == b {
      if a != n && b != n {
        assert HoldsAt(last, a, ip) && HoldsAt(last, b, ip);
      } else if a != n {
        assert HoldsAt(last, a, ip);
      } else if b != n {
        assert HoldsAt(last, b, ip);
      }
    }
  }

  lemma WriteKeepsHistory(history: seq<Store>, own: map<nat, nat>, t: Tracker, now: Time, now': Time, n: string, st: Store)
    requires HistoryOk(history, own, now) && now <= now' && UidsOk(history) && Steady(history, own)
    requires WriteOk(history, t, n, st, now')
    ensures var own' := own[Last(history)[n].uid := |history|];
            HistoryOk(history + [st], own', now') && UidsOk(history + [st]) && Steady(history + [st], own')
  {
    var last, uid := Last(history), Last(history)[n].uid;
    var own' := own[uid := |history|];
    assert StoreOk(last, now);
    forall m | m in st ensures ObjectOk(m, st[m], now') {
      if m != n { assert ObjectOk(m, last[m], now); }
    }
    HistoryAppend(history, own, own', now, now', st);
    forall a, b | a in st && b in st && st[a].uid == st[b].uid ensures a == b {
      assert last[a].uid == last[b].uid;
    }
    UidsAppend(history, st);
    SteadyAppend(history, own, own', st);
  }

  // ---------- steps of the reconciler ----------

  lemma OthersOkLater(history: seq<Store>, own: map<nat, nat>, cache: nat, t: Tracker, now: Time, now': Time, n: string)
    requires history != [] && TrackerOk(history, own, cache, t, now) && now <= now'
    ensures OthersOk(history, own, cache, t, now', n) && TrackerOk(history, own, cache, t, now')
  {
  }

  /** The allocation a fresh reconcile reads, if it has a finalizer, is still stored unchanged. */
  lemma ReadIsCurrent(s: Sys, n: string)
    requires Inv(s) && n in s.history[s.cache] && s.history[s.cache][n].finalizer
    requires Meets(s, s.history[s.cache][n].uid, OwnWritesSeen)
    ensures KeptIn(n, s.history[s.cache][n], Latest(s))
    ensures ObjectOk(n, s.history[s.cache][n], s.now)
  {
    assert SettledAt(s.history[s.cache][n], s.own, s.cache);
    assert StoreOk(s.history[s.cache], s.now);
  }

  /** After a write lands, the invariant holds of the new state. */
  lemma LandedKeepsInv(s: Sys, s': Sys, n: string, st: Store)
    requires Inv(s) && s.now <= s'.now && s'.cache == s.cache && s'.history == s.history + [st]
    requires n in Latest(s) && s'.own == s.own[Latest(s)[n].uid := |s.history|]
    requires OthersOk(s.history, s.own, s.cache, s'.tracker, s'.now, n) && WriteOk(s.history, s'.tracker, n, st, s'.now)
    ensures Inv(s')
  {
    hide Steady, HoldersWritten, TrackerOk, OthersOk, UniqueAddresses, UidsOk, StoreOk;
    WriteKeepsHistory(s.history, s.own, s'.tracker, s.now, s'.now, n, st);
    WriteKeepsHolders(s.history, s.own, s.cache, s'.tracker, s'.now, n, st);
  }

  lemma UnwrittenKeepsInv(s: Sys, s': Sys)
    requires Inv(s) && s.now <= s'.now && s'.cache == s.cache && s'.history == s.history && s'.own == s.own
    requires TrackerOk(s.history, s.own, s.cache, s'.tracker, s'.now)
    ensures Inv(s')
  {
    hide Steady, HoldersWritten, TrackerOk, UniqueAddresses, UidsOk, StoreOk;
    LaterHistory(s.history, s.own, s.now, s'.now);
  }

  lemma AddFinalizerKeepsInv(s: Sys, s': Sys, timeout: Time, n: string, inp: Inputs)
    requires Inv(s) && ReconcileStep(s, s', timeout, n, inp, OwnWritesSeen)
    requires !s.history[s.cache][n].deleting && !s.history[s.cache][n].finalizer
    ensures Inv(s')
  {
    hide PlannedAllocation, PlannedRelease, Steady, HoldersWritten, UidsOk, TrackerOk, UniqueAddresses, StoreOk;
    if s'.history == s.history {
      LaterTracker(s.history, s.own, s.cache, s.tracker, s.now, s'.now);
      LaterHistory(s.history, s.own, s.now, s'.now);
    } else {
      var st, st' := Latest(s), Last(s'.history);
      StoredName(s.history, s.own, s.now, s.cache, n);
      FinalizerIsQuiet(s.history, s.now, s'.now, n);
      assert st' == st[n := st[n].(finalizer := true, version := |s.history|)];
      HistoryAppend(s.history, s.own, s.own, s.now, s'.now, st');
      SameUidsAppend(s.history, n, st');
      SteadyAppend(s.history, s.own, s.own, st');
      QuietKeepsHolders(s.history, s.own, s.cache, s.tracker, s.now, s'.now, st');
    }
  }

  lemma LaterTracker(history: seq<Store>, own: map<nat, nat>, cache: nat, t: Tracker, now: Time, now': Time)
    requires history != [] && TrackerOk(history, own, cache, t, now) && now <= now'
    ensures TrackerOk(history, own, cache, t, now')
  {
  }

  lemma StoredName(history: seq<Store>, own: map<nat, nat>, now: Time, j: nat, n: string)
    requires HistoryOk(history, own, now) && j < |history| && n in history[j]
    ensures history[j][n].name == n
  {
    assert ObjectOk(n, history[j][n], now);
  }

  lemma FinalizerIsQuiet(history: seq<Store>, now: Time, now': Time, n: string)
    requires history != [] && StoreOk(Last(history), now) && now <= now' && n in Last(history) && !Last(history)[n].finalizer
    ensures var st' := Last(history)[n := Last(history)[n].(finalizer := true, version := |history|)];
            Quiet(Last(history), st') && StoreOk(st', now')
  {
    var st := Last(history);
    var st' := st[n := st[n].(finalizer := true, version := |history|)];
    forall m | m in st' ensures ObjectOk(m, st'[m], now') { assert ObjectOk(m, st[m], now); }
  }

  lemma SameUidsAppend(history: seq<Store>, n: string, st: Store)
    requires history != [] && UidsOk(history) && n in Last(history)
    requires st.Keys == Last(history).Keys && forall m :: m in st ==> st[m].uid == Last(history)[m].uid
    ensures UidsOk(history + [st])
  {
    assert forall m, k :: m in st && k in st && st[m].uid == st[k].uid ==> m == k;
    UidsAppend(history, st);
  }

  lemma DroppedReleaseKeeps(history: seq<Store>, own: map<nat, nat>, cache: nat, t: Tracker, now: Time, ip: Addr, at: Time)
    requires history != [] && TrackerOk(history, own, cache, t, now)
    ensures TrackerOk(history, own, cache, ReleaseUnstaged(t, ip, at), now)
  {
    var t' := ReleaseUnstaged(t, ip, at);
    forall m, a | HoldsAt(Last(history), m, a) ensures SafelyHeld(own, cache, t', m, Last(history)[m].uid, a) {
      assert SafelyHeld(own, cache, t, m, Last(history)[m].uid, a);
    }
  }

  /** A release that lands: nobody but the released allocation held the address. */
  lemma LandedReleaseKeeps(history: seq<Store>, own: map<nat, nat>, cache: nat, t: Tracker, now: Time, now': Time,
                           n: string, ip: Addr, at: Time)
    requires history != [] && TrackerOk(history, own, cache, t, now) && now < at && now <= now'
    requires forall m :: m != n ==> !HoldsAt(Last(history), m, ip)
    ensures OthersOk(history, own, cache, ReleaseStaged(t, ip, at), now', n)
  {
    var t' := ReleaseStaged(t, ip, at);
    assert Coherent(t');
    forall m, a | HoldsAt(Last(history), m, a) && m != n
      ensures SafelyHeld(own, cache, t', m, Last(history)[m].uid, a)
      ensures ReservedFor(t', m, a) ==>
                ShownBefore(history, IndexOf(own, Last(history)[m].uid), a, t'.allocations[a].allocatedAt)
    {
      assert a != ip && SafelyHeld(own, cache, t, m, Last(history)[m].uid, a);
    }
  }

  lemma RemovedIsWriteOk(history: seq<Store>, t: Tracker, n: string, now: Time)
    requires history != [] && n in Last(history)
    ensures WriteOk(history, t, n, Last(history) - {n}, now)
  {
  }

  lemma ReleaseKeepsInv(s: Sys, s': Sys, timeout: Time, n: string, inp: Inputs)
    requires Inv(s) && ReconcileStep(s, s', timeout, n, inp, OwnWritesSeen)
    requires s.history[s.cache][n].deleting
    ensures Inv(s')
  {
    hide PlannedAllocation, Steady, HoldersWritten, UidsOk, TrackerOk, OthersOk, HistoryOk, WriteOk, ReleaseStaged, ReleaseUnstaged;
    var obj, last := s.history[s.cache][n], Last(s.history);
    OthersOkLater(s.history, s.own, s.cache, s.tracker, s.now, s'.now, n);
    if !obj.finalizer {
      UnwrittenKeepsInv(s, s');
      return;
    }
    ReadIsCurrent(s, n);
    var effect := PlannedRelease(s.tracker, obj, inp);
    if effect.write == NoWrite {
      UnwrittenKeepsInv(s, s');
      return;
    }
    RemovedIsWriteOk(s.history, s'.tracker, n, s'.now);
    if obj.status.phase in {Allocated, Programmed} {
      var ip := obj.status.address.addr;
      assert HoldsAt(last, n, ip);
      assert forall m :: m != n ==> !HoldsAt(last, m, ip);
      if inp.writeOk {
        LandedReleaseKeeps(s.history, s.own, s.cache, s.tracker, s.now, s'.now, n, ip, inp.releaseAt);
        assert ip.Addr? || s'.tracker == s.tracker;
        LandedKeepsInv(s, s', n, last - {n});
      } else {
        FailedReleaseKeeps(s.history, s.own, s.cache, s.tracker, s.now, s'.now, n, ip, inp.releaseAt);
        DroppedReleaseKeeps(s.history, s.own, s.cache, s.tracker, s'.now, ip, inp.releaseAt);
        UnwrittenKeepsInv(s, s');
      }
    } else if inp.writeOk {
      LandedKeepsInv(s, s', n, last - {n});
    } else {
      DroppedReleaseKeeps(s.history, s.own, s.cache, s.tracker, s'.now, NoAddr, inp.releaseAt);
      UnwrittenKeepsInv(s, s');
    }
  }

  /** Staging what was chosen keeps the tracker in order, and nobody else holds the chosen address. */
  lemma ChoiceKeeps(s: Sys, now': Time, timeout: Time, n: string, inp: Inputs, p: IPAllocationPending)
    requires Inv(s) && n in s.history[s.cache] && s.now < inp.stageAt <= now'
    requires var obj := s.history[s.cache][n];
             && obj.name == n && Lists(s.history[s.cache], inp.listed)
             && PlannedChoice(s.tracker, timeout, obj, inp).Some?
             && p == IPAllocationPending(n, PlannedChoice(s.tracker, timeout, obj, inp).value.ip, inp.stageAt)
    ensures var t1 := Confirmed(s.tracker, AllocTimes(inp.listed), inp.confirmAt, timeout);
            var t2 := Staged(t1, p);
            && TrackerOk(s.history, s.own, s.cache, t2, now')
            && Reserves(t2, p) && p.address !in t2.releases
            && ShownBefore(s.history, |s.history|, p.address, p.allocatedAt)
            && forall m :: m != n ==> !HoldsAt(Last(s.history), m, p.address)
  {
    hide AllocTimes, Others, Resolved, Confirmed, Chosen, Steady, HoldersWritten, UidsOk, TrackerOk, HistoryOk, UniqueAddresses;
    var obj := s.history[s.cache][n];
    var seen := AllocTimes(inp.listed);
    var t1 := Confirmed(s.tracker, seen, inp.confirmAt, timeout);
    var others := AllocTimes(Others(inp.listed, obj.uid));
    ConfirmKeeps(s.history, s.own, s.cache, s.tracker, s.now, inp.listed, inp.confirmAt, timeout);
    ChosenIsUnused(inp.pools, obj.spec, inp.startHash, UsedAddresses(s.tracker, timeout, obj, inp).Keys);
    assert p.address !in Resolved(t1, others, n);
    assert Coherent(t1) by { TrackerIsCoherent(s.history, s.own, s.cache, t1, s.now); }
    UnusedIsNeverRefused(t1, others, n, p);
    forall m | m != n ensures !HoldsAt(Last(s.history), m, p.address) {
      UnusedIsUnheld(s.history, s.own, s.cache, t1, s.now, inp.listed, n, m, p.address);
    }
    StageKeeps(s.history, s.own, s.cache, t1, s.now, now', p);
    assert Staged(t1, p).allocations[p.address] == p;
  }

  lemma TrackerIsCoherent(history: seq<Store>, own: map<nat, nat>, cache: nat, t: Tracker, now: Time)
    requires history != [] && TrackerOk(history, own, cache, t, now)
    ensures Coherent(t)
  {
  }

  /** The status write of an allocation that is read as it is stored. */
  lemma StatusIsWriteOk(history: seq<Store>, own: map<nat, nat>, t: Tracker, now: Time, now': Time, n: string,
                        choice: Option<Choice>, inp: Inputs, st: Store)
    requires HistoryOk(history, own, now) && now <= now' && inp.stampAt <= now' && n in Last(history) && Last(history)[n].finalizer
    requires var obj := Last(history)[n];
             st == Last(history)[n := obj.(status := NextStatus(obj.status, choice, inp.advertised, inp.stampAt), version := |history|)]
    requires choice.Some? ==>
               var ip := choice.value.ip;
               && ip !in t.releases && ReservedFor(t, n, ip)
               && ShownBefore(history, |history|, ip, t.allocations[ip].allocatedAt)
               && forall m :: m != n ==> !HoldsAt(Last(history), m, ip)
    ensures WriteOk(history, t, n, st, now')
  {
    hide NextStatus;
    assert StoreOk(Last(history), now);
    var obj := Last(history)[n];
    assert ObjectOk(n, obj, now);
    NextStatusWellKept(obj.status, choice, inp.advertised, inp.stampAt);
    NextStatusTime(obj.status, choice, inp.advertised, inp.stampAt);
  }

  lemma NextStatusTime(s: Status, choice: Option<Choice>, advertised: Option<string>, now: Time)
    ensures var c := NextStatus(s, choice, advertised, now).allocCond;
            c.Some? && (c == s.allocCond || c.value.since == now)
  {
  }

  lemma AllocateKeepsInv(s: Sys, s': Sys, timeout: Time, n: string, inp: Inputs)
    requires Inv(s) && ReconcileStep(s, s', timeout, n, inp, OwnWritesSeen)
    requires !s.history[s.cache][n].deleting && s.history[s.cache][n].finalizer
    ensures Inv(s')
  {
    hide PlannedRelease, PlannedChoice, NeedsUpdate, NextStatus, AllocTimes, Confirmed, Staged, Unstaged, Steady, HoldersWritten,
         UidsOk, TrackerOk, OthersOk, HistoryOk, WriteOk, UniqueAddresses, ShownBefore;
    var obj := s.history[s.cache][n];
    ReadIsCurrent(s, n);
    var choice := PlannedChoice(s.tracker, timeout, obj, inp);
    var t1 := Confirmed(s.tracker, AllocTimes(inp.listed), inp.confirmAt, timeout);
    if choice.None? {
      ConfirmKeeps(s.history, s.own, s.cache, s.tracker, s.now, inp.listed, inp.confirmAt, timeout);
      OthersOkLater(s.history, s.own, s.cache, t1, s.now, s'.now, n);
      if s'.history == s.history {
        UnwrittenKeepsInv(s, s');
      } else {
        StatusIsWriteOk(s.history, s.own, t1, s.now, s'.now, n, choice, inp, Last(s'.history));
        LandedKeepsInv(s, s', n, Last(s'.history));
      }
    } else {
      var p := IPAllocationPending(n, choice.value.ip, inp.stageAt);
      ChoiceKeeps(s, s'.now, timeout, n, inp, p);
      var t2 := Staged(t1, p);
      if s'.history == s.history {
        UnstageKeeps(s.history, s.own, s.cache, t2, s'.now, p);
        UnwrittenKeepsInv(s, s');
      } else {
        OthersOkLater(s.history, s.own, s.cache, t2, s'.now, s'.now, n);
        StatusIsWriteOk(s.history, s.own, t2, s.now, s'.now, n, choice, inp, Last(s'.history));
        LandedKeepsInv(s, s', n, Last(s'.history));
      }
    }
  }

  lemma StepKeepsInv(s: Sys, l: Label, s': Sys, timeout: Time)
    requires Inv(s) && Step(s, l, s', timeout, OwnWritesSeen)
    ensures Inv(s')
  {
    hide Inv, ReconcileStep, EnvStep, CacheStep;
    match l
    case Reconcile(n, inp) =>
      assert n in s.history[s.cache] by { ReconcileReads(s, s', timeout, n, inp); }
      if s.history[s.cache][n].deleting {
        ReleaseKeepsInv(s, s', timeout, n, inp);
      } else if !s.history[s.cache][n].finalizer {
        AddFinalizerKeepsInv(s, s', timeout, n, inp);
      } else {
        AllocateKeepsInv(s, s', timeout, n, inp);
      }
    case Env(change) => EnvKeepsInv(s, s', change);
    case Advance => CacheKeepsInv(s, s');
  }

  lemma ReconcileReads(s: Sys, s': Sys, timeout: Time, n: string, inp: Inputs)
    requires s.history != [] && s.cache < |s.history| && ReconcileStep(s, s', timeout, n, inp, OwnWritesSeen)
    ensures n in s.history[s.cache]
  {
  }

  lemma {:induction false} RunKeepsInv(states: seq<Sys>, labels: seq<Label>, timeout: Time)
    requires SysRun(states, labels, timeout, OwnWritesSeen)
    ensures Inv(states[|labels|])
  {
    hide Step, Inv, Start;
    if |labels| == 0 {
      StartInv(states[0]);
    } else {
      var n := |labels| - 1;
      RunKeepsInv(states[..n + 1], labels[..n], timeout);
      StepKeepsInv(states[n], labels[n], states[n + 1], timeout);
    }
  }

  /** In every state of every run in which an allocation is reconciled only from a cache that shows the
      controller's own last write to it, no two stored allocations hold the same address. */
  lemma AddressesStayUnique(states: seq<Sys>, labels: seq<Label>, timeout: Time, k: nat)
    requires SysRun(states, labels, timeout, OwnWritesSeen) && k <= |labels|
    ensures states[k].history != [] && UniqueAddresses(Latest(states[k]))
  {
    hide Step, Start;
    RunKeepsInv(states[..k + 1], labels[..k], timeout);
  }
}
