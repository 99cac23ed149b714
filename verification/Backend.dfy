/** EnsureService and DeleteService: the Sync calls for a service, family by family. */
module Backend {
  import opened Net
  import opened Router
  import opened Matching
  import opened Syncing
  import opened Services
  import opened Programs
  import opened Tasks
  import opened Requests

  function NatPath(f: Family): string {
    match f
    case V4 => "/ip/firewall/nat"
    case V6 => "/ipv6/firewall/nat"
  }

  function ListPath(f: Family): string {
    match f
    case V4 => "/ip/firewall/address-list"
    case V6 => "/ipv6/firewall/address-list"
  }

  lemma PathsDistinct()
    ensures NatPath(V4) != NatPath(V6) && ListPath(V4) != ListPath(V6)
    ensures forall f, g :: NatPath(f) != ListPath(g)
  {
    assert NatPath(V4)[3] != NatPath(V6)[3] && ListPath(V4)[3] != ListPath(V6)[3];
    forall f, g ensures NatPath(f) != ListPath(g) {
      assert |NatPath(f)| != |ListPath(g)|;
    }
  }

  // ---------- what calls report and send ----------

  /** The result says that no router call failed in between. */
  ghost predicate Truthful(ok: bool, before: nat, after: nat) {
    before <= after && (ok <==> after == before)
  }

  /** Nothing was sent in between but listings. */
  ghost predicate OnlyListings(before: seq<Call>, after: seq<Call>) {
    before <= after && forall i :: |before| <= i < |after| ==> after[i].GetCall?
  }

  /** If `ready`, only listings are sent and the state stays; if it succeeds with listings only, it was `ready`. */
  ghost predicate SilentIff<S(!new)>(ready: bool, ok: bool, before: seq<Call>, after: seq<Call>, s: S, s': S) {
    && before <= after
    && (ready ==> OnlyListings(before, after) && s' == s)
    && (ok && OnlyListings(before, after) ==> ready && s' == s)
  }

  lemma ListingsTogether(a: seq<Call>, b: seq<Call>, c: seq<Call>)
    requires a <= b <= c
    ensures OnlyListings(a, c) <==> OnlyListings(a, b) && OnlyListings(b, c)
  {
    if OnlyListings(a, c) {
      forall i | |a| <= i < |b| ensures b[i].GetCall? { assert b[i] == c[i]; }
    }
    if OnlyListings(a, b) && OnlyListings(b, c) {
      forall i | |a| <= i < |c| ensures c[i].GetCall? {
        if i < |b| { assert b[i] == c[i]; }
      }
    }
  }

  /** Two steps, where the second one's readiness is judged by the state before the first. */
  lemma SilentTogether<S(!new)>(ready1: bool, ok1: bool, ready2: bool, early2: bool, ok2: bool,
                                a: seq<Call>, b: seq<Call>, c: seq<Call>, s: S, s': S, s'': S)
    requires SilentIff(ready1, ok1, a, b, s, s') && SilentIff(ready2, ok2, b, c, s', s'')
    requires s' == s ==> (ready2 <==> early2)
    ensures SilentIff(ready1 && early2, ok1 && ok2, a, c, s, s'')
  {
    hide OnlyListings;
    ListingsTogether(a, b, c);
  }

  lemma SilentSoFar<S(!new)>(ready1: bool, early2: bool, a: seq<Call>, b: seq<Call>, s: S, s': S)
    requires SilentIff(ready1, false, a, b, s, s')
    ensures SilentIff(ready1 && early2, false, a, b, s, s')
  {
  }

  /** The same, seen with a second table beside the first. */
  lemma SilentBeside<S(!new), U(!new)>(ready: bool, ok: bool, a: seq<Call>, b: seq<Call>, s: S, s': S, u: U)
    requires SilentIff(ready, ok, a, b, s, s')
    ensures SilentIff(ready, ok, a, b, (s, u), (s', u)) && SilentIff(ready, ok, a, b, (u, s), (u, s'))
  {
  }

  lemma TruthfulTogether(ok1: bool, ok2: bool, a: nat, b: nat, c: nat)
    requires Truthful(ok1, a, b) && Truthful(ok2, b, c)
    ensures Truthful(ok1 && ok2, a, c)
  {
  }

  lemma NothingSent<S(!new)>(ok: bool, a: seq<Call>, s: S)
    ensures SilentIff(true, ok, a, a, s, s)
  {
  }

  /** So many Syncs of the path, and none of another, were tried in between: each starts with its one listing. */
  ghost predicate Tried(before: seq<Call>, after: seq<Call>, path: string, n: nat) {
    forall p :: multiset(after)[GetCall(p)] == multiset(before)[GetCall(p)] + if p == path then n else 0
  }

  lemma NothingTried(a: seq<Call>, path: string)
    ensures Tried(a, a, path, 0)
  {
  }

  lemma TriedTogether(a: seq<Call>, b: seq<Call>, c: seq<Call>, path: string, m: nat, n: nat)
    requires Tried(a, b, path, m) && Tried(b, c, path, n)
    ensures Tried(a, c, path, m + n)
  {
  }

  lemma OneTried(path: string, s: Slots, before: seq<Call>, calls: seq<Call>)
    requires |s.found| == |s.patchable| && calls <= PlannedCalls(path, s)
    ensures Tried(before, before + [GetCall(path)] + calls, path, 1)
  {
    hide PlannedCalls;
    assert multiset(before + [GetCall(path)] + calls) == multiset(before) + multiset([GetCall(path)]) + multiset(calls);
    forall p ensures multiset(calls)[GetCall(p)] == 0 {
      if GetCall(p) in calls {
        assert GetCall(p) in PlannedCalls(path, s);
        PlannedWrites(path, s, GetCall(p));
      }
    }
  }

  /** A Sync that would change nothing: what it asks for is there, and its requests have different ids. */
  ghost predicate Ready(T: Table, t: Task) {
    Fulfilled(T, t) && DistinctRequests(t)
  }

  lemma SentByPlan(path: string, s: Slots, before: seq<Call>, calls: seq<Call>)
    requires |s.found| == |s.patchable| && calls <= PlannedCalls(path, s)
    ensures OnlyListings(before, before + [GetCall(path)] + calls) <==> calls == []
  {
    hide PlannedCalls;
    var after := before + [GetCall(path)] + calls;
    if calls != [] {
      assert calls[0] == PlannedCalls(path, s)[0];
      PlannedWrites(path, s, calls[0]);
      assert after[|before| + 1] == calls[0];
    }
  }

  /** Sync, as the backend relies on it. */
  method SyncTo(r: RouterOS, path: string, t: Task) returns (ok: bool, seen: seq<Obj>)
    requires r.Valid() && (t.reqs == [] || ID in t.ignored) && OwnScope(t)
    modifies r
    ensures r.Valid() && OnlyPath(old(r.resources), r.resources, path)
    ensures Truthful(ok, old(r.failures), r.failures)
    ensures SilentIff(Ready(old(r.At(path)), t), ok, old(r.requests), r.requests, old(r.At(path)), r.At(path))
    ensures Tried(old(r.requests), r.requests, path, 1)
    ensures Within(old(r.At(path)), r.At(path), ScopeOf(t), WritesOf(t))
    ensures ok ==> Fulfilled(r.At(path), t) && Shown(old(r.At(path)), t.query, seen)
  {
    hide RouterOS.Valid, Converged, Interrupted, Shown, Within, PlannedCalls, Plan, OwnScope, DistinctRequests, Fulfilled, OnlyListings, Tried, Economical;
    ghost var before, next := r.At(path), r.nextID;
    ListedOk(r, path);
    var results;
    ghost var calls;
    ok, results, seen, calls := Sync(r, path, t);
    if ok {
      ConvergedInterrupted(before, r.At(path), t, results);
      ConvergedFulfilled(before, r.At(path), t, results);
    }
    SyncedWithin(before, r.At(path), t);
    SentByPlan(path, Plan(t, seen), old(r.requests), calls);
    OneTried(path, Plan(t, seen), old(r.requests), calls);
    if Fulfilled(before, t) && (ok || calls != []) {
      ghost var found := FulfilledConverged(before, t);
      SecondSyncIsSilentIff(t, before, before, found, seen, next, path);
    }
  }

  // ---------- the port chains ----------

  ghost function PortChains(n: Names, uid: string): iset<Obj> {
    iset o: Obj | IsPortChain(n, uid, Get(o, "chain"))
  }

  /** One chain more is as it should be, and the ones before still are. */
  lemma SpreadNext(n: Names, f: Family, svc: Service, T0: Table, T: Table, T': Table, done: set<string>, chain: string, held: bool, ok: bool)
    requires Sound(n) && chain !in done
    requires forall c :: c in done + {chain} ==> InChain(EndpointsRules(n, f, svc, svc.endpoints), c) != []
    requires Within(T0, T, PortChains(n, svc.uid), PortChains(n, svc.uid) * OwnRules(n, svc))
    requires held ==> forall c :: c in done ==> Fulfilled(T, DNATTask(f, c, SpreadRules(n, f, svc, c)))
    requires var t := DNATTask(f, chain, SpreadRules(n, f, svc, chain));
             Within(T, T', ScopeOf(t), WritesOf(t)) && (ok ==> Fulfilled(T', t))
    ensures Within(T0, T', PortChains(n, svc.uid), PortChains(n, svc.uid) * OwnRules(n, svc))
    ensures held && ok ==> forall c :: c in done + {chain} ==> Fulfilled(T', DNATTask(f, c, SpreadRules(n, f, svc, c)))
  {
    hide Sound, EndpointsRules, InChain, SpreadRules, Fulfilled, LivesIn, OwnRules, IsPortChain, Within;
    var own := OwnRules(n, svc);
    var t := DNATTask(f, chain, SpreadRules(n, f, svc, chain));
    DNATTaskLives(n, f, svc, chain);
    Settled(T, T', t, Chain(chain), own);
    assert Chain(chain) <= PortChains(n, svc.uid);
    WithinMore(T, T', Chain(chain), Chain(chain) * own, PortChains(n, svc.uid), PortChains(n, svc.uid) * own);
    WithinTogether(T0, T, T', PortChains(n, svc.uid), PortChains(n, svc.uid) * own);
    if held && ok {
      forall c | c in done ensures Fulfilled(T', DNATTask(f, c, SpreadRules(n, f, svc, c))) {
        DNATTaskLives(n, f, svc, c);
        StaysFulfilled(T, T', Chain(chain), Chain(chain) * own, DNATTask(f, c, SpreadRules(n, f, svc, c)), Chain(c));
      }
    }
  }

  ghost predicate AllReady(n: Names, f: Family, svc: Service, T: Table, chains: set<string>) {
    forall c :: c in chains ==> Ready(T, DNATTask(f, c, SpreadRules(n, f, svc, c)))
  }

  lemma AllReadyNext(n: Names, f: Family, svc: Service, T: Table, done: set<string>, c: string)
    ensures AllReady(n, f, svc, T, done + {c}) <==> AllReady(n, f, svc, T, done) && Ready(T, DNATTask(f, c, SpreadRules(n, f, svc, c)))
  {
    hide Ready, SpreadRules;
  }

  /** Every chain with a rule to spread holds its rules already, and these have different ids. */
  ghost predicate SpreadReady(n: Names, f: Family, svc: Service, T: Table) {
    forall chain :: InChain(EndpointsRules(n, f, svc, svc.endpoints), chain) != [] ==>
      Ready(T, DNATTask(f, chain, SpreadRules(n, f, svc, chain)))
  }

  /** Where the loop over the port chains stands: `done` of them tried, from table T0 to T. */
  ghost predicate Spreading(n: Names, f: Family, svc: Service, T0: Table, T: Table, done: set<string>, ok: bool, sent: seq<Call>, sofar: seq<Call>) {
    && (forall c :: c in done ==> InChain(EndpointsRules(n, f, svc, svc.endpoints), c) != [])
    && SilentIff(AllReady(n, f, svc, T0, done), ok, sent, sofar, T0, T)
    && Tried(sent, sofar, NatPath(f), |done|)
    && Within(T0, T, PortChains(n, svc.uid), PortChains(n, svc.uid) * OwnRules(n, svc))
    && (ok ==> forall c :: c in done ==> Fulfilled(T, DNATTask(f, c, SpreadRules(n, f, svc, c))))
  }

  lemma NoneSpread(n: Names, f: Family, svc: Service, T: Table, sent: seq<Call>)
    ensures Spreading(n, f, svc, T, T, {}, true, sent, sent)
  {
    hide InChain, EndpointsRules, Fulfilled, NatPath, Ready, SilentIff, Tried, PortChains, OwnRules, Within;
    Unchanged(T, PortChains(n, svc.uid), PortChains(n, svc.uid) * OwnRules(n, svc));
    NoneReady(n, f, svc, T);
    NothingSent(true, sent, T);
    NothingTried(sent, NatPath(f));
  }

  lemma SpreadRound(n: Names, f: Family, svc: Service, T0: Table, T: Table, T': Table, done: set<string>, chain: string,
                    ok: bool, synced: bool, sent: seq<Call>, sofar: seq<Call>, now: seq<Call>)
    requires Sound(n) && Spreading(n, f, svc, T0, T, done, ok, sent, sofar)
    requires chain !in done && InChain(EndpointsRules(n, f, svc, svc.endpoints), chain) != []
    requires var t := DNATTask(f, chain, SpreadRules(n, f, svc, chain));
             && Within(T, T', ScopeOf(t), WritesOf(t)) && (synced ==> Fulfilled(T', t))
             && SilentIff(Ready(T, t), synced, sofar, now, T, T') && Tried(sofar, now, NatPath(f), 1)
    ensures Spreading(n, f, svc, T0, T', done + {chain}, ok && synced, sent, now)
  {
    hide Sound, InChain, EndpointsRules, SpreadRules, Fulfilled, NatPath, Ready, AllReady, SilentIff, Tried, PortChains, OwnRules, Within, ScopeOf, WritesOf, DNATTask;
    var t := DNATTask(f, chain, SpreadRules(n, f, svc, chain));
    SpreadNext(n, f, svc, T0, T, T', done, chain, ok, synced);
    SilentTogether(AllReady(n, f, svc, T0, done), ok, Ready(T, t), Ready(T0, t), synced, sent, sofar, now, T0, T, T');
    AllReadyNext(n, f, svc, T0, done, chain);
    TriedTogether(sent, sofar, now, NatPath(f), |done|, 1);
  }

  /** Every chain with a rule to spread was tried. */
  ghost predicate AllChainsTried(n: Names, f: Family, svc: Service, before: seq<Call>, after: seq<Call>) {
    exists chains: set<string> :: TriedThese(n, f, svc, before, after, chains)
  }

  ghost predicate TriedThese(n: Names, f: Family, svc: Service, before: seq<Call>, after: seq<Call>, chains: set<string>) {
    && (forall c :: c in chains <==> InChain(EndpointsRules(n, f, svc, svc.endpoints), c) != [])
    && Tried(before, after, NatPath(f), |chains|)
  }

  /** All of them were: what that means for the whole. */
  lemma SpreadDone(n: Names, f: Family, svc: Service, T0: Table, T: Table, chains: set<string>, ok: bool, sent: seq<Call>, now: seq<Call>)
    requires Spreading(n, f, svc, T0, T, chains, ok, sent, now)
    requires forall c :: c in chains <==> InChain(EndpointsRules(n, f, svc, svc.endpoints), c) != []
    ensures Within(T0, T, PortChains(n, svc.uid), PortChains(n, svc.uid) * OwnRules(n, svc))
    ensures SilentIff(SpreadReady(n, f, svc, T0), ok, sent, now, T0, T)
    ensures AllChainsTried(n, f, svc, sent, now) && (ok ==> Spread(n, f, svc, T))
  {
    hide InChain, EndpointsRules, SpreadRules, Fulfilled, NatPath, Ready, AllReady, SpreadReady, SilentIff, Tried, PortChains, OwnRules, Within, DNATTask;
    AllReadyIs(n, f, svc, T0, chains);
    assert TriedThese(n, f, svc, sent, now, chains);
  }

  /** A chain that fails does not keep the others from being tried. */
  method EnsureLBServicePortDNATRules(r: RouterOS, n: Names, f: Family, svc: Service) returns (ok: bool)
    requires r.Valid() && Sound(n)
    modifies r
    ensures r.Valid() && OnlyPath(old(r.resources), r.resources, NatPath(f))
    ensures Truthful(ok, old(r.failures), r.failures)
    ensures SilentIff(SpreadReady(n, f, svc, old(r.At(NatPath(f)))), ok, old(r.requests), r.requests, old(r.At(NatPath(f))), r.At(NatPath(f)))
    ensures Within(old(r.At(NatPath(f))), r.At(NatPath(f)), PortChains(n, svc.uid), PortChains(n, svc.uid) * OwnRules(n, svc))
    ensures AllChainsTried(n, f, svc, old(r.requests), r.requests)
    ensures ok ==> Spread(n, f, svc, r.At(NatPath(f)))
  {
    hide RouterOS.Valid, Sound, Within, Fulfilled, EndpointsRules, InChain, SpreadRules, Shown, NatPath, PortChains, OwnRules, ScopeOf, WritesOf, OwnScope, OnlyListings, SilentIff, Ready, AllReady, Truthful, DNATTask, Tried, Spreading, AllChainsTried, Spread, SpreadReady;
    var spread := SpreadRequests(n, f, svc);
    ghost var T0, sent := r.At(NatPath(f)), r.requests;
    ok := true;
    NoFailure(r.failures);
    NoneSpread(n, f, svc, T0, sent);
    var todo := spread.Keys;
    assert spread.Keys - todo == {};
    while todo != {}
      invariant todo <= spread.Keys && r.Valid() && OnlyPath(old(r.resources), r.resources, NatPath(f))
      invariant Truthful(ok, old(r.failures), r.failures)
      invariant Spreading(n, f, svc, T0, r.At(NatPath(f)), spread.Keys - todo, ok, sent, r.requests)
      decreases |todo|
    {
      var chain :| chain in todo;
      ghost var T, done, sofar, failed := r.At(NatPath(f)), spread.Keys - todo, r.requests, r.failures;
      DNATTaskSettles(n, f, svc, chain);
      DNATIgnores(f, chain, spread[chain]);
      var synced, _ := SyncTo(r, NatPath(f), DNATTask(f, chain, spread[chain]));
      SpreadRound(n, f, svc, T0, T, r.At(NatPath(f)), done, chain, ok, synced, sent, sofar, r.requests);
      TruthfulTogether(ok, synced, old(r.failures), failed, r.failures);
      todo := todo - {chain};
      assert spread.Keys - todo == done + {chain};
      ok := ok && synced;
    }
    assert spread.Keys - {} == spread.Keys;
    SpreadDone(n, f, svc, T0, r.At(NatPath(f)), spread.Keys, ok, sent, r.requests);
  }

  lemma NoFailure(n: nat)
    ensures Truthful(true, n, n)
  {
  }

  lemma DNATIgnores(f: Family, chain: string, reqs: seq<Obj>)
    ensures ID in DNATTask(f, chain, reqs).ignored
  {
  }

  lemma NoneReady(n: Names, f: Family, svc: Service, T: Table)
    ensures AllReady(n, f, svc, T, {})
  {
  }

  lemma AllReadyIs(n: Names, f: Family, svc: Service, T: Table, chains: set<string>)
    requires forall chain :: chain in chains <==> InChain(EndpointsRules(n, f, svc, svc.endpoints), chain) != []
    ensures AllReady(n, f, svc, T, chains) <==> SpreadReady(n, f, svc, T)
  {
    hide Ready, SpreadRules, InChain, EndpointsRules;
  }

  // ---------- the service chain ----------

  /** The chains that the listed rules jump to and no request does. */
  method StaleChains(seen: seq<Obj>, chains: set<string>) returns (stale: set<string>)
    ensures forall c :: c in stale <==> c !in chains && exists o :: o in seen && Get(o, "jump-target") == c
  {
    stale := {};
    for i := 0 to |seen|
      invariant forall c :: c in stale <==> c !in chains && exists o :: o in seen[..i] && Get(o, "jump-target") == c
    {
      assert seen[..i + 1] == seen[..i] + [seen[i]];
      var chain := Get(seen[i], "jump-target");
      if chain !in chains {
        stale := stale + {chain};
      }
    }
    assert seen[..|seen|] == seen;
  }

  ghost function Unordered(s: set<string>): iset<string> {
    iset x | x in s
  }

  function PruneChain(chain: string): Task {
    PruneTask(map["chain" := chain])
  }

  lemma PrunesChain(chain: string)
    ensures LivesIn(PruneChain(chain), Chain(chain)) && WritesOf(PruneChain(chain)) == iset{}
  {
    LivesInChain(PruneChain(chain), chain);
  }

  /** A pruned chain stays pruned while others only delete. */
  lemma PruneNext(T0: Table, T: Table, T': Table, stale: set<string>, done: set<string>, chain: string, held: bool, ok: bool)
    requires chain in stale && Within(T0, T, InChains(Unordered(stale)), iset{})
    requires held ==> forall c :: c in done ==> Fulfilled(T, PruneChain(c))
    requires Within(T, T', ScopeOf(PruneChain(chain)), WritesOf(PruneChain(chain))) && (ok ==> Fulfilled(T', PruneChain(chain)))
    ensures Within(T0, T', InChains(Unordered(stale)), iset{})
    ensures held && ok ==> forall c :: c in done + {chain} ==> Fulfilled(T', PruneChain(c))
  {
    hide Fulfilled, LivesIn, Within, ScopeOf, WritesOf;
    PrunesChain(chain);
    Settled(T, T', PruneChain(chain), Chain(chain), iset{});
    WithinMore(T, T', Chain(chain), Chain(chain) * iset{}, InChains(Unordered(stale)), iset{});
    WithinTogether(T0, T, T', InChains(Unordered(stale)), iset{});
    if held && ok {
      forall c | c in done ensures Fulfilled(T', PruneChain(c)) {
        StaysPruned(T, T', InChains(Unordered(stale)), PruneChain(c));
      }
    }
  }

  lemma StaysPruned(T: Table, T': Table, mine: iset<Obj>, t: Task)
    requires Fulfilled(T, t) && t.reqs == [] && Within(T, T', mine, iset{})
    ensures Fulfilled(T', t)
  {
    hide InScope, Fulfilled;
    PrunedMeans(T, t);
    PrunedMeans(T', t);
  }

  ghost predicate AllPruned(T: Table, chains: set<string>) {
    forall c :: c in chains ==> Fulfilled(T, PruneChain(c))
  }

  lemma AllPrunedNext(T: Table, done: set<string>, c: string)
    ensures AllPruned(T, {}) && (AllPruned(T, done + {c}) <==> AllPruned(T, done) && Ready(T, PruneChain(c)))
  {
    hide Fulfilled;
    PruneSettles(PruneChain(c));
  }

  /** Where the loop over the stale chains stands: `done` of them tried, from table T0 to T. */
  ghost predicate Pruning(f: Family, stale: set<string>, T0: Table, T: Table, done: set<string>, cleaned: bool, sent: seq<Call>, sofar: seq<Call>) {
    && SilentIff(AllPruned(T0, done), cleaned, sent, sofar, T0, T)
    && Tried(sent, sofar, NatPath(f), |done|)
    && Within(T0, T, InChains(Unordered(stale)), iset{})
    && (cleaned ==> AllPruned(T, done))
  }

  lemma NonePruned(f: Family, stale: set<string>, T: Table, sent: seq<Call>)
    ensures Pruning(f, stale, T, T, {}, true, sent, sent)
  {
    hide NatPath, SilentIff, Tried, Within, Fulfilled;
    Unchanged(T, InChains(Unordered(stale)), iset{});
    AllPrunedNext(T, {}, "");
    NothingSent(true, sent, T);
    NothingTried(sent, NatPath(f));
  }

  lemma PruneRound(f: Family, stale: set<string>, T0: Table, T: Table, T': Table, done: set<string>, chain: string,
                   cleaned: bool, pruned: bool, sent: seq<Call>, sofar: seq<Call>, now: seq<Call>)
    requires Pruning(f, stale, T0, T, done, cleaned, sent, sofar) && chain in stale && chain !in done && done <= stale
    requires var t := PruneChain(chain);
             && Within(T, T', ScopeOf(t), WritesOf(t)) && (pruned ==> Fulfilled(T', t))
             && SilentIff(Ready(T, t), pruned, sofar, now, T, T') && Tried(sofar, now, NatPath(f), 1)
    ensures Pruning(f, stale, T0, T', done + {chain}, cleaned && pruned, sent, now)
  {
    hide NatPath, SilentIff, Tried, Within, Fulfilled, Ready, ScopeOf, WritesOf, PruneChain;
    PruneIs(chain);
    PruneNext(T0, T, T', stale, done, chain, cleaned, pruned);
    SilentTogether(AllPruned(T0, done), cleaned, Ready(T, PruneChain(chain)), Ready(T0, PruneChain(chain)), pruned, sent, sofar, now, T0, T, T');
    AllPrunedNext(T0, done, chain);
    TriedTogether(sent, sofar, now, NatPath(f), |done|, 1);
  }

  /** Failures are only logged, and keep no other chain from being tried. */
  method PruneChains(r: RouterOS, f: Family, stale: set<string>) returns (ghost cleaned: bool)
    requires r.Valid()
    modifies r
    ensures r.Valid() && OnlyPath(old(r.resources), r.resources, NatPath(f))
    ensures Truthful(cleaned, old(r.failures), r.failures)
    ensures SilentIff(AllPruned(old(r.At(NatPath(f))), stale), cleaned, old(r.requests), r.requests, old(r.At(NatPath(f))), r.At(NatPath(f)))
    ensures Within(old(r.At(NatPath(f))), r.At(NatPath(f)), InChains(Unordered(stale)), iset{})
    ensures Tried(old(r.requests), r.requests, NatPath(f), |stale|)
    ensures cleaned ==> AllPruned(r.At(NatPath(f)), stale)
  {
    hide RouterOS.Valid, Within, Fulfilled, Shown, NatPath, ScopeOf, WritesOf, OwnScope, OnlyListings, SilentIff, Ready, DistinctRequests, PruneChain, Tried, AllPruned, Truthful;
    ghost var T0, sent := r.At(NatPath(f)), r.requests;
    cleaned := true;
    NoFailure(r.failures);
    NonePruned(f, stale, T0, sent);
    var todo := stale;
    assert stale - todo == {};
    while todo != {}
      invariant todo <= stale && r.Valid() && OnlyPath(old(r.resources), r.resources, NatPath(f))
      invariant Truthful(cleaned, old(r.failures), r.failures)
      invariant Pruning(f, stale, T0, r.At(NatPath(f)), stale - todo, cleaned, sent, r.requests)
      decreases |todo|
    {
      var chain :| chain in todo;
      ghost var T, done, sofar, failed := r.At(NatPath(f)), stale - todo, r.requests, r.failures;
      PruneIs(chain);
      PruneSettles(PruneChain(chain));
      var pruned, _ := SyncTo(r, NatPath(f), PruneChain(chain));
      PruneRound(f, stale, T0, T, r.At(NatPath(f)), done, chain, cleaned, pruned, sent, sofar, r.requests);
      TruthfulTogether(cleaned, pruned, old(r.failures), failed, r.failures);
      todo := todo - {chain};
      assert stale - todo == done + {chain};
      cleaned := cleaned && pruned;
    }
    assert stale - {} == stale;
  }

  lemma PruneIs(chain: string)
    ensures PruneChain(chain).reqs == [] && PruneChain(chain).ignored == {}
  {
  }

  /** The chain belongs to one of the service's ports. */
  ghost predicate ServesPort(n: Names, svc: Service, c: string) {
    exists p :: HasPort(svc.endpoints, p) && Balanced(p) && PortChain(n, svc.uid, p) == c
  }

  /** What ensureLBServicePortRules does to the NAT rules. `stale` are the chains it cleaned up. */
  ghost predicate PortStep(n: Names, svc: Service, T: Table, T': Table, reqs: seq<Obj>, stale: set<string>) {
    var own := ServiceChain(n, svc.uid);
    && PortRequests(n, svc, reqs)
    && (forall c :: c in stale <==> c in JumpTargets(T, own) && !ServesPort(n, svc, c))
    && (own !in stale ==> Fulfilled(T', PortTask(n, svc.uid, reqs)))
  }

  lemma SeenTargets(T: Table, seen: seq<Obj>, chain: string, c: string)
    requires Shown(T, map["chain" := chain], seen)
    ensures (exists o :: o in seen && Get(o, "jump-target") == c) <==> c in JumpTargets(T, chain)
  {
    if o :| o in seen && Get(o, "jump-target") == c {
      var i :| 0 <= i < |seen| && seen[i] == o;
      assert T[Get(seen[i], ID)] == o && MatchesQuery(o, map["chain" := chain]);
    }
    if c in JumpTargets(T, chain) {
      var id :| id in T && Get(T[id], "chain") == chain && Get(T[id], "jump-target") == c;
      assert T[id] in seen;
    }
  }

  /** Pruning the service's own chain leaves nothing of it; pruning others leaves it alone. */
  lemma PortRulesSurvive(n: Names, svc: Service, T: Table, T': Table, reqs: seq<Obj>, stale: set<string>)
    requires Sound(n) && PortRequests(n, svc, reqs) && Fulfilled(T, PortTask(n, svc.uid, reqs))
    requires Within(T, T', InChains(Unordered(stale)), iset{})
    ensures ServiceChain(n, svc.uid) !in stale ==> Fulfilled(T', PortTask(n, svc.uid, reqs))
    ensures AllPruned(T', stale) ==>
              (Fulfilled(T', PortTask(n, svc.uid, reqs)) <==> reqs == [] || ServiceChain(n, svc.uid) !in stale)
  {
    hide Sound, PortRequests, Fulfilled, Within, LivesIn, ServiceChain, WritesOf, ScopeOf;
    var own, t := ServiceChain(n, svc.uid), PortTask(n, svc.uid, reqs);
    PortTaskLives(n, svc, reqs);
    if own !in stale {
      StaysFulfilled(T, T', InChains(Unordered(stale)), iset{}, t, Chain(own));
    } else if Fulfilled(T', PruneChain(own)) {
      PrunedHoldsNothing(T', t, own);
    }
  }

  lemma PrunedIsEmpty(T: Table, chain: string)
    ensures Fulfilled(T, PruneChain(chain)) <==> forall id :: id in T ==> Get(T[id], "chain") != chain
  {
    hide Get, Fulfilled, InScope;
    PrunedMeans(T, PruneChain(chain));
    forall o ensures InScope(PruneChain(chain), o) <==> Get(o, "chain") == chain { PruneChainScope(chain, o); }
  }

  lemma PrunedHoldsNothing(T: Table, t: Task, chain: string)
    requires Fulfilled(T, PruneChain(chain)) && t.query == map["chain" := chain] && LivesIn(t, Chain(chain))
    ensures Fulfilled(T, t) <==> t.reqs == []
  {
    hide Equal, Get, Fulfilled;
    PrunedIsEmpty(T, chain);
    if t.reqs == [] {
      forall id | id in T ensures !InScope(t, T[id]) { }
      PrunedMeans(T, t);
    } else if Fulfilled(T, t) {
      FulfilledMeans(T, t);
      NothingPresent(T, t, chain);
    }
  }

  lemma NothingPresent(T: Table, t: Task, chain: string)
    requires LivesIn(t, Chain(chain)) && t.reqs != [] && forall id :: id in T ==> Get(T[id], "chain") != chain
    ensures !Present(T, t, 0)
  {
    hide Equal, Get;
    forall o | EqualsSome(t, o) ensures Get(o, "chain") == chain {
      assert o in WritesOf(t);
    }
    forall o | Equal(t, o, t.reqs[0]) ensures EqualsSome(t, o) {
    }
  }

  lemma PruneChainScope(chain: string, o: Obj)
    ensures InScope(PruneChain(chain), o) <==> Get(o, "chain") == chain
    ensures !EqualsSome(PruneChain(chain), o)
  {
  }

  /** The service chain holds its port rules already. */
  ghost predicate PortReady(n: Names, svc: Service, T: Table) {
    exists reqs :: PortRequests(n, svc, reqs) && Fulfilled(T, PortTask(n, svc.uid, reqs))
  }

  function IndexOf(s: seq<Obj>, o: Obj): (i: nat)
    requires o in s
    ensures i < |s| && s[i] == o
  {
    if s[0] == o then 0 else 1 + IndexOf(s[1..], o)
  }

  /** The order of the port requests does not matter. */
  lemma AnyOrder(n: Names, svc: Service, T: Table, a: seq<Obj>, b: seq<Obj>)
    requires PortRequests(n, svc, a) && PortRequests(n, svc, b) && Fulfilled(T, PortTask(n, svc.uid, a))
    ensures Fulfilled(T, PortTask(n, svc.uid, b))
  {
    hide PortRule, HasPort, Balanced, Visible, InScope;
    var ta, tb := PortTask(n, svc.uid, a), PortTask(n, svc.uid, b);
    var found: seq<Obj> :| Assigned(T, ta, found);
    forall o ensures o in a <==> o in b { }
    var placed := seq(|b|, j requires 0 <= j < |b| => found[IndexOf(a, b[j])]);
    SameScope(n, svc, a, b);
    Reordered(T, ta, tb, found, placed);
  }

  lemma SameScope(n: Names, svc: Service, a: seq<Obj>, b: seq<Obj>)
    ensures forall o :: InScope(PortTask(n, svc.uid, a), o) <==> InScope(PortTask(n, svc.uid, b), o)
    ensures forall o, req :: Equal(PortTask(n, svc.uid, a), o, req) <==> Equal(PortTask(n, svc.uid, b), o, req)
  {
  }

  lemma Reordered(T: Table, ta: Task, tb: Task, found: seq<Obj>, placed: seq<Obj>)
    requires Assigned(T, ta, found) && |placed| == |tb.reqs|
    requires forall o :: InScope(ta, o) <==> InScope(tb, o)
    requires forall o, req :: Equal(ta, o, req) <==> Equal(tb, o, req)
    requires NoneTwice(ta.reqs) && NoneTwice(tb.reqs) && forall o :: o in ta.reqs <==> o in tb.reqs
    requires forall j :: 0 <= j < |placed| ==> placed[j] == found[IndexOf(ta.reqs, tb.reqs[j])]
    ensures Assigned(T, tb, placed)
  {
    hide Equal, InScope, IdAt;
    forall id | id in T && InScope(tb, T[id]) ensures Serves(placed, id) {
      assert Serves(found, id);
      var i :| 0 <= i < |found| && IdAt(found[i]) == id;
      var j := IndexOf(tb.reqs, ta.reqs[i]);
      assert IndexOf(ta.reqs, tb.reqs[j]) == i;
      assert IdAt(placed[j]) == id;
    }
    forall i, j | 0 <= i < j < |placed| ensures IdAt(placed[i]) != IdAt(placed[j]) {
      var k, l := IndexOf(ta.reqs, tb.reqs[i]), IndexOf(ta.reqs, tb.reqs[j]);
      assert k != l;
    }
  }

  lemma PortReadyIs(n: Names, svc: Service, T: Table, reqs: seq<Obj>)
    requires PortRequests(n, svc, reqs)
    ensures PortReady(n, svc, T) <==> Ready(T, PortTask(n, svc.uid, reqs))
  {
    hide PortRequests, Fulfilled, DistinctRequests;
    PortRequestsDistinct(n, svc, reqs);
    if PortReady(n, svc, T) {
      var others :| PortRequests(n, svc, others) && Fulfilled(T, PortTask(n, svc.uid, others));
      AnyOrder(n, svc, T, others, reqs);
    }
  }

  lemma PortScope(n: Names, svc: Service, reqs: seq<Obj>, o: Obj)
    requires Get(o, "chain") == ServiceChain(n, svc.uid)
    ensures InScope(PortTask(n, svc.uid, reqs), o)
  {
    hide ServiceChain, Get;
  }

  /** With its port rules in place, the service chain jumps to no stale chain. */
  lemma NothingStale(n: Names, svc: Service, T: Table, reqs: seq<Obj>, c: string)
    requires PortRequests(n, svc, reqs) && Fulfilled(T, PortTask(n, svc.uid, reqs)) && c in JumpTargets(T, ServiceChain(n, svc.uid))
    ensures ServesPort(n, svc, c)
  {
    hide Fulfilled, ServiceChain, InScope, Get, EqualsSome, PortRequests;
    FulfilledMeans(T, PortTask(n, svc.uid, reqs));
    var id :| id in T && Get(T[id], "chain") == ServiceChain(n, svc.uid) && Get(T[id], "jump-target") == c;
    PortScope(n, svc, reqs, T[id]);
    EqualServesPort(n, svc, reqs, T[id]);
  }

  lemma EqualServesPort(n: Names, svc: Service, reqs: seq<Obj>, o: Obj)
    requires PortRequests(n, svc, reqs) && EqualsSome(PortTask(n, svc.uid, reqs), o)
    ensures ServesPort(n, svc, Get(o, "jump-target"))
  {
    hide Equal, ServiceChain, HasPort, PortRule, Balanced, Get, PortChain, Marked;
    var t := PortTask(n, svc.uid, reqs);
    var j :| 0 <= j < |reqs| && Equal(t, o, reqs[j]);
    assert reqs[j] in reqs;
    var p :| HasPort(svc.endpoints, p) && Balanced(p) && reqs[j] == PortRule(n, svc, p);
    PortRuleSays(n, svc, p);
    EqualGet(t, o, reqs[j], "jump-target");
  }

  method EnsureLBServicePortRules(r: RouterOS, n: Names, f: Family, svc: Service)
    returns (ok: bool, ghost reqs: seq<Obj>, ghost stale: set<string>, ghost cleaned: bool)
    requires r.Valid() && Sound(n)
    modifies r
    ensures r.Valid() && OnlyPath(old(r.resources), r.resources, NatPath(f))
    ensures Truthful(ok && cleaned, old(r.failures), r.failures)
    ensures SilentIff(PortReady(n, svc, old(r.At(NatPath(f)))), ok, old(r.requests), r.requests, old(r.At(NatPath(f))), r.At(NatPath(f)))
    ensures forall c :: c in stale ==> c in JumpTargets(old(r.At(NatPath(f))), ServiceChain(n, svc.uid))
    ensures Within(old(r.At(NatPath(f))), r.At(NatPath(f)), Chain(ServiceChain(n, svc.uid)) + InChains(Unordered(stale)),
                   OwnRules(n, svc) * Chain(ServiceChain(n, svc.uid)))
    ensures ok ==> PortStep(n, svc, old(r.At(NatPath(f))), r.At(NatPath(f)), reqs, stale)
    ensures ok && cleaned ==> AllPruned(r.At(NatPath(f)), stale)
    ensures ok && cleaned ==>
              (Fulfilled(r.At(NatPath(f)), PortTask(n, svc.uid, reqs)) <==> reqs == [] || ServiceChain(n, svc.uid) !in stale)
  {
    hide RouterOS.Valid, Sound, Within, Fulfilled, Shown, NatPath, ScopeOf, WritesOf, PortRequests, ServiceChain, LivesIn, OwnRules, HasPort, PortChain, JumpTargets, OwnScope, OnlyListings, DistinctRequests, PortReady, SilentIff, AllPruned;
    ghost var own, mine, T, sent := Chain(ServiceChain(n, svc.uid)), OwnRules(n, svc), r.At(NatPath(f)), r.requests;
    stale, cleaned := {}, true;
    var requests, chains := PortRequestsOf(n, svc);
    reqs := requests;
    PortTaskLives(n, svc, reqs);
    PortTaskSettles(n, svc, reqs);
    PortReadyIs(n, svc, T, reqs);
    var seen;
    ok, seen := SyncTo(r, NatPath(f), PortTask(n, svc.uid, requests));
    ghost var T1, listed := r.At(NatPath(f)), r.requests;
    Settled(T, T1, PortTask(n, svc.uid, reqs), own, mine);
    WithinMore(T, T1, own, own * mine, own + InChains(Unordered(stale)), mine * own);
    if !ok {
      return;
    }
    var unused := StaleChains(seen, chains);
    stale := unused;
    forall c ensures (exists o :: o in seen && Get(o, "jump-target") == c) <==> c in JumpTargets(T, ServiceChain(n, svc.uid)) {
      SeenTargets(T, seen, ServiceChain(n, svc.uid), c);
    }
    cleaned := PruneChains(r, f, unused);
    PortRulesSurvive(n, svc, T1, r.At(NatPath(f)), reqs, stale);
    WithinMore(T, T1, own, own * mine, own + InChains(Unordered(stale)), mine * own);
    WithinMore(T1, r.At(NatPath(f)), InChains(Unordered(stale)), iset{}, own + InChains(Unordered(stale)), mine * own);
    WithinTogether(T, T1, r.At(NatPath(f)), own + InChains(Unordered(stale)), mine * own);
    if PortReady(n, svc, T) {
      forall c ensures c !in stale {
        if c in JumpTargets(T, ServiceChain(n, svc.uid)) { NothingStale(n, svc, T, reqs, c); }
      }
      assert stale == {};
    }
    PruningSilent(PortReady(n, svc, T), ok, stale, cleaned, sent, listed, r.requests, T, T1, r.At(NatPath(f)));
  }

  lemma PruningSilent(ready: bool, ok: bool, stale: set<string>, cleaned: bool, a: seq<Call>, b: seq<Call>, c: seq<Call>, T: Table, T': Table, T'': Table)
    requires SilentIff(ready, ok, a, b, T, T') && SilentIff(AllPruned(T', stale), cleaned, b, c, T', T'') && ok
    requires ready ==> stale == {}
    ensures SilentIff(ready, ok, a, c, T, T'')
  {
    hide OnlyListings, Fulfilled, PruneChain;
    ListingsTogether(a, b, c);
  }

  // ---------- the single calls ----------

  method EnsureLBConnectionChainRule(r: RouterOS, f: Family) returns (ok: bool)
    requires r.Valid()
    modifies r
    ensures Truthful(ok, old(r.failures), r.failures)
    ensures r.Valid() && OnlyPath(old(r.resources), r.resources, NatPath(f))
    ensures SilentIff(Fulfilled(old(r.At(NatPath(f))), ConnectionTask()), ok, old(r.requests), r.requests, old(r.At(NatPath(f))), r.At(NatPath(f)))
    ensures Within(old(r.At(NatPath(f))), r.At(NatPath(f)), ScopeOf(ConnectionTask()), WritesOf(ConnectionTask()))
    ensures ok ==> Fulfilled(r.At(NatPath(f)), ConnectionTask())
  {
    hide RouterOS.Valid, Within, Fulfilled, OwnScope, OnlyListings, DistinctRequests, Shown;
    ConnectionTaskSettles();
    var seen;
    ok, seen := SyncTo(r, NatPath(f), ConnectionTask());
  }

  method EnsureSNATRule(r: RouterOS, f: Family) returns (ok: bool)
    requires r.Valid()
    modifies r
    ensures Truthful(ok, old(r.failures), r.failures)
    ensures r.Valid() && OnlyPath(old(r.resources), r.resources, NatPath(f))
    ensures SilentIff(Fulfilled(old(r.At(NatPath(f))), SourceJumpTask()), ok, old(r.requests), r.requests, old(r.At(NatPath(f))), r.At(NatPath(f)))
    ensures Within(old(r.At(NatPath(f))), r.At(NatPath(f)), ScopeOf(SourceJumpTask()), WritesOf(SourceJumpTask()))
    ensures ok ==> Fulfilled(r.At(NatPath(f)), SourceJumpTask())
  {
    hide RouterOS.Valid, Within, Fulfilled, OwnScope, OnlyListings, DistinctRequests, Shown;
    SourceJumpTaskSettles();
    var seen;
    ok, seen := SyncTo(r, NatPath(f), SourceJumpTask());
  }

  method EnsureLBServiceRule(r: RouterOS, n: Names, f: Family, svc: Service) returns (ok: bool)
    requires r.Valid()
    modifies r
    ensures Truthful(ok, old(r.failures), r.failures)
    ensures r.Valid() && OnlyPath(old(r.resources), r.resources, NatPath(f))
    ensures var t := ServiceTask(n, svc.uid, ServiceRules(n, f, svc, svc.lbIPs));
            && Within(old(r.At(NatPath(f))), r.At(NatPath(f)), ScopeOf(t), WritesOf(t))
            && SilentIff(Ready(old(r.At(NatPath(f))), t), ok, old(r.requests), r.requests, old(r.At(NatPath(f))), r.At(NatPath(f)))
            && (ok ==> Fulfilled(r.At(NatPath(f)), t))
  {
    hide RouterOS.Valid, Within, Fulfilled, OwnScope, OnlyListings, DistinctRequests, Shown;
    ServiceTaskSettles(n, f, svc);
    var reqs := ServiceRequests(n, f, svc);
    var seen;
    ok, seen := SyncTo(r, NatPath(f), ServiceTask(n, svc.uid, reqs));
  }

  method EnsureLBIPsList(r: RouterOS, n: Names, f: Family, svc: Service) returns (ok: bool)
    requires r.Valid()
    modifies r
    ensures Truthful(ok, old(r.failures), r.failures)
    ensures r.Valid() && OnlyPath(old(r.resources), r.resources, ListPath(f))
    ensures var t := LBListTask(n, svc, ListEntries(n, f, svc, LB_LIST, svc.lbIPs));
            && Within(old(r.At(ListPath(f))), r.At(ListPath(f)), ScopeOf(t), WritesOf(t))
            && SilentIff(Ready(old(r.At(ListPath(f))), t), ok, old(r.requests), r.requests, old(r.At(ListPath(f))), r.At(ListPath(f)))
            && (ok ==> Fulfilled(r.At(ListPath(f)), t))
  {
    hide RouterOS.Valid, Within, Fulfilled, OwnScope, OnlyListings, DistinctRequests, Shown;
    LBListTaskSettles(n, f, svc);
    var reqs := ListRequests(n, f, svc, LB_LIST, svc.lbIPs);
    var seen;
    ok, seen := SyncTo(r, ListPath(f), LBListTask(n, svc, reqs));
  }

  method EnsureSNATSrcIPsList(r: RouterOS, n: Names, f: Family, svc: Service) returns (ok: bool)
    requires r.Valid()
    modifies r
    ensures Truthful(ok, old(r.failures), r.failures)
    ensures r.Valid() && OnlyPath(old(r.resources), r.resources, ListPath(f))
    ensures var t := SourceListTask(n, svc.uid, SourceEntries(n, f, svc, svc.endpoints));
            && Within(old(r.At(ListPath(f))), r.At(ListPath(f)), ScopeOf(t), WritesOf(t))
            && SilentIff(Ready(old(r.At(ListPath(f))), t), ok, old(r.requests), r.requests, old(r.At(ListPath(f))), r.At(ListPath(f)))
            && (ok ==> Fulfilled(r.At(ListPath(f)), t))
  {
    hide RouterOS.Valid, Within, Fulfilled, OwnScope, OnlyListings, DistinctRequests, Shown;
    SourceTaskSettles(n, f, svc);
    var reqs := SourceRequests(n, f, svc);
    var seen;
    ok, seen := SyncTo(r, ListPath(f), SourceListTask(n, svc.uid, reqs));
  }

  method EnsureSNATServiceRule(r: RouterOS, n: Names, f: Family, svc: Service) returns (ok: bool)
    requires r.Valid()
    modifies r
    ensures Truthful(ok, old(r.failures), r.failures)
    ensures r.Valid() && OnlyPath(old(r.resources), r.resources, NatPath(f))
    ensures var t := SNATTask(n, f, svc.uid, SNATRules(n, f, svc));
            && Within(old(r.At(NatPath(f))), r.At(NatPath(f)), ScopeOf(t), WritesOf(t))
            && SilentIff(Ready(old(r.At(NatPath(f))), t), ok, old(r.requests), r.requests, old(r.At(NatPath(f))), r.At(NatPath(f)))
            && (ok ==> Fulfilled(r.At(NatPath(f)), t))
  {
    hide RouterOS.Valid, Within, Fulfilled, OwnScope, OnlyListings, DistinctRequests, Shown;
    SNATTaskSettles(n, f, svc);
    var reqs := [];
    if SNATIP(svc, f).Addr? {
      reqs := [SNATRule(n, f, svc)];
    }
    var seen;
    ok, seen := SyncTo(r, NatPath(f), SNATTask(n, f, svc.uid, reqs));
  }

  function MarkedEntries(uid: string): Task {
    PruneMarkedTask(map["list" := LB_LIST], uid)
  }

  function MarkedRules(uid: string): Task {
    PruneMarkedTask(map[], uid)
  }

  function ServiceSNAT(n: Names, uid: string): Task {
    PruneTask(map["chain" := SNAT_CHAIN, "src-address-list" := SourceList(n, uid)])
  }

  function ServiceSources(n: Names, uid: string): Task {
    PruneTask(map["list" := SourceList(n, uid)])
  }

  /** One of the deleting calls. */
  method Prune(r: RouterOS, path: string, t: Task) returns (ok: bool)
    requires r.Valid() && t.reqs == [] && t.ignored == {}
    modifies r
    ensures Truthful(ok, old(r.failures), r.failures)
    ensures SilentIff(Fulfilled(old(r.At(path)), t), ok, old(r.requests), r.requests, old(r.At(path)), r.At(path))
    ensures r.Valid() && OnlyPath(old(r.resources), r.resources, path)
    ensures Within(old(r.At(path)), r.At(path), ScopeOf(t), iset{})
    ensures Tried(old(r.requests), r.requests, path, 1)
    ensures ok ==> Fulfilled(r.At(path), t)
  {
    hide RouterOS.Valid, Within, Fulfilled, OwnScope, OnlyListings, DistinctRequests, Shown, Tried;
    PrunesOnly(t);
    PruneSettles(t);
    var seen;
    ok, seen := SyncTo(r, path, t);
  }

  // ---------- the load balancer part ----------

  /** Whatever happens, only the service's rules are touched, the chains its own chain jumps to included. */
  ghost function RulesTouched(n: Names, uid: string, T: Table): iset<Obj> {
    RulesOf(n, uid) + InChains(JumpTargets(T, ServiceChain(n, uid)))
  }

  /** How far EnsureService's changes to the rules of a family reach. */
  ghost predicate RulesStep(n: Names, svc: Service, before: Table, after: Table) {
    Within(before, after, RulesTouched(n, svc.uid, before), OwnRules(n, svc))
  }

  ghost predicate EntriesStep(n: Names, svc: Service, before: Table, after: Table) {
    Within(before, after, EntriesOf(n, svc), OwnEntries(n, svc.uid))
  }

  /** After the destination NAT rules, the service chain still has the jumps it had. */
  lemma SameJumps(n: Names, svc: Service, T: Table, T': Table)
    requires Sound(n) && Within(T, T', PortChains(n, svc.uid), PortChains(n, svc.uid) * OwnRules(n, svc))
    ensures JumpTargets(T', ServiceChain(n, svc.uid)) == JumpTargets(T, ServiceChain(n, svc.uid))
  {
    hide Sound, ServiceChain, PortChain, OwnRules, Get;
    var own := ServiceChain(n, svc.uid);
    assert !IsPortChain(n, svc.uid, own) by { OwnChainIsNoPortChain(n, svc.uid); }
    forall c ensures c in JumpTargets(T, own) <==> c in JumpTargets(T', own) {
      if id :| id in T && Get(T[id], "chain") == own && Get(T[id], "jump-target") == c {
        assert T'[id] == T[id];
      }
      if id :| id in T' && Get(T'[id], "chain") == own && Get(T'[id], "jump-target") == c {
        assert T[id] == T'[id];
      }
    }
  }

  lemma OwnChainIsNoPortChain(n: Names, uid: string)
    requires Sound(n)
    ensures !IsPortChain(n, uid, ServiceChain(n, uid)) && !IsPortChain(n, uid, DNAT_CHAIN) && !IsPortChain(n, uid, SNAT_CHAIN)
  {
    hide PortChain, ServiceChain;
    forall p ensures PortChain(n, uid, p) !in {ServiceChain(n, uid), DNAT_CHAIN, SNAT_CHAIN} {
      ChainsApart(n, uid, uid, p);
    }
  }

  lemma DNATWithin(n: Names, svc: Service, T0: Table, T: Table, T': Table)
    requires Within(T, T', PortChains(n, svc.uid), PortChains(n, svc.uid) * OwnRules(n, svc))
    ensures Within(T, T', RulesTouched(n, svc.uid, T0), OwnRules(n, svc))
  {
    hide Within, IsPortChain, OwnRules, ServiceChain, SourceList, Marked, JumpTargets;
    WithinMore(T, T', PortChains(n, svc.uid), PortChains(n, svc.uid) * OwnRules(n, svc), RulesTouched(n, svc.uid, T0), OwnRules(n, svc));
  }

  lemma PortWithin(n: Names, svc: Service, T0: Table, T: Table, T': Table, stale: set<string>)
    requires Within(T, T', Chain(ServiceChain(n, svc.uid)) + InChains(Unordered(stale)), OwnRules(n, svc) * Chain(ServiceChain(n, svc.uid)))
    requires forall c :: c in stale ==> c in JumpTargets(T0, ServiceChain(n, svc.uid))
    ensures Within(T, T', RulesTouched(n, svc.uid, T0), OwnRules(n, svc))
  {
    hide Within, IsPortChain, OwnRules, ServiceChain, SourceList, Marked, JumpTargets;
    WithinMore(T, T', Chain(ServiceChain(n, svc.uid)) + InChains(Unordered(stale)), OwnRules(n, svc) * Chain(ServiceChain(n, svc.uid)),
               RulesTouched(n, svc.uid, T0), OwnRules(n, svc));
  }

  lemma TaskWithin(n: Names, svc: Service, T0: Table, T: Table, T': Table, t: Task)
    requires Within(T, T', ScopeOf(t), WritesOf(t)) && LivesIn(t, RulesOf(n, svc.uid)) && WritesOf(t) <= OwnRules(n, svc)
    ensures Within(T, T', RulesTouched(n, svc.uid, T0), OwnRules(n, svc))
  {
    hide Within, RulesOf, OwnRules, JumpTargets, ScopeOf, WritesOf;
    WithinMore(T, T', ScopeOf(t), WritesOf(t), RulesTouched(n, svc.uid, T0), OwnRules(n, svc));
  }

  /** The chains of the destination NAT rules are jumped to, so they are never stale. */
  lemma SpreadNotStale(n: Names, f: Family, svc: Service, chain: string)
    requires InChain(EndpointsRules(n, f, svc, svc.endpoints), chain) != []
    ensures exists p :: HasPort(svc.endpoints, p) && Balanced(p) && PortChain(n, svc.uid, p) == chain
  {
    hide EndpointsRules, InChain, DNATRule, Offers, PortChain, HasPort;
    var all := EndpointsRules(n, f, svc, svc.endpoints);
    var o := InChain(all, chain)[0];
    InChainAre(all, chain, o);
    EndpointsRulesAre(n, f, svc, svc.endpoints, o);
    var p, ip :| Offers(svc.endpoints, p, ip) && Balanced(p) && OfFamily(ip, f) && o == DNATRule(n, f, svc, p, ip);
    RuleChain(n, f, svc, p, ip);
    OffersPort(svc.endpoints, p, ip);
  }

  /** The destination NAT rules survive the port rules and the service rule. */
  lemma SpreadStays(n: Names, f: Family, svc: Service, T1: Table, T2: Table, T3: Table, stale: set<string>)
    requires Sound(n) && Spread(n, f, svc, T1)
    requires Within(T1, T2, Chain(ServiceChain(n, svc.uid)) + InChains(Unordered(stale)), OwnRules(n, svc) * Chain(ServiceChain(n, svc.uid)))
    requires forall p :: HasPort(svc.endpoints, p) && Balanced(p) ==> PortChain(n, svc.uid, p) !in stale
    requires Within(T2, T3, Chain(DNAT_CHAIN), Chain(DNAT_CHAIN))
    ensures Spread(n, f, svc, T3)
  {
    hide Within, Fulfilled, EndpointsRules, InChain, SpreadRules, LivesIn, OwnRules, ServiceChain, Sound, HasPort, PortChain, IsPortChain;
    forall chain | InChain(EndpointsRules(n, f, svc, svc.endpoints), chain) != []
      ensures Fulfilled(T3, DNATTask(f, chain, SpreadRules(n, f, svc, chain))) {
      var t := DNATTask(f, chain, SpreadRules(n, f, svc, chain));
      DNATTaskLives(n, f, svc, chain);
      SpreadNotStale(n, f, svc, chain);
      OwnChainIsNoPortChain(n, svc.uid);
      StaysFulfilled(T1, T2, Chain(ServiceChain(n, svc.uid)) + InChains(Unordered(stale)),
                     OwnRules(n, svc) * Chain(ServiceChain(n, svc.uid)), t, Chain(chain));
      StaysFulfilled(T2, T3, Chain(DNAT_CHAIN), Chain(DNAT_CHAIN), t, Chain(chain));
    }
  }

  /** All three steps done, the service is programmed. */
  lemma ProgrammedBySteps(n: Names, f: Family, svc: Service, T1: Table, T2: Table, T3: Table, reqs: seq<Obj>, stale: set<string>)
    requires Sound(n) && Spread(n, f, svc, T1) && PortStep(n, svc, T1, T2, reqs, stale) && ServiceChain(n, svc.uid) !in stale
    requires Within(T1, T2, Chain(ServiceChain(n, svc.uid)) + InChains(Unordered(stale)), OwnRules(n, svc) * Chain(ServiceChain(n, svc.uid)))
    requires var t := ServiceTask(n, svc.uid, ServiceRules(n, f, svc, svc.lbIPs)); Within(T2, T3, ScopeOf(t), WritesOf(t)) && Fulfilled(T3, t)
    ensures Programmed(n, f, svc, T3, reqs)
  {
    hide Within, Fulfilled, Spread, LivesIn, OwnRules, ServiceChain, Sound, HasPort, PortChain, PortRequests, ScopeOf, WritesOf, JumpTargets, ServiceRules;
    var t := ServiceTask(n, svc.uid, ServiceRules(n, f, svc, svc.lbIPs));
    ServiceTaskLives(n, f, svc);
    Settled(T2, T3, t, Chain(DNAT_CHAIN), OwnRules(n, svc));
    WithinMore(T2, T3, Chain(DNAT_CHAIN), Chain(DNAT_CHAIN) * OwnRules(n, svc), Chain(DNAT_CHAIN), Chain(DNAT_CHAIN));
    SpreadStays(n, f, svc, T1, T2, T3, stale);
    PortTaskLives(n, svc, reqs);
    ChainsApart(n, svc.uid, svc.uid, Port(0, 0, "TCP"));
    StaysFulfilled(T2, T3, Chain(DNAT_CHAIN), Chain(DNAT_CHAIN), PortTask(n, svc.uid, reqs), Chain(ServiceChain(n, svc.uid)));
  }

  /** Only the rules and lists of one family changed. */
  ghost predicate OnlyFamily(before: map<string, Table>, after: map<string, Table>, f: Family) {
    forall p :: p != NatPath(f) && p != ListPath(f) ==> TableOf(before, p) == TableOf(after, p)
  }

  /** No rule of the service chain jumps back to it. */
  ghost predicate NoJumpBack(n: Names, uid: string, T: Table) {
    ServiceChain(n, uid) !in JumpTargets(T, ServiceChain(n, uid))
  }

  /** What the ghost results of EnsureService tell: the port rules' requests, and whether every stale chain was cleaned up. */
  datatype Outcome = Outcome(reqs: seq<Obj>, cleaned: bool)

  /** Every chain the service chain jumped to before is empty, but for those of the service's ports and the fixed
      chains that are written to again. */
  ghost predicate Cleaned(n: Names, svc: Service, before: Table, after: Table) {
    forall c :: c in JumpTargets(before, ServiceChain(n, svc.uid)) && !ServesPort(n, svc, c) && c !in {DNAT_CHAIN, SNAT_CHAIN} ==>
      Fulfilled(after, PruneChain(c))
  }

  lemma PrunedApart(T: Table, T': Table, mine: iset<Obj>, home: iset<Obj>, c: string)
    requires Fulfilled(T, PruneChain(c)) && Within(T, T', mine, home) && home !! Chain(c)
    ensures Fulfilled(T', PruneChain(c))
  {
    hide Within, Fulfilled;
    forall o | InScope(PruneChain(c), o) ensures o !in home { PruneChainScope(c, o); }
    forall o ensures !EqualsSome(PruneChain(c), o) { PruneChainScope(c, o); }
    StillFulfilled(T, T', mine, home, PruneChain(c));
  }

  lemma CleanedBySteps(n: Names, f: Family, svc: Service, T0: Table, T1: Table, T2: Table, T3: Table, reqs: seq<Obj>, stale: set<string>)
    requires Sound(n) && PortStep(n, svc, T1, T2, reqs, stale)
    requires JumpTargets(T1, ServiceChain(n, svc.uid)) == JumpTargets(T0, ServiceChain(n, svc.uid))
    requires AllPruned(T2, stale)
    requires var t := ServiceTask(n, svc.uid, ServiceRules(n, f, svc, svc.lbIPs)); Within(T2, T3, ScopeOf(t), WritesOf(t))
    ensures Cleaned(n, svc, T0, T3)
  {
    hide Sound, Within, Fulfilled, LivesIn, OwnRules, ServiceChain, PortRequests, ScopeOf, WritesOf, JumpTargets, ServiceRules, ServesPort, RulesOf;
    var t := ServiceTask(n, svc.uid, ServiceRules(n, f, svc, svc.lbIPs));
    ServiceTaskLives(n, f, svc);
    ListSettled(T2, T3, t, Chain(DNAT_CHAIN));
    forall c | c in JumpTargets(T0, ServiceChain(n, svc.uid)) && !ServesPort(n, svc, c) && c !in {DNAT_CHAIN, SNAT_CHAIN}
      ensures Fulfilled(T3, PruneChain(c)) {
      PrunedApart(T2, T3, Chain(DNAT_CHAIN), Chain(DNAT_CHAIN), c);
    }
  }

  lemma StepGives(n: Names, svc: Service, T: Table, T': Table, reqs: seq<Obj>, stale: set<string>)
    requires PortStep(n, svc, T, T', reqs, stale)
    ensures PortRequests(n, svc, reqs)
  {
  }

  /** The rules of the first three steps are there already, with different ids. */
  ghost predicate RulesReady(n: Names, f: Family, svc: Service, T: Table) {
    SpreadReady(n, f, svc, T) && PortReady(n, svc, T) && Ready(T, ServiceTask(n, svc.uid, ServiceRules(n, f, svc, svc.lbIPs)))
  }

  /** The first three steps of a family with load balancer IPs. */
  method EnsureLBRules(r: RouterOS, n: Names, f: Family, svc: Service) returns (ok: bool, ghost reqs: seq<Obj>, ghost cleaned: bool)
    requires r.Valid() && Sound(n)
    modifies r
    ensures r.Valid() && OnlyPath(old(r.resources), r.resources, NatPath(f))
    ensures Truthful(ok && cleaned, old(r.failures), r.failures)
    ensures SilentIff(RulesReady(n, f, svc, old(r.At(NatPath(f)))), ok, old(r.requests), r.requests, old(r.At(NatPath(f))), r.At(NatPath(f)))
    ensures RulesStep(n, svc, old(r.At(NatPath(f))), r.At(NatPath(f)))
    ensures ok ==> PortRequests(n, svc, reqs)
    ensures ok && NoJumpBack(n, svc.uid, old(r.At(NatPath(f)))) ==> Programmed(n, f, svc, r.At(NatPath(f)), reqs)
    ensures ok && cleaned ==> Cleaned(n, svc, old(r.At(NatPath(f))), r.At(NatPath(f)))
  {
    hide Cleaned, PortRequests, PruneChain, RouterOS.Valid, Sound, Within, Fulfilled, NatPath, ScopeOf, WritesOf, ServiceChain, OwnRules, JumpTargets, RulesTouched, PortStep, Programmed, Spread, PortChains, LivesIn, ServiceRules, SilentIff, SpreadReady, PortReady, Ready, ServiceTask;
    reqs, cleaned := [], false;
    ghost var sent, t := r.requests, ServiceTask(n, svc.uid, ServiceRules(n, f, svc, svc.lbIPs));
    ghost var T0, touched, own := r.At(NatPath(f)), RulesTouched(n, svc.uid, r.At(NatPath(f))), OwnRules(n, svc);
    ok := EnsureLBServicePortDNATRules(r, n, f, svc);
    ghost var T1 := r.At(NatPath(f));
    ghost var sent1 := r.requests;
    DNATWithin(n, svc, T0, T0, T1);
    if !ok {
      SilentSoFar(SpreadReady(n, f, svc, T0), PortReady(n, svc, T0) && Ready(T0, t), sent, sent1, T0, T1);
      return;
    }
    SameJumps(n, svc, T0, T1);
    ghost var stale;
    ok, reqs, stale, cleaned := EnsureLBServicePortRules(r, n, f, svc);
    ghost var T2 := r.At(NatPath(f));
    ghost var sent2 := r.requests;
    PortWithin(n, svc, T0, T1, T2, stale);
    WithinTogether(T0, T1, T2, touched, own);
    SilentTogether(SpreadReady(n, f, svc, T0), true, PortReady(n, svc, T1), PortReady(n, svc, T0), ok, sent, sent1, sent2, T0, T1, T2);
    if !ok {
      SilentSoFar(SpreadReady(n, f, svc, T0) && PortReady(n, svc, T0), Ready(T0, t), sent, sent2, T0, T2);
      return;
    }
    ok := EnsureLBServiceRule(r, n, f, svc);
    ghost var T3 := r.At(NatPath(f));
    SilentTogether(SpreadReady(n, f, svc, T0) && PortReady(n, svc, T0), true, Ready(T2, t), Ready(T0, t), ok, sent, sent2, r.requests, T0, T2, T3);
    ServiceTaskLives(n, f, svc);
    TaskWithin(n, svc, T0, T2, T3, ServiceTask(n, svc.uid, ServiceRules(n, f, svc, svc.lbIPs)));
    WithinTogether(T0, T2, T3, touched, own);
    if ok && NoJumpBack(n, svc.uid, T0) {
      ProgrammedBySteps(n, f, svc, T1, T2, T3, reqs, stale);
    }
    if ok && cleaned {
      CleanedBySteps(n, f, svc, T0, T1, T2, T3, reqs, stale);
    }
    StepGives(n, svc, T1, T2, reqs, stale);
  }

  lemma EntriesWithin(n: Names, svc: Service, L: Table, L': Table, t: Task)
    requires Within(L, L', ScopeOf(t), WritesOf(t)) && LivesIn(t, EntriesOf(n, svc)) && WritesOf(t) <= OwnEntries(n, svc.uid)
    ensures EntriesStep(n, svc, L, L')
  {
    hide Within, EntriesOf, OwnEntries, ScopeOf, WritesOf;
    WithinMore(L, L', ScopeOf(t), WritesOf(t), EntriesOf(n, svc), OwnEntries(n, svc.uid));
  }

  lemma PrunesEntries(n: Names, svc: Service, L: Table, L': Table, t: Task)
    requires Within(L, L', ScopeOf(t), iset{}) && LivesIn(t, EntriesOf(n, svc))
    ensures EntriesStep(n, svc, L, L')
  {
    hide Within, EntriesOf, OwnEntries, ScopeOf, WritesOf;
    WithinMore(L, L', ScopeOf(t), iset{}, EntriesOf(n, svc), OwnEntries(n, svc.uid));
  }

  lemma PrunesRules(n: Names, svc: Service, T0: Table, T: Table, T': Table, t: Task)
    requires Within(T, T', ScopeOf(t), iset{}) && LivesIn(t, RulesOf(n, svc.uid))
    ensures Within(T, T', RulesTouched(n, svc.uid, T0), OwnRules(n, svc))
  {
    hide Within, RulesOf, OwnRules, JumpTargets, ScopeOf, WritesOf;
    WithinMore(T, T', ScopeOf(t), iset{}, RulesTouched(n, svc.uid, T0), OwnRules(n, svc));
  }

  lemma MarkedEntriesLive(n: Names, svc: Service)
    ensures LivesIn(MarkedEntries(svc.uid), EntriesOf(n, svc)) && LivesIn(MarkedRules(svc.uid), RulesOf(n, svc.uid))
    ensures LivesIn(ServiceSources(n, svc.uid), EntriesOf(n, svc)) && LivesIn(ServiceSources(n, svc.uid), List(SourceList(n, svc.uid)))
    ensures LivesIn(ServiceSNAT(n, svc.uid), RulesOf(n, svc.uid)) && LivesIn(ServiceSNAT(n, svc.uid), Chain(SNAT_CHAIN))
  {
    hide LivesIn;
    MarkedLive(n, svc);
    SourcesLive(n, svc);
    SNATLives(n, svc.uid);
  }

  lemma MarkedLive(n: Names, svc: Service)
    ensures LivesIn(MarkedEntries(svc.uid), EntriesOf(n, svc)) && LivesIn(MarkedRules(svc.uid), RulesOf(n, svc.uid))
  {
    hide Marked, SourceList, ServiceChain, IsPortChain, BeforeSlash;
  }

  lemma SourcesLive(n: Names, svc: Service)
    ensures LivesIn(ServiceSources(n, svc.uid), EntriesOf(n, svc)) && LivesIn(ServiceSources(n, svc.uid), List(SourceList(n, svc.uid)))
  {
    hide Marked, SourceList, ServiceChain, IsPortChain, BeforeSlash;
  }

  lemma SNATLives(n: Names, uid: string)
    ensures LivesIn(ServiceSNAT(n, uid), RulesOf(n, uid)) && LivesIn(ServiceSNAT(n, uid), Chain(SNAT_CHAIN))
  {
    hide Marked, SourceList, ServiceChain, IsPortChain, BeforeSlash;
  }

  /** Nothing of the load balancer part is left: the only marked rules are the service's source NAT rules. */
  ghost predicate Unbalanced(n: Names, uid: string, T: Table, L: Table) {
    && (forall id :: id in T && Marked(T[id], uid) ==>
          Get(T[id], "chain") == SNAT_CHAIN && Get(T[id], "src-address-list") == SourceList(n, uid))
    && (forall id :: id in L && Get(L[id], "list") == LB_LIST ==> !Marked(L[id], uid))
  }

  lemma UnbalancedByPruning(n: Names, uid: string, T: Table, L: Table)
    requires Fulfilled(T, MarkedRules(uid)) && Fulfilled(L, MarkedEntries(uid))
    ensures Unbalanced(n, uid, T, L)
  {
    hide Marked, Get, InScope, Fulfilled;
    PrunedMeans(T, MarkedRules(uid));
    PrunedMeans(L, MarkedEntries(uid));
    forall id | id in T ensures !Marked(T[id], uid) {
      MarkedScope(uid, T[id]);
    }
    forall id | id in L && Get(L[id], "list") == LB_LIST ensures !Marked(L[id], uid) {
      MarkedScope(uid, L[id]);
    }
  }

  lemma MarkedScope(uid: string, o: Obj)
    ensures InScope(MarkedRules(uid), o) <==> Marked(o, uid)
    ensures InScope(MarkedEntries(uid), o) <==> Marked(o, uid) && Get(o, "list") == LB_LIST
    ensures !EqualsSome(MarkedRules(uid), o) && !EqualsSome(MarkedEntries(uid), o)
  {
    hide Marked;
  }

  /** What the load balancer part leaves for a family with load balancer IPs. */
  ghost predicate Balancing(n: Names, f: Family, svc: Service, before: Table, T: Table, L: Table, outcome: Outcome) {
    && PortRequests(n, svc, outcome.reqs) && LBListed(n, f, svc, L)
    && (NoJumpBack(n, svc.uid, before) ==> Programmed(n, f, svc, T, outcome.reqs))
    && (outcome.cleaned ==> Cleaned(n, svc, before, T))
  }

  /** The load balancer part would change nothing. */
  ghost predicate BalancingReady(n: Names, f: Family, svc: Service, T: Table, L: Table) {
    if HasLBIP(svc, f) then RulesReady(n, f, svc, T) && Ready(L, LBListTask(n, svc, ListEntries(n, f, svc, LB_LIST, svc.lbIPs)))
    else Fulfilled(L, MarkedEntries(svc.uid)) && Fulfilled(T, MarkedRules(svc.uid))
  }

  /** The load balancer part of EnsureService for one family. */
  method EnsureLB(r: RouterOS, n: Names, f: Family, svc: Service) returns (ok: bool, ghost outcome: Outcome)
    requires r.Valid() && Sound(n)
    modifies r
    ensures r.Valid() && OnlyFamily(old(r.resources), r.resources, f)
    ensures Truthful(ok && (HasLBIP(svc, f) ==> outcome.cleaned), old(r.failures), r.failures)
    ensures SilentIff(BalancingReady(n, f, svc, old(r.At(NatPath(f))), old(r.At(ListPath(f)))), ok, old(r.requests), r.requests,
                      (old(r.At(NatPath(f))), old(r.At(ListPath(f)))), (r.At(NatPath(f)), r.At(ListPath(f))))
    ensures RulesStep(n, svc, old(r.At(NatPath(f))), r.At(NatPath(f))) && EntriesStep(n, svc, old(r.At(ListPath(f))), r.At(ListPath(f)))
    ensures ok && HasLBIP(svc, f) ==> Balancing(n, f, svc, old(r.At(NatPath(f))), r.At(NatPath(f)), r.At(ListPath(f)), outcome)
    ensures ok && !HasLBIP(svc, f) ==> Unbalanced(n, svc.uid, r.At(NatPath(f)), r.At(ListPath(f)))
  {
    hide Cleaned, PortRequests, RouterOS.Valid, Sound, Within, Fulfilled, ScopeOf, WritesOf, OwnRules, OwnEntries, EntriesOf, RulesOf, RulesTouched, Programmed, LivesIn, HasLBIP, Unbalanced, ListEntries, NoJumpBack, NatPath, ListPath, Marked, SilentIff, RulesReady, Ready, LBListTask;
    PathsDistinct();
    ghost var T0, L0 := r.At(NatPath(f)), r.At(ListPath(f));
    Unchanged(T0, RulesTouched(n, svc.uid, T0), OwnRules(n, svc));
    Unchanged(L0, EntriesOf(n, svc), OwnEntries(n, svc.uid));
    outcome := Outcome([], false);
    ghost var sent, l := r.requests, LBListTask(n, svc, ListEntries(n, f, svc, LB_LIST, svc.lbIPs));
    if HasLBIP(svc, f) {
      ghost var reqs, cleaned;
      ok, reqs, cleaned := EnsureLBRules(r, n, f, svc);
      outcome := Outcome(reqs, cleaned);
      ghost var T1, sent1 := r.At(NatPath(f)), r.requests;
      SilentBeside(RulesReady(n, f, svc, T0), ok, sent, sent1, T0, T1, L0);
      if !ok {
        SilentSoFar(RulesReady(n, f, svc, T0), Ready(L0, l), sent, sent1, (T0, L0), (T1, L0));
        return;
      }
      ok := EnsureLBIPsList(r, n, f, svc);
      SilentBeside(Ready(L0, l), ok, sent1, r.requests, L0, r.At(ListPath(f)), T1);
      SilentTogether(RulesReady(n, f, svc, T0), true, Ready(L0, l), Ready(L0, l), ok, sent, sent1, r.requests,
                     (T0, L0), (T1, L0), (T1, r.At(ListPath(f))));
      LBListTaskLives(n, f, svc);
      EntriesWithin(n, svc, L0, r.At(ListPath(f)), LBListTask(n, svc, ListEntries(n, f, svc, LB_LIST, svc.lbIPs)));
    } else {
      MarkedEntriesLive(n, svc);
      ok := Prune(r, ListPath(f), MarkedEntries(svc.uid));
      PrunesEntries(n, svc, L0, r.At(ListPath(f)), MarkedEntries(svc.uid));
      ghost var L1, sent1 := r.At(ListPath(f)), r.requests;
      SilentBeside(Fulfilled(L0, MarkedEntries(svc.uid)), ok, sent, sent1, L0, L1, T0);
      if !ok {
        SilentSoFar(Fulfilled(L0, MarkedEntries(svc.uid)), Fulfilled(T0, MarkedRules(svc.uid)), sent, sent1, (T0, L0), (T0, L1));
        return;
      }
      ok := Prune(r, NatPath(f), MarkedRules(svc.uid));
      SilentBeside(Fulfilled(T0, MarkedRules(svc.uid)), ok, sent1, r.requests, T0, r.At(NatPath(f)), L1);
      SilentTogether(Fulfilled(L0, MarkedEntries(svc.uid)), true, Fulfilled(T0, MarkedRules(svc.uid)), Fulfilled(T0, MarkedRules(svc.uid)), ok,
                     sent, sent1, r.requests, (T0, L0), (T0, L1), (r.At(NatPath(f)), L1));
      PrunesRules(n, svc, T0, T0, r.At(NatPath(f)), MarkedRules(svc.uid));
      if ok {
        UnbalancedByPruning(n, svc.uid, r.At(NatPath(f)), r.At(ListPath(f)));
      }
    }
  }

  // ---------- the source NAT part ----------

  ghost predicate SourceNATDone(n: Names, f: Family, svc: Service, T: Table, L: Table) {
    if SNATIP(svc, f).Addr? then
      && Fulfilled(T, SNATTask(n, f, svc.uid, SNATRules(n, f, svc)))
      && Fulfilled(L, SourceListTask(n, svc.uid, SourceEntries(n, f, svc, svc.endpoints)))
    else
      Fulfilled(T, ServiceSNAT(n, svc.uid)) && Fulfilled(L, ServiceSources(n, svc.uid))
  }

  lemma NothingSettled(n: Names, uid: string, T: Table, L: Table)
    ensures Within(T, T, Chain(SNAT_CHAIN), Chain(SNAT_CHAIN)) && Within(L, L, List(SourceList(n, uid)), List(SourceList(n, uid)))
  {
  }

  /** The source NAT part would change nothing. */
  ghost predicate SourceNATReady(n: Names, f: Family, svc: Service, T: Table, L: Table) {
    if SNATIP(svc, f).Addr? then
      && Ready(L, SourceListTask(n, svc.uid, SourceEntries(n, f, svc, svc.endpoints)))
      && Ready(T, SNATTask(n, f, svc.uid, SNATRules(n, f, svc)))
    else
      Fulfilled(T, ServiceSNAT(n, svc.uid)) && Fulfilled(L, ServiceSources(n, svc.uid))
  }

  /** The source NAT part of EnsureService for one family. */
  method EnsureSNAT(r: RouterOS, n: Names, f: Family, svc: Service) returns (ok: bool)
    requires r.Valid() && Sound(n)
    modifies r
    ensures r.Valid() && OnlyFamily(old(r.resources), r.resources, f)
    ensures Truthful(ok, old(r.failures), r.failures)
    ensures SilentIff(SourceNATReady(n, f, svc, old(r.At(NatPath(f))), old(r.At(ListPath(f)))), ok, old(r.requests), r.requests,
                      (old(r.At(NatPath(f))), old(r.At(ListPath(f)))), (r.At(NatPath(f)), r.At(ListPath(f))))
    ensures Within(old(r.At(NatPath(f))), r.At(NatPath(f)), RulesOf(n, svc.uid), OwnRules(n, svc))
    ensures EntriesStep(n, svc, old(r.At(ListPath(f))), r.At(ListPath(f)))
    ensures Within(old(r.At(NatPath(f))), r.At(NatPath(f)), Chain(SNAT_CHAIN), Chain(SNAT_CHAIN))
    ensures Within(old(r.At(ListPath(f))), r.At(ListPath(f)), List(SourceList(n, svc.uid)), List(SourceList(n, svc.uid)))
    ensures ok ==> SourceNATDone(n, f, svc, r.At(NatPath(f)), r.At(ListPath(f)))
  {
    hide RouterOS.Valid, Sound, Within, Fulfilled, ScopeOf, WritesOf, OwnRules, OwnEntries, EntriesOf, RulesOf, LivesIn, NatPath, ListPath, SourceList, SourceEntries, SNATRules, SilentIff, Ready, SNATTask, SourceListTask, ServiceSources;
    PathsDistinct();
    ghost var T0, L0 := r.At(NatPath(f)), r.At(ListPath(f));
    Unchanged(T0, RulesOf(n, svc.uid), OwnRules(n, svc));
    NothingSettled(n, svc.uid, T0, L0);
    ghost var sent := r.requests;
    ghost var t, l := SNATTask(n, f, svc.uid, SNATRules(n, f, svc)), SourceListTask(n, svc.uid, SourceEntries(n, f, svc, svc.endpoints));
    if SNATIP(svc, f).Addr? {
      ok := EnsureSNATSrcIPsList(r, n, f, svc);
      SourceTaskLives(n, f, svc);
      SNATTaskLives(n, f, svc);
      EntriesWithin(n, svc, L0, r.At(ListPath(f)), l);
      ghost var L1, sent1 := r.At(ListPath(f)), r.requests;
      SilentBeside(Ready(L0, l), ok, sent, sent1, L0, L1, T0);
      if ok {
        ok := EnsureSNATServiceRule(r, n, f, svc);
        SilentBeside(Ready(T0, t), ok, sent1, r.requests, T0, r.At(NatPath(f)), L1);
        SilentTogether(Ready(L0, l), true, Ready(T0, t), Ready(T0, t), ok, sent, sent1, r.requests, (T0, L0), (T0, L1), (r.At(NatPath(f)), L1));
        ListSettled(L0, r.At(ListPath(f)), l, List(SourceList(n, svc.uid)));
        ListSettled(T0, r.At(NatPath(f)), t, Chain(SNAT_CHAIN));
        WithinLives(T0, r.At(NatPath(f)), t, RulesOf(n, svc.uid), OwnRules(n, svc));
      } else {
        SilentSoFar(Ready(L0, l), Ready(T0, t), sent, sent1, (T0, L0), (T0, L1));
        ListSettled(L0, r.At(ListPath(f)), l, List(SourceList(n, svc.uid)));
      }
    } else {
      MarkedEntriesLive(n, svc);
      ok := Prune(r, NatPath(f), ServiceSNAT(n, svc.uid));
      PruneSettled(T0, r.At(NatPath(f)), ServiceSNAT(n, svc.uid), Chain(SNAT_CHAIN), Chain(SNAT_CHAIN));
      PruneSettled(T0, r.At(NatPath(f)), ServiceSNAT(n, svc.uid), RulesOf(n, svc.uid), OwnRules(n, svc));
      Unchanged(L0, EntriesOf(n, svc), OwnEntries(n, svc.uid));
      ghost var T1, sent1, p, q := r.At(NatPath(f)), r.requests, ServiceSNAT(n, svc.uid), ServiceSources(n, svc.uid);
      SilentBeside(Fulfilled(T0, p), ok, sent, sent1, T0, T1, L0);
      if !ok {
        SilentSoFar(Fulfilled(T0, p), Fulfilled(L0, q), sent, sent1, (T0, L0), (T1, L0));
      }
      if ok {
        SourcesPrune(n, svc.uid);
        ok := Prune(r, ListPath(f), ServiceSources(n, svc.uid));
        SilentBeside(Fulfilled(L0, q), ok, sent1, r.requests, L0, r.At(ListPath(f)), T1);
        SilentTogether(Fulfilled(T0, p), true, Fulfilled(L0, q), Fulfilled(L0, q), ok, sent, sent1, r.requests, (T0, L0), (T1, L0), (T1, r.At(ListPath(f))));
        PruneSettled(L0, r.At(ListPath(f)), ServiceSources(n, svc.uid), List(SourceList(n, svc.uid)), List(SourceList(n, svc.uid)));
        PrunesEntries(n, svc, L0, r.At(ListPath(f)), ServiceSources(n, svc.uid));
      }
    }
  }

  lemma SourcesPrune(n: Names, uid: string)
    ensures ServiceSources(n, uid).reqs == [] && ServiceSources(n, uid).ignored == {}
  {
  }

  lemma ListSettled(L: Table, L': Table, t: Task, home: iset<Obj>)
    requires Within(L, L', ScopeOf(t), WritesOf(t)) && LivesIn(t, home)
    ensures Within(L, L', home, home)
  {
    hide Within, ScopeOf, WritesOf;
    WithinMore(L, L', ScopeOf(t), WritesOf(t), home, home);
  }

  lemma WithinLives(T: Table, T': Table, t: Task, home: iset<Obj>, own: iset<Obj>)
    requires Within(T, T', ScopeOf(t), WritesOf(t)) && LivesIn(t, home) && WritesOf(t) <= own
    ensures Within(T, T', home, own)
  {
    hide Within, ScopeOf, WritesOf;
    WithinMore(T, T', ScopeOf(t), WritesOf(t), home, own);
  }

  lemma PruneSettled(T: Table, T': Table, t: Task, home: iset<Obj>, own: iset<Obj>)
    requires Within(T, T', ScopeOf(t), iset{}) && LivesIn(t, home)
    ensures Within(T, T', home, own)
  {
    hide Within, ScopeOf, WritesOf;
    WithinMore(T, T', ScopeOf(t), iset{}, home, own);
  }

  // ---------- EnsureService ----------

  /** What a successful EnsureService leaves for one family whose rules were `before`. */
  ghost predicate Ensured(n: Names, f: Family, svc: Service, before: Table, T: Table, L: Table, outcome: Outcome) {
    && (HasLBIP(svc, f) ==> Balancing(n, f, svc, before, T, L, outcome))
    && (!HasLBIP(svc, f) ==> Unbalanced(n, svc.uid, T, L))
    && SourceNATDone(n, f, svc, T, L)
  }

  /** The same, with every stale chain cleaned up: what EnsureService leaves when no router call fails. */
  ghost predicate EnsuredInFull(n: Names, f: Family, svc: Service, before: Table, T: Table, L: Table) {
    exists outcome :: Ensured(n, f, svc, before, T, L, outcome) && (HasLBIP(svc, f) ==> outcome.cleaned)
  }

  lemma BalancingStays(n: Names, f: Family, svc: Service, before: Table, T: Table, T': Table, L: Table, L': Table, outcome: Outcome)
    requires Sound(n) && Balancing(n, f, svc, before, T, L, outcome)
    requires Within(T, T', Chain(SNAT_CHAIN), Chain(SNAT_CHAIN)) && Within(L, L', List(SourceList(n, svc.uid)), List(SourceList(n, svc.uid)))
    ensures Balancing(n, f, svc, before, T', L', outcome)
  {
    hide Sound, Within, PortRequests, LBListed, Programmed, NoJumpBack, Fulfilled, JumpTargets, ServiceChain, ServesPort, SourceList;
    LBListedStays(n, f, svc, L, L');
    if NoJumpBack(n, svc.uid, before) { ProgrammedStays(n, f, svc, T, T', outcome.reqs); }
    if outcome.cleaned {
      forall c | c in JumpTargets(before, ServiceChain(n, svc.uid)) && !ServesPort(n, svc, c) && c !in {DNAT_CHAIN, SNAT_CHAIN}
        ensures Fulfilled(T', PruneChain(c)) {
        PrunedApart(T, T', Chain(SNAT_CHAIN), Chain(SNAT_CHAIN), c);
      }
    }
  }

  lemma ProgrammedStays(n: Names, f: Family, svc: Service, T: Table, T': Table, reqs: seq<Obj>)
    requires Sound(n) && Programmed(n, f, svc, T, reqs) && Within(T, T', Chain(SNAT_CHAIN), Chain(SNAT_CHAIN))
    ensures Programmed(n, f, svc, T', reqs)
  {
    hide Within, Fulfilled, EndpointsRules, InChain, SpreadRules, LivesIn, ServiceChain, Sound, PortRequests, ServiceRules, IsPortChain;
    OwnChainIsNoPortChain(n, svc.uid);
    ChainsApart(n, svc.uid, svc.uid, Port(0, 0, "TCP"));
    forall chain | InChain(EndpointsRules(n, f, svc, svc.endpoints), chain) != []
      ensures Fulfilled(T', DNATTask(f, chain, SpreadRules(n, f, svc, chain))) {
      DNATTaskLives(n, f, svc, chain);
      StaysFulfilled(T, T', Chain(SNAT_CHAIN), Chain(SNAT_CHAIN), DNATTask(f, chain, SpreadRules(n, f, svc, chain)), Chain(chain));
    }
    PortTaskLives(n, svc, reqs);
    StaysFulfilled(T, T', Chain(SNAT_CHAIN), Chain(SNAT_CHAIN), PortTask(n, svc.uid, reqs), Chain(ServiceChain(n, svc.uid)));
    ServiceTaskLives(n, f, svc);
    StaysFulfilled(T, T', Chain(SNAT_CHAIN), Chain(SNAT_CHAIN), ServiceTask(n, svc.uid, ServiceRules(n, f, svc, svc.lbIPs)), Chain(DNAT_CHAIN));
  }

  lemma LBListedStays(n: Names, f: Family, svc: Service, L: Table, L': Table)
    requires Sound(n) && LBListed(n, f, svc, L) && Within(L, L', List(SourceList(n, svc.uid)), List(SourceList(n, svc.uid)))
    ensures LBListed(n, f, svc, L')
  {
    hide Within, Fulfilled, LivesIn, Sound, SourceList, ListEntries;
    ChainsApart(n, svc.uid, svc.uid, Port(0, 0, "TCP"));
    LBListTaskLives(n, f, svc);
    StaysFulfilled(L, L', List(SourceList(n, svc.uid)), List(SourceList(n, svc.uid)),
                   LBListTask(n, svc, ListEntries(n, f, svc, LB_LIST, svc.lbIPs)), List(LB_LIST));
  }

  lemma UnbalancedStays(n: Names, svc: Service, T: Table, T': Table, L: Table, L': Table)
    requires Sound(n) && Unbalanced(n, svc.uid, T, L)
    requires Within(T, T', RulesOf(n, svc.uid), OwnRules(n, svc)) && Within(T, T', Chain(SNAT_CHAIN), Chain(SNAT_CHAIN))
    requires Within(L, L', List(SourceList(n, svc.uid)), List(SourceList(n, svc.uid)))
    ensures Unbalanced(n, svc.uid, T', L')
  {
    hide Sound, SourceList, ServiceChain, IsPortChain, LeadsTo, Marked, Get;
    ChainsApart(n, svc.uid, svc.uid, Port(0, 0, "TCP"));
    OwnChainIsNoPortChain(n, svc.uid);
  }

  /** EnsureService would change nothing in the family. */
  ghost predicate FamilyReady(n: Names, f: Family, svc: Service, T: Table, L: Table) {
    BalancingReady(n, f, svc, T, L) && SourceNATReady(n, f, svc, T, L)
  }

  /** EnsureService for one family. */
  method EnsureFamily(r: RouterOS, n: Names, f: Family, svc: Service) returns (ok: bool, ghost outcome: Outcome)
    requires r.Valid() && Sound(n)
    modifies r
    ensures r.Valid() && OnlyFamily(old(r.resources), r.resources, f)
    ensures Truthful(ok && (HasLBIP(svc, f) ==> outcome.cleaned), old(r.failures), r.failures)
    ensures SilentIff(FamilyReady(n, f, svc, old(r.At(NatPath(f))), old(r.At(ListPath(f)))), ok, old(r.requests), r.requests,
                      (old(r.At(NatPath(f))), old(r.At(ListPath(f)))), (r.At(NatPath(f)), r.At(ListPath(f))))
    ensures RulesStep(n, svc, old(r.At(NatPath(f))), r.At(NatPath(f))) && EntriesStep(n, svc, old(r.At(ListPath(f))), r.At(ListPath(f)))
    ensures ok ==> Ensured(n, f, svc, old(r.At(NatPath(f))), r.At(NatPath(f)), r.At(ListPath(f)), outcome)
  {
    hide RouterOS.Valid, Sound, Within, OwnRules, OwnEntries, EntriesOf, RulesOf, JumpTargets, Balancing, HasLBIP, Unbalanced, NatPath, ListPath, SourceNATDone, List, Chain, SilentIff, BalancingReady, SourceNATReady;
    ghost var T0, L0, sent := r.At(NatPath(f)), r.At(ListPath(f)), r.requests;
    ok, outcome := EnsureLB(r, n, f, svc);
    ghost var sent1 := r.requests;
    if !ok {
      SilentSoFar(BalancingReady(n, f, svc, T0, L0), SourceNATReady(n, f, svc, T0, L0), sent, sent1, (T0, L0), (r.At(NatPath(f)), r.At(ListPath(f))));
      return;
    }
    ghost var T1, L1 := r.At(NatPath(f)), r.At(ListPath(f));
    ok := EnsureSNAT(r, n, f, svc);
    ghost var T2, L2 := r.At(NatPath(f)), r.At(ListPath(f));
    SilentTogether(BalancingReady(n, f, svc, T0, L0), true, SourceNATReady(n, f, svc, T1, L1), SourceNATReady(n, f, svc, T0, L0), ok,
                   sent, sent1, r.requests, (T0, L0), (T1, L1), (T2, L2));
    WithinMore(T1, T2, RulesOf(n, svc.uid), OwnRules(n, svc), RulesTouched(n, svc.uid, T0), OwnRules(n, svc));
    WithinTogether(T0, T1, T2, RulesTouched(n, svc.uid, T0), OwnRules(n, svc));
    WithinTogether(L0, L1, L2, EntriesOf(n, svc), OwnEntries(n, svc.uid));
    if ok {
      if HasLBIP(svc, f) {
        BalancingStays(n, f, svc, T0, T1, T2, L1, L2, outcome);
      } else {
        UnbalancedStays(n, svc, T1, T2, L1, L2);
      }
    }
  }

  lemma OtherFamily(f: Family, g: Family, before: map<string, Table>, after: map<string, Table>)
    requires f != g && OnlyFamily(before, after, f)
    ensures TableOf(before, NatPath(g)) == TableOf(after, NatPath(g)) && TableOf(before, ListPath(g)) == TableOf(after, ListPath(g))
  {
    hide NatPath, ListPath;
    PathsDistinct();
  }

  /** Outside the four tables of the two families nothing changes. */
  ghost predicate OnlyFirewall(before: map<string, Table>, after: map<string, Table>) {
    forall p :: (forall f :: p != NatPath(f) && p != ListPath(f)) ==> TableOf(before, p) == TableOf(after, p)
  }

  /** The four tables EnsureService works on. */
  function Firewalls(resources: map<string, Table>): ((Table, Table), (Table, Table)) {
    ((TableOf(resources, NatPath(V4)), TableOf(resources, ListPath(V4))), (TableOf(resources, NatPath(V6)), TableOf(resources, ListPath(V6))))
  }

  ghost predicate ServiceReady(n: Names, svc: Service, resources: map<string, Table>) {
    && FamilyReady(n, V4, svc, TableOf(resources, NatPath(V4)), TableOf(resources, ListPath(V4)))
    && FamilyReady(n, V6, svc, TableOf(resources, NatPath(V6)), TableOf(resources, ListPath(V6)))
  }

  /** Every family with load balancer IPs had its stale chains cleaned up. */
  ghost predicate AllCleaned(svc: Service, outcomes: map<Family, Outcome>) {
    forall f :: f in outcomes && HasLBIP(svc, f) ==> outcomes[f].cleaned
  }

  method EnsureService(r: RouterOS, n: Names, svc: Service) returns (ok: bool, ghost outcomes: map<Family, Outcome>)
    requires r.Valid() && Sound(n)
    modifies r
    ensures r.Valid() && OnlyFirewall(old(r.resources), r.resources)
    ensures Truthful(ok && AllCleaned(svc, outcomes), old(r.failures), r.failures)
    ensures SilentIff(ServiceReady(n, svc, old(r.resources)), ok, old(r.requests), r.requests, Firewalls(old(r.resources)), Firewalls(r.resources))
    ensures forall f :: RulesStep(n, svc, old(r.At(NatPath(f))), r.At(NatPath(f)))
    ensures forall f :: EntriesStep(n, svc, old(r.At(ListPath(f))), r.At(ListPath(f)))
    ensures r.failures == old(r.failures) ==>
      ok && forall f :: EnsuredInFull(n, f, svc, old(r.At(NatPath(f))), r.At(NatPath(f)), r.At(ListPath(f)))
    ensures ok ==> outcomes.Keys == {V4, V6}
    ensures ok ==> forall f :: f in outcomes ==>
      Ensured(n, f, svc, old(r.At(NatPath(f))), r.At(NatPath(f)), r.At(ListPath(f)), outcomes[f])
  {
    hide RouterOS.Valid, Sound, Within, OwnRules, OwnEntries, EntriesOf, RulesOf, RulesTouched, Ensured, NatPath, ListPath, HasLBIP, FamilyReady, SilentIff;
    outcomes := map[];
    ghost var R0, sent := r.resources, r.requests;
    Unchanged(r.At(NatPath(V6)), RulesTouched(n, svc.uid, r.At(NatPath(V6))), OwnRules(n, svc));
    Unchanged(r.At(ListPath(V6)), EntriesOf(n, svc), OwnEntries(n, svc.uid));
    ghost var v4;
    ok, v4 := EnsureFamily(r, n, V4, svc);
    ghost var R1, sent1 := r.resources, r.requests;
    OtherFamily(V4, V6, R0, R1);
    ghost var ready4, ready6 := FamilyReady(n, V4, svc, Firewalls(R0).0.0, Firewalls(R0).0.1), FamilyReady(n, V6, svc, Firewalls(R0).1.0, Firewalls(R0).1.1);
    SilentBeside(ready4, ok, sent, sent1, Firewalls(R0).0, Firewalls(R1).0, Firewalls(R0).1);
    if ok {
      ghost var v6;
      ok, v6 := EnsureFamily(r, n, V6, svc);
      OtherFamily(V6, V4, R1, r.resources);
      SilentBeside(ready6, ok, sent1, r.requests, Firewalls(R1).1, Firewalls(r.resources).1, Firewalls(R1).0);
      SilentTogether(ready4, true, ready6, ready6, ok, sent, sent1, r.requests, Firewalls(R0), Firewalls(R1), Firewalls(r.resources));
      outcomes := map[V4 := v4, V6 := v6];
    } else {
      SilentSoFar(ready4, ready6, sent, sent1, Firewalls(R0), Firewalls(R1));
    }
    forall f
      ensures RulesStep(n, svc, old(r.At(NatPath(f))), r.At(NatPath(f)))
      ensures EntriesStep(n, svc, old(r.At(ListPath(f))), r.At(ListPath(f))) {
      if f != V4 { assert f == V6; }
    }
    if r.failures == old(r.failures) {
      forall f ensures EnsuredInFull(n, f, svc, old(r.At(NatPath(f))), r.At(NatPath(f)), r.At(ListPath(f))) {
        if f != V4 { assert f == V6; }
        assert f in outcomes;
      }
    }
  }

  // ---------- DeleteService ----------

  /** Nothing of the service is left in a family. */
  ghost predicate Gone(n: Names, uid: string, T: Table, L: Table) {
    && (forall id :: id in T ==> !Marked(T[id], uid))
    && (forall id :: id in T ==> Get(T[id], "chain") != SNAT_CHAIN || Get(T[id], "src-address-list") != SourceList(n, uid))
    && (forall id :: id in L && Get(L[id], "list") == LB_LIST ==> !Marked(L[id], uid))
    && (forall id :: id in L ==> Get(L[id], "list") != SourceList(n, uid))
  }

  lemma GoneByPruning(n: Names, uid: string, T: Table, L: Table)
    requires Fulfilled(T, MarkedRules(uid)) && Fulfilled(T, ServiceSNAT(n, uid))
    requires Fulfilled(L, MarkedEntries(uid)) && Fulfilled(L, ServiceSources(n, uid))
    ensures Gone(n, uid, T, L)
  {
    hide Marked, Get, SourceList, InScope, Fulfilled;
    PrunedMeans(T, MarkedRules(uid));
    PrunedMeans(T, ServiceSNAT(n, uid));
    PrunedMeans(L, MarkedEntries(uid));
    PrunedMeans(L, ServiceSources(n, uid));
    forall id | id in T
      ensures !Marked(T[id], uid) && (Get(T[id], "chain") != SNAT_CHAIN || Get(T[id], "src-address-list") != SourceList(n, uid)) {
      MarkedScope(uid, T[id]);
      SourceScope(n, uid, T[id]);
    }
    forall id | id in L
      ensures (Get(L[id], "list") == LB_LIST ==> !Marked(L[id], uid)) && Get(L[id], "list") != SourceList(n, uid) {
      MarkedScope(uid, L[id]);
      SourceScope(n, uid, L[id]);
    }
  }

  lemma SourceScope(n: Names, uid: string, o: Obj)
    ensures InScope(ServiceSNAT(n, uid), o) <==> Get(o, "chain") == SNAT_CHAIN && Get(o, "src-address-list") == SourceList(n, uid)
    ensures InScope(ServiceSources(n, uid), o) <==> Get(o, "list") == SourceList(n, uid)
    ensures !EqualsSome(ServiceSNAT(n, uid), o) && !EqualsSome(ServiceSources(n, uid), o)
  {
    hide SourceList;
  }

  /** What DeleteService may remove from the lists. */
  ghost function DeletedEntries(n: Names, uid: string): iset<Obj> {
    iset o: Obj | (Get(o, "list") == LB_LIST && Marked(o, uid)) || Get(o, "list") == SourceList(n, uid)
  }

  /** Two Syncs of the family's rules and two of its lists were tried in between, and none of the other family's. */
  ghost predicate TriedBoth(before: seq<Call>, after: seq<Call>, f: Family) {
    forall g ::
      && multiset(after)[GetCall(NatPath(g))] == multiset(before)[GetCall(NatPath(g))] + (if g == f then 2 else 0)
      && multiset(after)[GetCall(ListPath(g))] == multiset(before)[GetCall(ListPath(g))] + (if g == f then 2 else 0)
  }

  lemma AllTried(f: Family, a: seq<Call>, b: seq<Call>, c: seq<Call>, d: seq<Call>, e: seq<Call>)
    requires Tried(a, b, ListPath(f), 1) && Tried(b, c, NatPath(f), 1) && Tried(c, d, NatPath(f), 1) && Tried(d, e, ListPath(f), 1)
    ensures TriedBoth(a, e, f)
  {
    hide NatPath, ListPath;
    PathsDistinct();
  }

  ghost predicate Removed(n: Names, uid: string, T: Table, T': Table, L: Table, L': Table) {
    Within(T, T', RulesOf(n, uid), iset{}) && Within(L, L', DeletedEntries(n, uid), iset{})
  }

  lemma DeletesLive(n: Names, uid: string)
    ensures LivesIn(MarkedEntries(uid), DeletedEntries(n, uid)) && LivesIn(ServiceSources(n, uid), DeletedEntries(n, uid))
    ensures LivesIn(MarkedRules(uid), RulesOf(n, uid)) && LivesIn(ServiceSNAT(n, uid), RulesOf(n, uid))
  {
    hide Marked, SourceList, ServiceChain, IsPortChain;
  }

  lemma PrunedMore(a: Table, b: Table, c: Table, t: Task, home: iset<Obj>)
    requires Within(a, b, home, iset{}) && Within(b, c, ScopeOf(t), iset{}) && LivesIn(t, home)
    ensures Within(a, c, home, iset{})
  {
    hide Within, ScopeOf, WritesOf;
    WithinMore(b, c, ScopeOf(t), iset{}, home, iset{});
    WithinTogether(a, b, c, home, iset{});
  }

  /** DeleteService for one family: every call is made, whichever of the others fail. */
  method DeleteFamily(r: RouterOS, n: Names, f: Family, uid: string) returns (ok: bool)
    requires r.Valid()
    modifies r
    ensures r.Valid() && OnlyFamily(old(r.resources), r.resources, f)
    ensures Truthful(ok, old(r.failures), r.failures)
    ensures Removed(n, uid, old(r.At(NatPath(f))), r.At(NatPath(f)), old(r.At(ListPath(f))), r.At(ListPath(f)))
    ensures TriedBoth(old(r.requests), r.requests, f)
    ensures ok ==> Gone(n, uid, r.At(NatPath(f)), r.At(ListPath(f)))
  {
    hide RouterOS.Valid, Within, Fulfilled, ScopeOf, WritesOf, LivesIn, RulesOf, DeletedEntries, Gone, NatPath, ListPath, Marked, SourceList, SilentIff, Tried, TriedBoth;
    ghost var sent := r.requests;
    PathsDistinct();
    DeletesLive(n, uid);
    ghost var T0, L0 := r.At(NatPath(f)), r.At(ListPath(f));
    Unchanged(T0, RulesOf(n, uid), iset{});
    Unchanged(L0, DeletedEntries(n, uid), iset{});
    var listed := Prune(r, ListPath(f), MarkedEntries(uid));
    ghost var L1, sent1 := r.At(ListPath(f)), r.requests;
    PrunedMore(L0, L0, L1, MarkedEntries(uid), DeletedEntries(n, uid));
    var ruled := Prune(r, NatPath(f), MarkedRules(uid));
    ghost var T1, sent2 := r.At(NatPath(f)), r.requests;
    PrunedMore(T0, T0, T1, MarkedRules(uid), RulesOf(n, uid));
    var snatted := Prune(r, NatPath(f), ServiceSNAT(n, uid));
    ghost var sent3 := r.requests;
    PrunedMore(T0, T1, r.At(NatPath(f)), ServiceSNAT(n, uid), RulesOf(n, uid));
    var sourced := Prune(r, ListPath(f), ServiceSources(n, uid));
    AllTried(f, sent, sent1, sent2, sent3, r.requests);
    PrunedMore(L0, L1, r.At(ListPath(f)), ServiceSources(n, uid), DeletedEntries(n, uid));
    ok := listed && ruled && snatted && sourced;
    if ok {
      StillPruned(T1, r.At(NatPath(f)), ServiceSNAT(n, uid), MarkedRules(uid));
      StillPruned(L1, r.At(ListPath(f)), ServiceSources(n, uid), MarkedEntries(uid));
      GoneByPruning(n, uid, r.At(NatPath(f)), r.At(ListPath(f)));
    }
  }

  lemma StillPruned(T: Table, T': Table, t: Task, pruned: Task)
    requires Fulfilled(T, pruned) && pruned.reqs == [] && Within(T, T', ScopeOf(t), iset{})
    ensures Fulfilled(T', pruned)
  {
    hide Within, Fulfilled, ScopeOf;
    StaysPruned(T, T', ScopeOf(t), pruned);
  }

  method DeleteService(r: RouterOS, n: Names, uid: string) returns (ok: bool)
    requires r.Valid()
    modifies r
    ensures r.Valid() && OnlyFirewall(old(r.resources), r.resources)
    ensures Truthful(ok, old(r.failures), r.failures)
    ensures forall f :: Removed(n, uid, old(r.At(NatPath(f))), r.At(NatPath(f)), old(r.At(ListPath(f))), r.At(ListPath(f)))
    ensures forall path :: path in {NatPath(V4), NatPath(V6), ListPath(V4), ListPath(V6)} ==>
              multiset(r.requests)[GetCall(path)] == multiset(old(r.requests))[GetCall(path)] + 2
    ensures ok ==> forall f :: Gone(n, uid, r.At(NatPath(f)), r.At(ListPath(f)))
  {
    hide RouterOS.Valid, Removed, Gone, NatPath, ListPath;
    ghost var R0 := r.resources;
    var ok4 := DeleteFamily(r, n, V4, uid);
    ghost var R1 := r.resources;
    OtherFamily(V4, V6, R0, R1);
    var ok6 := DeleteFamily(r, n, V6, uid);
    OtherFamily(V6, V4, R1, r.resources);
    ok := ok4 && ok6;
    forall f
      ensures Removed(n, uid, old(r.At(NatPath(f))), r.At(NatPath(f)), old(r.At(ListPath(f))), r.At(ListPath(f)))
      ensures ok ==> Gone(n, uid, r.At(NatPath(f)), r.At(ListPath(f))) {
      if f != V4 { assert f == V6; }
    }
  }
}
