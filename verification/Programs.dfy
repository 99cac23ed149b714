/** The Sync calls the backend makes for a service, and what a sequence of them adds up to. */
module Programs {
  import opened Net
  import opened Router
  import opened Matching
  import opened Syncing
  import opened Services

  const RULE_IGNORED := {ID, "bytes", "dynamic", "invalid", "log", "log-prefix", "packets", "vrf"}
  const ENTRY_IGNORED := {ID, "dynamic", "creation-time"}

  // ---------- Sync tasks ----------

  predicate Everything(o: Obj) { true }

  function PortsId(f: Family): Obj -> string {
    (o: Obj) => "[" + Get(o, AddressField(f)) + "]:" + Get(o, "to-ports") + "/" + Get(o, "protocol")
  }

  function DNATTask(f: Family, chain: string, reqs: seq<Obj>): Task {
    Task(reqs, map["chain" := chain], Everything, Some(PortsId(f)), RULE_IGNORED)
  }

  function PortTask(n: Names, uid: string, reqs: seq<Obj>): Task {
    Task(reqs, map["chain" := ServiceChain(n, uid)], Everything,
         Some((o: Obj) => Get(o, "dst-port") + "/" + Get(o, "protocol")), RULE_IGNORED)
  }

  function ServiceTask(n: Names, uid: string, reqs: seq<Obj>): Task {
    Task(reqs, map["chain" := DNAT_CHAIN, "action" := "jump", "jump-target" := ServiceChain(n, uid)], Everything,
         Some((o: Obj) => Get(o, "dst-address")), RULE_IGNORED)
  }

  function SNATTask(n: Names, f: Family, uid: string, reqs: seq<Obj>): Task {
    Task(reqs, map["chain" := SNAT_CHAIN, "src-address-list" := SourceList(n, uid)], Everything,
         Some((o: Obj) => Get(o, AddressField(f))), RULE_IGNORED)
  }

  function ConnectionTask(): Task {
    Task([ConnectionRule()], map["chain" := "dstnat", "action" := "jump", "jump-target" := DNAT_CHAIN], Everything, None, RULE_IGNORED)
  }

  function SourceJumpTask(): Task {
    Task([SourceJumpRule()], map["chain" := "srcnat", "jump-target" := SNAT_CHAIN], Everything, None, RULE_IGNORED)
  }

  /** The LB list is shared: a service's entries are those with one of its addresses or with its mark. */
  predicate OwnEntry(n: Names, svc: Service, o: Obj) {
    Marked(o, svc.uid) || (var a := n.parse(BeforeSlash(Get(o, "address"))); a.Some? && a.value in svc.lbIPs)
  }

  function LBListTask(n: Names, svc: Service, reqs: seq<Obj>): Task {
    Task(reqs, map["list" := LB_LIST], (o: Obj) => OwnEntry(n, svc, o), Some((o: Obj) => Get(o, "address")), ENTRY_IGNORED)
  }

  function SourceListTask(n: Names, uid: string, reqs: seq<Obj>): Task {
    Task(reqs, map["list" := SourceList(n, uid)], Everything, Some((o: Obj) => Get(o, "address")), ENTRY_IGNORED)
  }

  function PruneTask(query: Query): Task {
    Task([], query, Everything, None, {})
  }

  function PruneMarkedTask(query: Query, uid: string): Task {
    Task([], query, (o: Obj) => Marked(o, uid), None, {})
  }

  // ---------- what a Sync leaves ----------

  /** The objects in scope are among the results, and these serve the requests, one each. */
  ghost predicate Assigned(T: Table, t: Task, results: seq<Obj>) {
    && |results| == |t.reqs|
    && (forall j :: 0 <= j < |results| ==>
          IdAt(results[j]) in T && T[IdAt(results[j])] == results[j] && Equal(t, results[j], t.reqs[j]))
    && (forall i, j :: 0 <= i < j < |results| ==> IdAt(results[i]) != IdAt(results[j]))
    && (forall id :: id in T && InScope(t, T[id]) ==> Serves(results, id))
  }

  /** The objects in the scope of the Sync are its requests, one for each, up to ignored fields. */
  ghost predicate Fulfilled(T: Table, t: Task) {
    exists results: seq<Obj> :: Assigned(T, t, results)
  }

  ghost predicate Present(T: Table, t: Task, j: nat)
    requires j < |t.reqs|
  {
    exists id :: id in T && Equal(t, T[id], t.reqs[j])
  }

  lemma FulfilledMeans(T: Table, t: Task)
    requires Fulfilled(T, t)
    ensures forall id :: id in T && InScope(t, T[id]) ==> EqualsSome(t, T[id])
    ensures forall j :: 0 <= j < |t.reqs| ==> Present(T, t, j)
  {
    hide Equal, InScope, IdAt;
    var results: seq<Obj> :| Assigned(T, t, results);
    forall j | 0 <= j < |t.reqs| ensures Present(T, t, j) {
      assert IdAt(results[j]) in T;
    }
  }

  /** For a pruning Sync this means that its scope is empty. */
  lemma PrunedMeans(T: Table, t: Task)
    requires t.reqs == []
    ensures Fulfilled(T, t) <==> forall id :: id in T ==> !InScope(t, T[id])
  {
    hide InScope, IdAt;
    if forall id :: id in T ==> !InScope(t, T[id]) {
      assert Assigned(T, t, []);
    }
  }

  lemma ConvergedFulfilled(before: Table, after: Table, t: Task, results: seq<Obj>)
    requires Converged(before, after, t, results)
    ensures Fulfilled(after, t)
  {
    hide Equal, InScope, IdAt, Serves;
    assert Assigned(after, t, results);
  }

  /** In its own scope, a fulfilled Sync has converged without changing anything. */
  lemma FulfilledConverged(T: Table, t: Task) returns (results: seq<Obj>)
    requires Fulfilled(T, t) && OwnScope(t)
    ensures Converged(T, T, t, results)
  {
    hide Equal, IdAt, OwnScope;
    results :| Assigned(T, t, results);
    forall j | 0 <= j < |results| ensures InScope(t, results[j]) {
      ScopeIsVisible(t, results[j], t.reqs[j]);
      RequestInScope(t, j);
    }
  }

  lemma ConvergedInterrupted(before: Table, after: Table, t: Task, results: seq<Obj>)
    requires Converged(before, after, t, results)
    ensures Interrupted(before, after, t)
  {
    hide Equal, InScope, IdAt;
  }

  // ---------- what it leaves alone ----------

  /** Only objects of `mine` were changed or removed, and everything new or changed is in `own`. */
  ghost predicate Within(before: Table, after: Table, mine: iset<Obj>, own: iset<Obj>) {
    && (forall id :: id in before && before[id] !in mine ==> id in after && after[id] == before[id])
    && (forall id :: id in after ==> (id in before && after[id] == before[id]) || after[id] in own)
  }

  lemma Unchanged(T: Table, mine: iset<Obj>, own: iset<Obj>)
    ensures Within(T, T, mine, own)
  {
  }

  lemma WithinTogether(a: Table, b: Table, c: Table, mine: iset<Obj>, own: iset<Obj>)
    requires Within(a, b, mine, own) && Within(b, c, mine, own)
    ensures Within(a, c, mine, own)
  {
  }

  lemma WithinMore(a: Table, b: Table, mine: iset<Obj>, own: iset<Obj>, mine': iset<Obj>, own': iset<Obj>)
    requires Within(a, b, mine, own) && mine <= mine' && own <= own'
    ensures Within(a, b, mine', own')
  {
  }

  ghost function ScopeOf(t: Task): iset<Obj> {
    iset o: Obj | InScope(t, o)
  }

  ghost function WritesOf(t: Task): iset<Obj> {
    iset o: Obj | EqualsSome(t, o)
  }

  lemma SyncedWithin(before: Table, after: Table, t: Task)
    requires Interrupted(before, after, t)
    ensures Within(before, after, ScopeOf(t), WritesOf(t))
  {
    hide InScope, EqualsSome;
  }

  /** What a Sync achieved lasts while others work on other objects. */
  lemma StillFulfilled(a: Table, b: Table, mine: iset<Obj>, own: iset<Obj>, t: Task)
    requires Fulfilled(a, t) && Within(a, b, mine, own)
    requires forall o :: InScope(t, o) ==> o !in own
    requires forall o :: EqualsSome(t, o) ==> o !in mine
    ensures Fulfilled(b, t)
  {
    hide Equal, InScope, IdAt, Serves;
    var results: seq<Obj> :| Assigned(a, t, results);
    forall j | 0 <= j < |results| ensures results[j] !in mine {
      assert EqualsSome(t, results[j]);
    }
    assert Assigned(b, t, results);
  }

  lemma EqualGet(t: Task, o: Obj, req: Obj, k: string)
    requires Equal(t, o, req) && k !in t.ignored
    ensures Lookup(o, k) == Lookup(req, k) && Get(o, k) == Get(req, k)
  {
    VisibleEqual(o, req, t.ignored);
    assert Lookup(o, k) == Lookup(req, k);
  }

  /** All writes of a task agree with its requests on a visible field. */
  lemma WritesHave(t: Task, k: string, v: string)
    requires k !in t.ignored && forall j :: 0 <= j < |t.reqs| ==> Get(t.reqs[j], k) == v
    ensures forall o :: EqualsSome(t, o) ==> Get(o, k) == v
  {
    hide Equal, Get;
    forall o | EqualsSome(t, o) ensures Get(o, k) == v {
      var j :| 0 <= j < |t.reqs| && Equal(t, o, t.reqs[j]);
      EqualGet(t, o, t.reqs[j], k);
    }
  }

  lemma WritesMarked(t: Task, uid: string)
    requires "comment" !in t.ignored && forall j :: 0 <= j < |t.reqs| ==> Marked(t.reqs[j], uid)
    ensures forall o :: EqualsSome(t, o) ==> Marked(o, uid)
  {
    hide Equal, Get, HasPrefix, Contains;
    forall o | EqualsSome(t, o) ensures Marked(o, uid) {
      var j :| 0 <= j < |t.reqs| && Equal(t, o, t.reqs[j]);
      EqualGet(t, o, t.reqs[j], "comment");
    }
  }

  // ---------- sets of objects ----------

  ghost function InChains(chains: iset<string>): iset<Obj> {
    iset o: Obj | Get(o, "chain") in chains
  }

  ghost function MarkedBy(uid: string): iset<Obj> {
    iset o: Obj | Marked(o, uid)
  }

  ghost function InLists(lists: iset<string>): iset<Obj> {
    iset o: Obj | Get(o, "list") in lists
  }

  ghost predicate IsPortChain(n: Names, uid: string, chain: string) {
    exists p :: Balanced(p) && PortChain(n, uid, p) == chain
  }

  /** Where rules of a service are: in its own chains, or leading to it from the fixed chains. */
  ghost function Places(n: Names, uid: string): iset<Obj> {
    iset o: Obj |
      || Get(o, "chain") == ServiceChain(n, uid)
      || IsPortChain(n, uid, Get(o, "chain"))
      || (Get(o, "chain") == DNAT_CHAIN && Get(o, "action") == "jump" && Get(o, "jump-target") == ServiceChain(n, uid))
      || (Get(o, "chain") == SNAT_CHAIN && Get(o, "src-address-list") == SourceList(n, uid))
  }

  /** The service's rules: in one of these places, or with its mark. */
  ghost function RulesOf(n: Names, uid: string): iset<Obj> {
    Places(n, uid) + MarkedBy(uid)
  }

  /** The rule is for one of the service's load balancer IPs. */
  ghost predicate LeadsTo(n: Names, svc: Service, o: Obj) {
    exists ip :: ip in svc.lbIPs && Lookup(o, "dst-address") == Some(Host(n, ip))
  }

  /** What the backend writes for the service: marked rules in its places; its chain only jumps to its port chains,
      and only its own addresses lead to it. */
  ghost function OwnRules(n: Names, svc: Service): iset<Obj> {
    iset o: Obj |
      && o in Places(n, svc.uid) && Marked(o, svc.uid)
      && (Get(o, "chain") == ServiceChain(n, svc.uid) ==> IsPortChain(n, svc.uid, Get(o, "jump-target")))
      && (Get(o, "chain") == DNAT_CHAIN ==> LeadsTo(n, svc, o))
  }

  /** The service's list entries. */
  ghost function EntriesOf(n: Names, svc: Service): iset<Obj> {
    iset o: Obj | (Get(o, "list") == LB_LIST && OwnEntry(n, svc, o)) || Get(o, "list") == SourceList(n, svc.uid)
  }

  ghost function OwnEntries(n: Names, uid: string): iset<Obj> {
    iset o: Obj | Marked(o, uid) && Get(o, "list") in {LB_LIST, SourceList(n, uid)}
  }

  /** Where the rules of a chain jump to. */
  ghost function JumpTargets(T: Table, chain: string): iset<string> {
    iset id | id in T && Get(T[id], "chain") == chain :: Get(T[id], "jump-target")
  }

  // ---------- a programmed service ----------

  /** The rules that spread one port over its endpoints. */
  function SpreadRules(n: Names, f: Family, svc: Service, chain: string): seq<Obj> {
    Distributed(InChain(EndpointsRules(n, f, svc, svc.endpoints), chain))
  }

  predicate NoneTwice<T(==)>(s: seq<T>) {
    forall i, j :: 0 <= i < j < |s| ==> s[i] != s[j]
  }

  /** One rule for every balanced port, once and in any order. */
  ghost predicate PortRequests(n: Names, svc: Service, reqs: seq<Obj>) {
    && (forall o :: o in reqs <==> exists p :: HasPort(svc.endpoints, p) && Balanced(p) && o == PortRule(n, svc, p))
    && NoneTwice(reqs)
  }

  /** Every chain that has a rule to spread is as it should be. */
  ghost predicate Spread(n: Names, f: Family, svc: Service, T: Table) {
    forall chain :: InChain(EndpointsRules(n, f, svc, svc.endpoints), chain) != [] ==>
      Fulfilled(T, DNATTask(f, chain, SpreadRules(n, f, svc, chain)))
  }

  ghost predicate Programmed(n: Names, f: Family, svc: Service, T: Table, portReqs: seq<Obj>) {
    && PortRequests(n, svc, portReqs)
    && Spread(n, f, svc, T)
    && Fulfilled(T, PortTask(n, svc.uid, portReqs))
    && Fulfilled(T, ServiceTask(n, svc.uid, ServiceRules(n, f, svc, svc.lbIPs)))
  }

  ghost predicate LBListed(n: Names, f: Family, svc: Service, L: Table) {
    Fulfilled(L, LBListTask(n, svc, ListEntries(n, f, svc, LB_LIST, svc.lbIPs)))
  }
}
