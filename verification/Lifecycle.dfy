/** Whole runs of EnsureService and DeleteService: when a service's traffic is provided for, what other services'
    calls cannot take away, and what a deleted service leaves behind. */
module Lifecycle {
  import opened Net
  import opened Router
  import opened Matching
  import opened Syncing
  import opened Services
  import opened Programs
  import opened Tasks
  import opened Backend
  import opened Firewall

  // ---------- names ----------

  lemma NoPortChain(n: Names, uid: string, other: string)
    requires Sound(n)
    ensures !IsPortChain(n, other, ServiceChain(n, uid)) && !IsPortChain(n, other, "dstnat")
  {
    hide PortChain, ServiceChain;
    forall p ensures PortChain(n, other, p) != ServiceChain(n, uid) && PortChain(n, other, p) != "dstnat" {
      ChainsApart(n, other, uid, p);
    }
  }

  lemma SameHash(n: Names, u: string, v: string)
    requires ServiceChain(n, u) == ServiceChain(n, v)
    ensures n.hash(u) == n.hash(v)
  {
    assert ServiceChain(n, u)[12..] == n.hash(u) && ServiceChain(n, v)[12..] == n.hash(v);
  }

  lemma SameHashSameChains(n: Names, u: string, v: string, chain: string)
    requires ServiceChain(n, u) == ServiceChain(n, v) && IsPortChain(n, v, chain)
    ensures IsPortChain(n, u, chain)
  {
    hide ServiceChain, PortSuffix;
    var p :| Balanced(p) && PortChain(n, v, p) == chain;
    assert PortChain(n, u, p) == chain;
  }

  // ---------- where a service chain jumps to ----------

  /** EnsureService for any service adds no jump to a service chain but to that chain's port chains. */
  lemma JumpsKept(n: Names, uid: string, other: Service, T: Table, T': Table, mine: iset<Obj>, c: string)
    requires Sound(n) && Within(T, T', mine, OwnRules(n, other)) && c in JumpTargets(T', ServiceChain(n, uid))
    ensures c in JumpTargets(T, ServiceChain(n, uid)) || IsPortChain(n, uid, c)
  {
    hide Sound, IsPortChain, ServiceChain, Marked, SourceList, Get, LeadsTo;
    var own := ServiceChain(n, uid);
    NoPortChain(n, uid, other.uid);
    ChainsApart(n, uid, uid, Port(0, 0, "TCP"));
    var id :| id in T' && Get(T'[id], "chain") == own && Get(T'[id], "jump-target") == c;
    if id in T && T[id] == T'[id] {
      assert c in JumpTargets(T, own);
    } else {
      SameHashSameChains(n, uid, other.uid, c);
    }
  }

  /** The service chain of `uid` jumps to nothing that another service or Setup relies on. */
  ghost predicate Spares(n: Names, uid: string, svc: Service, T: Table) {
    forall c :: c in JumpTargets(T, ServiceChain(n, uid)) ==>
      c != ServiceChain(n, svc.uid) && !IsPortChain(n, svc.uid, c) && c !in {DNAT_CHAIN, SNAT_CHAIN, "dstnat"}
  }

  lemma SparesKept(n: Names, uid: string, svc: Service, other: Service, T: Table, T': Table, mine: iset<Obj>)
    requires Sound(n) && n.hash(uid) != n.hash(svc.uid)
    requires Spares(n, uid, svc, T) && Within(T, T', mine, OwnRules(n, other))
    ensures Spares(n, uid, svc, T')
  {
    hide Sound, IsPortChain, ServiceChain, JumpTargets, OwnRules, Within;
    forall c | c in JumpTargets(T', ServiceChain(n, uid))
      ensures c != ServiceChain(n, svc.uid) && !IsPortChain(n, svc.uid, c) && c !in {DNAT_CHAIN, SNAT_CHAIN, "dstnat"} {
      JumpsKept(n, uid, other, T, T', mine, c);
      if IsPortChain(n, uid, c) { OtherPortChain(n, uid, svc.uid, c); }
    }
  }

  lemma OtherPortChain(n: Names, u: string, v: string, chain: string)
    requires Sound(n) && n.hash(u) != n.hash(v) && IsPortChain(n, u, chain)
    ensures chain != ServiceChain(n, v) && !IsPortChain(n, v, chain) && chain !in {DNAT_CHAIN, SNAT_CHAIN, "dstnat"}
  {
    hide PortChain, ServiceChain, Sound;
    var p :| Balanced(p) && PortChain(n, u, p) == chain;
    ChainsApart(n, u, v, p);
    forall q | Balanced(q) ensures PortChain(n, v, q) != chain {
      if PortChain(n, v, q) == chain { PortChainsDistinct(n, v, u, q, p); }
    }
  }

  /** No rule of the service chain jumps back to it or to dstnat. */
  ghost predicate Harmless(n: Names, uid: string, T: Table) {
    NoJumpBack(n, uid, T) && "dstnat" !in JumpTargets(T, ServiceChain(n, uid))
  }

  /** No EnsureService, for any service, makes a harmless service chain jump back or to dstnat. */
  lemma HarmlessKept(n: Names, uid: string, other: Service, T: Table, T': Table, mine: iset<Obj>)
    requires Sound(n) && Harmless(n, uid, T) && Within(T, T', mine, OwnRules(n, other))
    ensures Harmless(n, uid, T')
  {
    hide Sound, IsPortChain, ServiceChain, JumpTargets, OwnRules, Within;
    NoPortChain(n, uid, uid);
    forall c | c in JumpTargets(T', ServiceChain(n, uid)) ensures c != ServiceChain(n, uid) && c != "dstnat" {
      JumpsKept(n, uid, other, T, T', mine, c);
    }
  }

  // ---------- what stays as it is ----------

  lemma WritesUnmarked(t: Task, uid: string)
    requires "comment" !in t.ignored && forall j :: 0 <= j < |t.reqs| ==> !Marked(t.reqs[j], uid)
    ensures forall o :: EqualsSome(t, o) ==> !Marked(o, uid)
  {
    hide Equal, Get, HasPrefix, Contains;
    forall o | EqualsSome(t, o) ensures !Marked(o, uid) {
      var j :| 0 <= j < |t.reqs| && Equal(t, o, t.reqs[j]);
      EqualGet(t, o, t.reqs[j], "comment");
    }
  }

  /** A Sync away from all places of a service and from the chains it may clean up, with requests that do not carry
      its mark, stays fulfilled. */
  lemma TaskKept(n: Names, other: Service, pruned: iset<string>, T: Table, T': Table, t: Task)
    requires Fulfilled(T, t) && Within(T, T', RulesOf(n, other.uid) + InChains(pruned), OwnRules(n, other))
    requires LivesIn(t, AwayFrom(n, other.uid, pruned))
    requires "comment" !in t.ignored && forall j :: 0 <= j < |t.reqs| ==> !Marked(t.reqs[j], other.uid)
    ensures Fulfilled(T', t)
  {
    hide Fulfilled, Within, InScope, EqualsSome, Marked, Places, InChains, Get;
    WritesUnmarked(t, other.uid);
    forall o | InScope(t, o) ensures o !in OwnRules(n, other) {
      assert o in ScopeOf(t);
    }
    forall o | EqualsSome(t, o) ensures o !in RulesOf(n, other.uid) + InChains(pruned) {
      assert o in WritesOf(t);
    }
    StillFulfilled(T, T', RulesOf(n, other.uid) + InChains(pruned), OwnRules(n, other), t);
  }

  ghost function AwayFrom(n: Names, uid: string, pruned: iset<string>): iset<Obj> {
    iset o: Obj | o !in Places(n, uid) && o !in InChains(pruned)
  }

  /** A chain that is none of the UID's, not a shared one, and not cleaned up. */
  lemma ChainAway(n: Names, uid: string, pruned: iset<string>, t: Task, chain: string)
    requires chain != ServiceChain(n, uid) && !IsPortChain(n, uid, chain) && chain !in {DNAT_CHAIN, SNAT_CHAIN} && chain !in pruned
    requires LivesIn(t, Chain(chain))
    ensures LivesIn(t, AwayFrom(n, uid, pruned))
  {
    hide ScopeOf, WritesOf, IsPortChain, ServiceChain, SourceList;
  }

  /** Setup's rule survives every call that does not clean up dstnat, of any service whose UID is not part of its
      comment. */
  lemma ConnectionKept(n: Names, other: Service, pruned: iset<string>, T: Table, T': Table)
    requires Sound(n) && !Marked(ConnectionRule(), other.uid) && "dstnat" !in pruned && Fulfilled(T, ConnectionTask())
    requires Within(T, T', RulesOf(n, other.uid) + InChains(pruned), OwnRules(n, other))
    ensures Fulfilled(T', ConnectionTask())
  {
    hide Sound, Within, Fulfilled, OwnRules, RulesOf, ServiceChain, Marked, IsPortChain, LivesIn, AwayFrom, InChains;
    ChainsApart(n, other.uid, other.uid, Port(0, 0, "TCP"));
    NoPortChain(n, other.uid, other.uid);
    LivesInChain(ConnectionTask(), "dstnat");
    ChainAway(n, other.uid, pruned, ConnectionTask(), "dstnat");
    TaskKept(n, other, pruned, T, T', ConnectionTask());
  }

  // ---------- a service's own EnsureService ----------

  /** The service's traffic is provided for. */
  ghost predicate Delivering(n: Names, f: Family, svc: Service, T: Table, L: Table, reqs: seq<Obj>) {
    && Programmed(n, f, svc, T, reqs)
    && Fulfilled(T, ConnectionTask())
    && forall ip :: ip in svc.lbIPs && OfFamily(ip, f) ==> EntryThere(n, svc, ip, L)
  }

  ghost predicate EntryThere(n: Names, svc: Service, ip: Addr, L: Table) {
    exists id :: id in L && Visible(L[id], ENTRY_IGNORED) == Visible(ListEntry(n, svc, LB_LIST, ip), ENTRY_IGNORED)
  }

  /** A successful EnsureService provides for the service's traffic, whatever rules were there before, as long as Setup's
      was and the service chain was harmless. */
  lemma EnsureDelivers(n: Names, f: Family, svc: Service, before: Table, T: Table, L: Table, outcome: Outcome)
    requires Sound(n) && HasLBIP(svc, f) && Harmless(n, svc.uid, before)
    requires Fulfilled(before, ConnectionTask()) && !Marked(ConnectionRule(), svc.uid)
    requires RulesStep(n, svc, before, T) && Ensured(n, f, svc, before, T, L, outcome)
    ensures Delivering(n, f, svc, T, L, outcome.reqs)
  {
    hide Sound, HasLBIP, Fulfilled, Marked, Programmed, SourceNATDone, Unbalanced, Within, ListEntries, EntryThere, JumpTargets, RulesOf, OwnRules, Cleaned, LBListed, PortRequests;
    ConnectionKept(n, svc, JumpTargets(before, ServiceChain(n, svc.uid)), before, T);
    forall ip | ip in svc.lbIPs && OfFamily(ip, f) ensures EntryThere(n, svc, ip, L) {
      EntryWritten(n, f, svc, ip, L);
    }
  }

  lemma EntryWritten(n: Names, f: Family, svc: Service, ip: Addr, L: Table)
    requires LBListed(n, f, svc, L) && ip in svc.lbIPs && OfFamily(ip, f)
    ensures EntryThere(n, svc, ip, L)
  {
    hide ListEntry, ListEntries, Visible;
    var t := LBListTask(n, svc, ListEntries(n, f, svc, LB_LIST, svc.lbIPs));
    FulfilledMeans(L, t);
    ListEntriesAre(n, f, svc, LB_LIST, svc.lbIPs, ListEntry(n, svc, LB_LIST, ip));
    var j :| 0 <= j < |t.reqs| && t.reqs[j] == ListEntry(n, svc, LB_LIST, ip);
    assert Present(L, t, j);
  }

  /** The chains a service chain jumped to without need are the ones found empty. */
  lemma HarmDone(n: Names, svc: Service, before: Table, T: Table)
    requires Sound(n) && Cleaned(n, svc, before, T) && !Harmless(n, svc.uid, before)
    ensures Fulfilled(T, PruneChain(ServiceChain(n, svc.uid))) || Fulfilled(T, PruneChain("dstnat"))
  {
    hide Sound, ServiceChain, JumpTargets, Fulfilled, PortChain, HasPort;
    var own := ServiceChain(n, svc.uid);
    forall p ensures PortChain(n, svc.uid, p) != own && PortChain(n, svc.uid, p) != "dstnat" {
      ChainsApart(n, svc.uid, svc.uid, p);
    }
    ChainsApart(n, svc.uid, svc.uid, Port(0, 0, "TCP"));
    assert "dstnat" !in {DNAT_CHAIN, SNAT_CHAIN} by { assert |"dstnat"| == 6 && |DNAT_CHAIN| == 12 && |SNAT_CHAIN| == 12; }
  }

  /** Without the service chain's rules, or without Setup's, nothing is provided for. */
  lemma HarmStops(n: Names, f: Family, svc: Service, T: Table, L: Table, reqs: seq<Obj>, p: Port)
    requires Sound(n) && HasPort(svc.endpoints, p) && Balanced(p)
    requires Fulfilled(T, PruneChain(ServiceChain(n, svc.uid))) || Fulfilled(T, PruneChain("dstnat"))
    ensures !Delivering(n, f, svc, T, L, reqs)
  {
    hide Sound, Fulfilled, ServiceChain, LivesIn, EntryThere, Spread, ServiceRules, HasPort, PortRule;
    if Delivering(n, f, svc, T, L, reqs) {
      assert PortRule(n, svc, p) in reqs;
      PortTaskLives(n, svc, reqs);
      if Fulfilled(T, PruneChain(ServiceChain(n, svc.uid))) {
        PrunedHoldsNothing(T, PortTask(n, svc.uid, reqs), ServiceChain(n, svc.uid));
      } else {
        ConnectionGone(T);
      }
      assert false;
    }
  }

  lemma ConnectionGone(T: Table)
    requires Fulfilled(T, PruneChain("dstnat"))
    ensures !Fulfilled(T, ConnectionTask())
  {
    hide Fulfilled, LivesIn;
    ConnectionReads();
    LivesInChain(ConnectionTask(), "dstnat");
    PrunedIsEmpty(T, "dstnat");
    if Fulfilled(T, ConnectionTask()) {
      FulfilledMeans(T, ConnectionTask());
      NothingPresent(T, ConnectionTask(), "dstnat");
    }
  }

  lemma ConnectionReads()
    ensures Get(ConnectionRule(), "chain") == "dstnat"
  {
  }

  /** When no router call fails and there are ports, EnsureService provides for the service's traffic exactly if the
      service chain was harmless. */
  lemma DeliversIff(n: Names, f: Family, svc: Service, before: Table, T: Table, L: Table, p: Port)
    requires Sound(n) && HasLBIP(svc, f) && HasPort(svc.endpoints, p) && Balanced(p)
    requires Fulfilled(before, ConnectionTask()) && !Marked(ConnectionRule(), svc.uid)
    requires RulesStep(n, svc, before, T) && EnsuredInFull(n, f, svc, before, T, L)
    ensures (exists reqs :: Delivering(n, f, svc, T, L, reqs)) <==> Harmless(n, svc.uid, before)
  {
    hide Sound, HasLBIP, Fulfilled, Marked, Programmed, SourceNATDone, Unbalanced, RulesStep, Cleaned, LBListed, PortRequests, Delivering, Harmless, NoJumpBack, HasPort, Balanced, PruneChain;
    var outcome :| Ensured(n, f, svc, before, T, L, outcome) && outcome.cleaned;
    if Harmless(n, svc.uid, before) {
      EnsureDelivers(n, f, svc, before, T, L, outcome);
    } else {
      HarmDone(n, svc, before, T);
      forall reqs ensures !Delivering(n, f, svc, T, L, reqs) {
        HarmStops(n, f, svc, T, L, reqs, p);
      }
    }
  }

  // ---------- the way to the service ----------

  /** Neither EnsureService for the service itself nor any call for a service with other addresses puts a rule in the way. */
  lemma WayStaysClear(n: Names, pkt: Packet, svc: Service, other: Service, T: Table, T': Table, mine: iset<Obj>)
    requires Sound(n) && IsValid(pkt.dst) && ClearWay(n, pkt, svc, T) && Within(T, T', mine, OwnRules(n, other))
    requires other.uid == svc.uid || forall ip :: ip in other.lbIPs ==> IsValid(ip) && ip != pkt.dst
    ensures ClearWay(n, pkt, svc, T')
  {
    hide Sound, IsValid, ServiceChain, NeverApplies, Marked, SourceList, LeadsTo, IsPortChain, Get;
    ChainsApart(n, other.uid, other.uid, Port(0, 0, "TCP"));
    NoPortChain(n, other.uid, other.uid);
    OwnChainIsNoPortChain(n, other.uid);
    forall id | id in T' && Get(T'[id], "chain") == DNAT_CHAIN
      ensures OutOfTheWay(n, pkt, T'[id], ServiceChain(n, svc.uid)) {
      if !(id in T && T[id] == T'[id]) {
        assert JumpsTo(T'[id], ServiceChain(n, other.uid));
        if other.uid != svc.uid { LeadsElsewhere(n, pkt, other, T'[id]); }
      }
    }
    forall id | id in T' && Get(T'[id], "chain") == "dstnat" ensures OutOfTheWay(n, pkt, T'[id], DNAT_CHAIN) {
      assert T'[id] !in OwnRules(n, other) by { assert "dstnat" !in {DNAT_CHAIN, SNAT_CHAIN} by { assert |"dstnat"| == 6 && |DNAT_CHAIN| == 12 && |SNAT_CHAIN| == 12; } }
    }
  }

  lemma LeadsElsewhere(n: Names, pkt: Packet, other: Service, o: Obj)
    requires Sound(n) && IsValid(pkt.dst) && LeadsTo(n, other, o) && forall ip :: ip in other.lbIPs ==> IsValid(ip) && ip != pkt.dst
    ensures NeverApplies(n, pkt, o)
  {
    hide Sound, Host, IsValid, ReadAddress;
    var ip :| ip in other.lbIPs && Lookup(o, "dst-address") == Some(Host(n, ip));
    HostIsRead(n, ip);
    assert Mismatch(n, pkt, "dst-address", o["dst-address"]);
  }

  // ---------- other services ----------

  datatype Change = Ensure(svc: Service) | Delete(uid: string)

  /** The service a call is about; a deleted one has no addresses any more. */
  function ServiceOf(c: Change): Service {
    match c
    case Ensure(svc) => svc
    case Delete(uid) => Service(uid, "", [], NoAddr, NoAddr, [])
  }

  function UidOf(c: Change): string {
    ServiceOf(c).uid
  }

  /** What one call, successful or not, may do to the tables of a family. */
  ghost predicate Changed(n: Names, c: Change, T: Table, T': Table, L: Table, L': Table) {
    match c
    case Ensure(svc) => RulesStep(n, svc, T, T') && EntriesStep(n, svc, L, L')
    case Delete(uid) => Removed(n, uid, T, T', L, L')
  }

  /** The chains a call may clean up besides the service's own: DeleteService cleans up none. */
  ghost function Pruned(n: Names, c: Change, T: Table): iset<string> {
    match c
    case Ensure(svc) => JumpTargets(T, ServiceChain(n, svc.uid))
    case Delete(_) => iset{}
  }

  /** What a call does to the rules, in one form. */
  lemma ChangedWithin(n: Names, c: Change, T: Table, T': Table, L: Table, L': Table)
    requires Changed(n, c, T, T', L, L')
    ensures Within(T, T', RulesOf(n, UidOf(c)) + InChains(Pruned(n, c, T)), OwnRules(n, ServiceOf(c)))
  {
    hide Within, RulesOf, OwnRules, EntriesStep, DeletedEntries, JumpTargets;
    if c.Delete? {
      WithinMore(T, T', RulesOf(n, c.uid), iset{}, RulesOf(n, c.uid) + InChains(iset{}), OwnRules(n, ServiceOf(c)));
    }
  }

  /** The call is about a service with another chain name and other addresses, whose UID appears in none of
      this service's comments. */
  ghost predicate Stranger(n: Names, f: Family, svc: Service, reqs: seq<Obj>, c: Change) {
    && n.hash(UidOf(c)) != n.hash(svc.uid)
    && !Marked(ConnectionRule(), UidOf(c))
    && (forall o :: o in EndpointsRules(n, f, svc, svc.endpoints) ==> !Marked(o, UidOf(c)))
    && (forall o :: o in reqs ==> !Marked(o, UidOf(c)))
    && (forall o :: o in ServiceRules(n, f, svc, svc.lbIPs) ==> !Marked(o, UidOf(c)))
    && (forall ip :: ip in svc.lbIPs ==> !Marked(ListEntry(n, svc, LB_LIST, ip), UidOf(c)))
    && !Marked(SNATRule(n, f, svc), UidOf(c))
    && (forall ip :: ip in ServiceOf(c).lbIPs ==> IsValid(ip) && ip !in svc.lbIPs)
  }

  /** A call for another service that cleans up nothing of this one or of Setup. */
  ghost predicate Considerate(n: Names, f: Family, svc: Service, reqs: seq<Obj>, c: Change, T: Table) {
    Stranger(n, f, svc, reqs, c) && (c.Ensure? ==> Spares(n, UidOf(c), svc, T))
  }

  lemma StrangerHash(n: Names, f: Family, svc: Service, reqs: seq<Obj>, c: Change)
    requires Sound(n) && Stranger(n, f, svc, reqs, c)
    ensures ServiceChain(n, svc.uid) != ServiceChain(n, UidOf(c)) && SourceList(n, svc.uid) != SourceList(n, UidOf(c))
    ensures n.hash(UidOf(c)) != n.hash(svc.uid)
    ensures !Marked(ConnectionRule(), UidOf(c)) && !Marked(SNATRule(n, f, svc), UidOf(c))
    ensures forall ip :: ip in ServiceOf(c).lbIPs ==> IsValid(ip) && ip !in svc.lbIPs
  {
    hide Marked, EndpointsRules, ServiceRules, ListEntry, IsValid, SNATRule, ConnectionRule;
    if ServiceChain(n, svc.uid) == ServiceChain(n, UidOf(c)) { SameHash(n, svc.uid, UidOf(c)); }
    assert SourceList(n, svc.uid)[16..] == n.hash(svc.uid) && SourceList(n, UidOf(c))[16..] == n.hash(UidOf(c));
  }

  lemma SpreadKept(n: Names, f: Family, svc: Service, reqs: seq<Obj>, c: Change, T: Table, T': Table)
    requires Sound(n) && Considerate(n, f, svc, reqs, c, T) && Spread(n, f, svc, T)
    requires Within(T, T', RulesOf(n, UidOf(c)) + InChains(Pruned(n, c, T)), OwnRules(n, ServiceOf(c)))
    ensures Spread(n, f, svc, T')
  {
    hide Sound, Stranger, Within, Fulfilled, EndpointsRules, InChain, LivesIn, OwnRules, RulesOf, ServiceChain, SpreadRules, Places, IsPortChain, Marked, JumpTargets, AwayFrom, InChains;
    forall chain | InChain(EndpointsRules(n, f, svc, svc.endpoints), chain) != []
      ensures Fulfilled(T', DNATTask(f, chain, SpreadRules(n, f, svc, chain))) {
      var t := DNATTask(f, chain, SpreadRules(n, f, svc, chain));
      DNATTaskLives(n, f, svc, chain);
      StrangerHash(n, f, svc, reqs, c);
      OtherPortChain(n, svc.uid, UidOf(c), chain);
      ChainAway(n, UidOf(c), Pruned(n, c, T), t, chain);
      forall j | 0 <= j < |t.reqs| ensures !Marked(t.reqs[j], UidOf(c)) {
        SpreadUnmarked(n, f, svc, reqs, c, chain, j);
      }
      TaskKept(n, ServiceOf(c), Pruned(n, c, T), T, T', t);
    }
  }

  lemma SpreadUnmarked(n: Names, f: Family, svc: Service, reqs: seq<Obj>, c: Change, chain: string, j: nat)
    requires Stranger(n, f, svc, reqs, c) && j < |SpreadRules(n, f, svc, chain)|
    ensures !Marked(SpreadRules(n, f, svc, chain)[j], UidOf(c))
  {
    hide EndpointsRules, InChain, ServiceRules, ListEntry, HasPrefix, Contains, ConnectionRule, SNATRule;
    var all := EndpointsRules(n, f, svc, svc.endpoints);
    InChainAre(all, chain, InChain(all, chain)[j]);
  }

  lemma PortRulesKept(n: Names, f: Family, svc: Service, reqs: seq<Obj>, c: Change, T: Table, T': Table)
    requires Sound(n) && Considerate(n, f, svc, reqs, c, T) && PortRequests(n, svc, reqs) && Fulfilled(T, PortTask(n, svc.uid, reqs))
    requires Within(T, T', RulesOf(n, UidOf(c)) + InChains(Pruned(n, c, T)), OwnRules(n, ServiceOf(c)))
    ensures Fulfilled(T', PortTask(n, svc.uid, reqs))
  {
    hide Sound, Within, Fulfilled, PortRequests, LivesIn, OwnRules, RulesOf, ServiceChain, Places, IsPortChain, Marked, EndpointsRules, ServiceRules, ListEntry, SNATRule, JumpTargets, AwayFrom, InChains;
    var t := PortTask(n, svc.uid, reqs);
    PortTaskLives(n, svc, reqs);
    StrangerHash(n, f, svc, reqs, c);
    NoPortChain(n, svc.uid, UidOf(c));
    ChainsApart(n, svc.uid, svc.uid, Port(0, 0, "TCP"));
    ChainAway(n, UidOf(c), Pruned(n, c, T), t, ServiceChain(n, svc.uid));
    TaskKept(n, ServiceOf(c), Pruned(n, c, T), T, T', t);
  }

  lemma ServiceTaskAway(n: Names, f: Family, svc: Service, uid: string, pruned: iset<string>)
    requires Sound(n) && ServiceChain(n, svc.uid) != ServiceChain(n, uid) && DNAT_CHAIN !in pruned
    ensures LivesIn(ServiceTask(n, svc.uid, ServiceRules(n, f, svc, svc.lbIPs)), AwayFrom(n, uid, pruned))
  {
    hide Sound, ServiceChain, ServiceRules, ServiceRule, EqualsSome, IsPortChain, SourceList;
    var t := ServiceTask(n, svc.uid, ServiceRules(n, f, svc, svc.lbIPs));
    ChainsApart(n, uid, svc.uid, Port(0, 0, "TCP"));
    OwnChainIsNoPortChain(n, uid);
    forall j | 0 <= j < |t.reqs|
      ensures Get(t.reqs[j], "chain") == DNAT_CHAIN && Get(t.reqs[j], "jump-target") == ServiceChain(n, svc.uid) {
      ServiceRulesAre(n, f, svc, svc.lbIPs, t.reqs[j]);
      var ip :| ip in svc.lbIPs && OfFamily(ip, f) && t.reqs[j] == ServiceRule(n, svc, ip);
      ServiceRuleSays(n, svc, ip);
    }
    WritesHave(t, "chain", DNAT_CHAIN);
    WritesHave(t, "jump-target", ServiceChain(n, svc.uid));
  }

  lemma ServiceRulesKept(n: Names, f: Family, svc: Service, reqs: seq<Obj>, c: Change, T: Table, T': Table)
    requires Sound(n) && Considerate(n, f, svc, reqs, c, T)
    requires Fulfilled(T, ServiceTask(n, svc.uid, ServiceRules(n, f, svc, svc.lbIPs)))
    requires Within(T, T', RulesOf(n, UidOf(c)) + InChains(Pruned(n, c, T)), OwnRules(n, ServiceOf(c)))
    ensures Fulfilled(T', ServiceTask(n, svc.uid, ServiceRules(n, f, svc, svc.lbIPs)))
  {
    hide Sound, Within, Fulfilled, OwnRules, RulesOf, ServiceChain, Marked, EndpointsRules, ServiceRules, ListEntry, SNATRule, LivesIn, JumpTargets, InChains, AwayFrom;
    StrangerHash(n, f, svc, reqs, c);
    ServiceTaskAway(n, f, svc, UidOf(c), Pruned(n, c, T));
    TaskKept(n, ServiceOf(c), Pruned(n, c, T), T, T', ServiceTask(n, svc.uid, ServiceRules(n, f, svc, svc.lbIPs)));
  }

  lemma EntryKept(n: Names, f: Family, svc: Service, reqs: seq<Obj>, c: Change, ip: Addr, T: Table, T': Table, L: Table, L': Table)
    requires Sound(n) && Stranger(n, f, svc, reqs, c) && Changed(n, c, T, T', L, L')
    requires ip in svc.lbIPs && IsValid(ip) && EntryThere(n, svc, ip, L)
    ensures EntryThere(n, svc, ip, L')
  {
    hide Sound, EndpointsRules, ServiceRules, SNATRule, Host, Comment, RulesOf, OwnRules, OwnEntries, RulesStep, HasPrefix, Contains, BeforeSlash, IsValid, SourceList, Visible;
    var entry := ListEntry(n, svc, LB_LIST, ip);
    var id :| id in L && Visible(L[id], ENTRY_IGNORED) == Visible(entry, ENTRY_IGNORED);
    EntryReads(L[id], entry);
    HostReads(n, ip);
    ChainsApart(n, UidOf(c), UidOf(c), Port(0, 0, "TCP"));
    assert id in L' && L'[id] == L[id];
  }

  lemma EntryReads(o: Obj, entry: Obj)
    requires Visible(o, ENTRY_IGNORED) == Visible(entry, ENTRY_IGNORED)
    ensures Get(o, "list") == Get(entry, "list") && Get(o, "address") == Get(entry, "address")
    ensures Get(o, "comment") == Get(entry, "comment") && Get(o, "disabled") == Get(entry, "disabled")
  {
    hide Visible;
    VisibleEqual(o, entry, ENTRY_IGNORED);
    assert Lookup(o, "list") == Lookup(entry, "list") && Lookup(o, "address") == Lookup(entry, "address");
    assert Lookup(o, "comment") == Lookup(entry, "comment") && Lookup(o, "disabled") == Lookup(entry, "disabled");
  }

  /** One call for another service takes nothing from this one's load balancing. */
  lemma DeliveryKept(n: Names, f: Family, svc: Service, reqs: seq<Obj>, c: Change, T: Table, T': Table, L: Table, L': Table)
    requires Sound(n) && Considerate(n, f, svc, reqs, c, T) && Changed(n, c, T, T', L, L')
    requires Delivering(n, f, svc, T, L, reqs) && forall ip :: ip in svc.lbIPs ==> IsValid(ip)
    ensures Delivering(n, f, svc, T', L', reqs)
  {
    hide Sound, Stranger, Changed, Within, Fulfilled, Spread, PortRequests, RulesOf, OwnRules, EntryThere, IsValid, ServiceRules, JumpTargets;
    ChangedWithin(n, c, T, T', L, L');
    SpreadKept(n, f, svc, reqs, c, T, T');
    PortRulesKept(n, f, svc, reqs, c, T, T');
    ServiceRulesKept(n, f, svc, reqs, c, T, T');
    StrangerHash(n, f, svc, reqs, c);
    ConnectionKept(n, ServiceOf(c), Pruned(n, c, T), T, T');
    forall ip | ip in svc.lbIPs && OfFamily(ip, f) ensures EntryThere(n, svc, ip, L') {
      EntryKept(n, f, svc, reqs, c, ip, T, T', L, L');
    }
  }

  // ---------- source NAT ----------

  lemma SNATTaskAway(n: Names, f: Family, svc: Service, uid: string, pruned: iset<string>)
    requires Sound(n) && SourceList(n, svc.uid) != SourceList(n, uid) && SNAT_CHAIN !in pruned
    ensures LivesIn(SNATTask(n, f, svc.uid, SNATRules(n, f, svc)), AwayFrom(n, uid, pruned))
    ensures LivesIn(ServiceSNAT(n, svc.uid), AwayFrom(n, uid, pruned))
  {
    hide Sound, ServiceChain, SNATRule, EqualsSome, IsPortChain, SourceList;
    var t := SNATTask(n, f, svc.uid, SNATRules(n, f, svc));
    ChainsApart(n, uid, svc.uid, Port(0, 0, "TCP"));
    OwnChainIsNoPortChain(n, uid);
    SNATRuleSays(n, f, svc);
    WritesHave(t, "chain", SNAT_CHAIN);
    WritesHave(t, "src-address-list", SourceList(n, svc.uid));
    forall o ensures !EqualsSome(ServiceSNAT(n, svc.uid), o) { SourceScope(n, svc.uid, o); }
  }

  lemma SourcesKept(n: Names, f: Family, svc: Service, c: Change, T: Table, T': Table, L: Table, L': Table, t: Task)
    requires Sound(n) && SourceList(n, svc.uid) != SourceList(n, UidOf(c)) && Changed(n, c, T, T', L, L')
    requires Fulfilled(L, t) && LivesIn(t, List(SourceList(n, svc.uid)))
    ensures Fulfilled(L', t)
  {
    hide Sound, Within, Fulfilled, SourceList, RulesStep, RulesOf, OwnEntry, Marked, ScopeOf, WritesOf;
    ChainsApart(n, svc.uid, svc.uid, Port(0, 0, "TCP"));
    if c.Ensure? {
      StaysFulfilled(L, L', EntriesOf(n, c.svc), OwnEntries(n, c.svc.uid), t, List(SourceList(n, svc.uid)));
    } else {
      StaysFulfilled(L, L', DeletedEntries(n, c.uid), iset{}, t, List(SourceList(n, svc.uid)));
    }
  }

  /** Nor does it take anything from this one's source NAT. */
  lemma SourceNATKept(n: Names, f: Family, svc: Service, reqs: seq<Obj>, c: Change, T: Table, T': Table, L: Table, L': Table)
    requires Sound(n) && Considerate(n, f, svc, reqs, c, T) && Changed(n, c, T, T', L, L') && SourceNATDone(n, f, svc, T, L)
    ensures SourceNATDone(n, f, svc, T', L')
  {
    hide Sound, Stranger, Changed, Within, Fulfilled, RulesOf, OwnRules, JumpTargets, LivesIn, SourceList, SourceEntries, SNATRule, InChains, AwayFrom, Marked;
    ChangedWithin(n, c, T, T', L, L');
    StrangerHash(n, f, svc, reqs, c);
    SNATTaskAway(n, f, svc, UidOf(c), Pruned(n, c, T));
    if SNATIP(svc, f).Addr? {
      TaskKept(n, ServiceOf(c), Pruned(n, c, T), T, T', SNATTask(n, f, svc.uid, SNATRules(n, f, svc)));
      SourceTaskLives(n, f, svc);
      SourcesKept(n, f, svc, c, T, T', L, L', SourceListTask(n, svc.uid, SourceEntries(n, f, svc, svc.endpoints)));
    } else {
      TaskKept(n, ServiceOf(c), Pruned(n, c, T), T, T', ServiceSNAT(n, svc.uid));
      MarkedEntriesLive(n, svc);
      SourcesKept(n, f, svc, c, T, T', L, L', ServiceSources(n, svc.uid));
    }
  }

  // ---------- runs ----------

  /** A run of calls, by the tables of a family between them. */
  ghost predicate History(n: Names, changes: seq<Change>, rules: seq<Table>, lists: seq<Table>) {
    && |rules| == |lists| == |changes| + 1
    && forall i :: 0 <= i < |changes| ==> Changed(n, changes[i], rules[i], rules[i + 1], lists[i], lists[i + 1])
  }

  lemma {:induction false} SparesOverRun(n: Names, svc: Service, changes: seq<Change>, rules: seq<Table>, lists: seq<Table>, uid: string, k: nat)
    requires Sound(n) && History(n, changes, rules, lists) && k <= |changes|
    requires n.hash(uid) != n.hash(svc.uid) && Spares(n, uid, svc, rules[0])
    ensures Spares(n, uid, svc, rules[k])
    decreases k
  {
    hide Sound, Spares, Changed, Within, RulesOf, OwnRules, JumpTargets, InChains;
    if k > 0 {
      SparesOverRun(n, svc, changes, rules, lists, uid, k - 1);
      var c := changes[k - 1];
      ChangedWithin(n, c, rules[k - 1], rules[k], lists[k - 1], lists[k]);
      SparesKept(n, uid, svc, ServiceOf(c), rules[k - 1], rules[k], RulesOf(n, UidOf(c)) + InChains(Pruned(n, c, rules[k - 1])));
    }
  }

  /** Considerate calls stay considerate: it is enough to look at the first state. */
  lemma ConsiderateOverRun(n: Names, f: Family, svc: Service, reqs: seq<Obj>, changes: seq<Change>, rules: seq<Table>, lists: seq<Table>, c: Change, k: nat)
    requires Sound(n) && History(n, changes, rules, lists) && k <= |changes| && Considerate(n, f, svc, reqs, c, rules[0])
    ensures Considerate(n, f, svc, reqs, c, rules[k])
  {
    hide Sound, History, Stranger, Spares;
    StrangerHash(n, f, svc, reqs, c);
    if c.Ensure? { SparesOverRun(n, svc, changes, rules, lists, UidOf(c), k); }
  }

  lemma {:induction false} DeliveryOverRun(n: Names, f: Family, svc: Service, reqs: seq<Obj>, changes: seq<Change>, rules: seq<Table>, lists: seq<Table>, k: nat)
    requires Sound(n) && History(n, changes, rules, lists) && k <= |changes|
    requires forall i :: 0 <= i < |changes| ==> Considerate(n, f, svc, reqs, changes[i], rules[0])
    requires Delivering(n, f, svc, rules[0], lists[0], reqs) && forall ip :: ip in svc.lbIPs ==> IsValid(ip)
    requires SourceNATDone(n, f, svc, rules[0], lists[0])
    ensures Delivering(n, f, svc, rules[k], lists[k], reqs) && SourceNATDone(n, f, svc, rules[k], lists[k])
  {
    hide Sound, Changed, Considerate, Delivering, SourceNATDone, IsValid;
    if k > 0 {
      DeliveryOverRun(n, f, svc, reqs, changes, rules, lists, k - 1);
      ConsiderateOverRun(n, f, svc, reqs, changes, rules, lists, changes[k - 1], k - 1);
      DeliveryKept(n, f, svc, reqs, changes[k - 1], rules[k - 1], rules[k], lists[k - 1], lists[k]);
      SourceNATKept(n, f, svc, reqs, changes[k - 1], rules[k - 1], rules[k], lists[k - 1], lists[k]);
    }
  }

  lemma EntryLists(env: Env, svc: Service)
    requires Sound(env.n) && IsValid(env.pkt.dst) && EntryThere(env.n, svc, env.pkt.dst, env.lists)
    ensures Listed(env, LB_LIST, env.pkt.dst)
  {
    hide Sound, IsValid, Visible, Host, Comment, ReadAddress;
    HostIsRead(env.n, env.pkt.dst);
    var entry := ListEntry(env.n, svc, LB_LIST, env.pkt.dst);
    var id :| id in env.lists && Visible(env.lists[id], ENTRY_IGNORED) == Visible(entry, ENTRY_IGNORED);
    EntryReads(env.lists[id], entry);
  }

  /** Calls for the service itself, and considerate ones for others. */
  ghost predicate Neighbourly(n: Names, f: Family, svc: Service, reqs: seq<Obj>, c: Change, T: Table) {
    UidOf(c) == svc.uid || Considerate(n, f, svc, reqs, c, T)
  }

  /** What a run needs to be there when the service is ensured: Setup's rule, nothing in the way, a harmless chain. */
  ghost predicate Prepared(n: Names, pkt: Packet, svc: Service, T: Table) {
    Fulfilled(T, ConnectionTask()) && ClearWay(n, pkt, svc, T) && Harmless(n, svc.uid, T)
  }

  /** Every neighbourly call keeps that, the service's own EnsureService and DeleteService included. */
  lemma PreparedKept(n: Names, f: Family, pkt: Packet, svc: Service, reqs: seq<Obj>, c: Change, T: Table, T': Table, L: Table, L': Table)
    requires Sound(n) && IsValid(pkt.dst) && pkt.dst in svc.lbIPs && !Marked(ConnectionRule(), svc.uid)
    requires Neighbourly(n, f, svc, reqs, c, T) && Changed(n, c, T, T', L, L') && Prepared(n, pkt, svc, T)
    ensures Prepared(n, pkt, svc, T')
  {
    hide Sound, IsValid, Changed, Stranger, ClearWay, Within, RulesOf, OwnRules, JumpTargets, InChains, Fulfilled, Marked;
    var other, mine := ServiceOf(c), RulesOf(n, UidOf(c)) + InChains(Pruned(n, c, T));
    ChangedWithin(n, c, T, T', L, L');
    if UidOf(c) != svc.uid { StrangerHash(n, f, svc, reqs, c); }
    ConnectionKept(n, other, Pruned(n, c, T), T, T');
    WayStaysClear(n, pkt, svc, other, T, T', mine);
    HarmlessKept(n, svc.uid, other, T, T', mine);
  }

  lemma {:induction false} PreparedOverRun(n: Names, f: Family, pkt: Packet, svc: Service, reqs: seq<Obj>, changes: seq<Change>,
                                           rules: seq<Table>, lists: seq<Table>, k: nat)
    requires Sound(n) && IsValid(pkt.dst) && pkt.dst in svc.lbIPs && !Marked(ConnectionRule(), svc.uid)
    requires History(n, changes, rules, lists) && k <= |changes|
    requires forall i :: 0 <= i < |changes| ==> Neighbourly(n, f, svc, reqs, changes[i], rules[0])
    requires Prepared(n, pkt, svc, rules[0])
    ensures Prepared(n, pkt, svc, rules[k])
  {
    hide Sound, IsValid, Changed, Considerate, Prepared, Marked, ConnectionRule;
    if k > 0 {
      PreparedOverRun(n, f, pkt, svc, reqs, changes, rules, lists, k - 1);
      var c := changes[k - 1];
      if UidOf(c) != svc.uid { ConsiderateOverRun(n, f, svc, reqs, changes, rules, lists, c, k - 1); }
      PreparedKept(n, f, pkt, svc, reqs, c, rules[k - 1], rules[k], lists[k - 1], lists[k]);
    }
  }

  /** The rest of a run is a run. */
  lemma RestOfRun(n: Names, changes: seq<Change>, rules: seq<Table>, lists: seq<Table>, k: nat)
    requires History(n, changes, rules, lists) && k <= |changes|
    ensures History(n, changes[k..], rules[k..], lists[k..])
  {
    hide Changed;
    forall i | 0 <= i < |changes| - k
      ensures Changed(n, changes[k..][i], rules[k..][i], rules[k..][i + 1], lists[k..][i], lists[k..][i + 1]) {
      assert Changed(n, changes[k + i], rules[k + i], rules[k + i + 1], lists[k + i], lists[k + i + 1]);
    }
  }

  /** Any run of EnsureService and DeleteService calls from tables with Setup's rule, failed calls included, of which the
      last one for this service is a successful EnsureService: every packet to the service reaches an endpoint of its
      port. All that is asked of foreign rules is asked of the tables the run starts from. */
  lemma PacketsKeepReaching(env: Env, f: Family, svc: Service, changes: seq<Change>, rules: seq<Table>, lists: seq<Table>, k: nat,
                            outcome: Outcome, shown: seq<Obj>, p: Port, ip: Addr, depth: nat)
    requires Sound(env.n) && OfFamily(env.pkt.dst, f) && env.pkt.dst in svc.lbIPs && ValidEndpoints(svc) && forall a :: a in svc.lbIPs ==> IsValid(a)
    requires !Marked(ConnectionRule(), svc.uid) && History(env.n, changes, rules, lists) && Prepared(env.n, env.pkt, svc, rules[0])
    requires forall i :: 0 <= i < |changes| ==> Neighbourly(env.n, f, svc, outcome.reqs, changes[i], rules[0])
    requires k < |changes| && changes[k] == Ensure(svc) && Ensured(env.n, f, svc, rules[k], rules[k + 1], lists[k + 1], outcome)
    requires forall i :: k < i < |changes| ==> UidOf(changes[i]) != svc.uid
    requires env.lists == lists[|changes|] && Shown(rules[|changes|], map[], shown)
    requires Target(f, svc, env.pkt, p, ip) && depth >= 3
    ensures Run(env, shown, "dstnat", [], 0, depth) in Endpoints(f, svc, env.pkt)
  {
    hide Sound, Marked, RulesStep, EntriesStep, Removed, Shown, Target, Run, Programmed, EntryThere, IsValid, Considerate, Balancing, SourceNATDone, NothingInTheWay, Endpoints, ConnectionRule, Prepared;
    assert HasLBIP(svc, f);
    PreparedOverRun(env.n, f, env.pkt, svc, outcome.reqs, changes, rules, lists, k);
    PreparedOverRun(env.n, f, env.pkt, svc, outcome.reqs, changes, rules, lists, |changes|);
    assert Changed(env.n, changes[k], rules[k], rules[k + 1], lists[k], lists[k + 1]);
    PreparedDelivers(env.n, f, env.pkt, svc, rules[k], rules[k + 1], lists[k + 1], outcome);
    RestOfRun(env.n, changes, rules, lists, k + 1);
    forall i | k < i < |changes| ensures Considerate(env.n, f, svc, outcome.reqs, changes[i], rules[k + 1]) {
      ConsiderateOverRun(env.n, f, svc, outcome.reqs, changes, rules, lists, changes[i], k + 1);
    }
    DeliveryOverRun(env.n, f, svc, outcome.reqs, changes[k + 1..], rules[k + 1..], lists[k + 1..], |changes| - k - 1);
    EntryLists(env, svc);
    PreparedIsClear(env, rules[|changes|], shown, svc, depth);
    PacketsReachEndpoints(env, rules[|changes|], shown, f, svc, outcome.reqs, p, ip, depth);
  }

  lemma PreparedDelivers(n: Names, f: Family, pkt: Packet, svc: Service, before: Table, T: Table, L: Table, outcome: Outcome)
    requires Sound(n) && HasLBIP(svc, f) && Prepared(n, pkt, svc, before) && !Marked(ConnectionRule(), svc.uid)
    requires RulesStep(n, svc, before, T) && Ensured(n, f, svc, before, T, L, outcome)
    ensures Delivering(n, f, svc, T, L, outcome.reqs) && SourceNATDone(n, f, svc, T, L)
  {
    hide Sound, HasLBIP, ClearWay, Harmless, Marked, RulesStep, Balancing, Unbalanced, Fulfilled, Delivering, ConnectionRule;
    EnsureDelivers(n, f, svc, before, T, L, outcome);
  }

  lemma PreparedIsClear(env: Env, T: Table, shown: seq<Obj>, svc: Service, depth: nat)
    requires Prepared(env.n, env.pkt, svc, T) && Shown(T, map[], shown) && depth >= 1
    ensures NothingInTheWay(env, shown, svc, depth)
  {
    hide ClearWay, Harmless, Fulfilled, Shown, NothingInTheWay;
    ClearIsNotInTheWay(env, T, shown, svc, depth);
  }

  // ---------- a service chain that was not harmless ----------

  lemma EmptyByPruning(env: Env, T: Table, shown: seq<Obj>, chain: string, stack: seq<nat>, depth: nat)
    requires Shown(T, map[], shown) && Fulfilled(T, PruneChain(chain))
    ensures Run(env, shown, chain, stack, 0, depth) == Passed
  {
    hide Shown, Run, Fulfilled, Get;
    PrunedIsEmpty(T, chain);
    forall k | 0 <= k < |shown| ensures Get(shown[k], "chain") != chain {
      var id := RuleListed(T, shown, k);
    }
    EmptyPasses(env, shown, chain, stack, depth);
  }

  /** With the service chain or dstnat emptied, no packet of the service is translated. */
  lemma HarmLosesPackets(env: Env, T: Table, shown: seq<Obj>, svc: Service, depth: nat)
    requires Shown(T, map[], shown) && depth >= 3 && NothingInTheWay(env, shown, svc, depth)
    requires Fulfilled(T, PruneChain(ServiceChain(env.n, svc.uid))) || Fulfilled(T, PruneChain("dstnat"))
    ensures Run(env, shown, "dstnat", [], 0, depth) == Passed
  {
    hide Shown, NothingInTheWay, Run, Fulfilled, ServiceChain, PruneChain;
    if Fulfilled(T, PruneChain("dstnat")) {
      EmptyByPruning(env, T, shown, "dstnat", [], depth);
    } else {
      var d: nat := depth - 2;
      forall s ensures Gives(env, shown, ServiceChain(env.n, svc.uid), s, d, iset{Passed}) {
        EmptyByPruning(env, T, shown, ServiceChain(env.n, svc.uid), s, d);
      }
      PassesThrough(env, shown, svc, depth);
    }
  }

  /** After Setup and an EnsureService of which no router call failed, from any prior rules that are not in the way:
      packets reach the service's endpoints exactly if its chain was harmless. */
  lemma PacketsReachIff(env: Env, f: Family, svc: Service, before: Table, T: Table, shown: seq<Obj>, p: Port, ip: Addr, depth: nat)
    requires Sound(env.n) && OfFamily(env.pkt.dst, f) && env.pkt.dst in svc.lbIPs && IsValid(env.pkt.dst) && ValidEndpoints(svc)
    requires Fulfilled(before, ConnectionTask()) && !Marked(ConnectionRule(), svc.uid) && ClearWay(env.n, env.pkt, svc, before)
    requires RulesStep(env.n, svc, before, T) && EnsuredInFull(env.n, f, svc, before, T, env.lists)
    requires Shown(T, map[], shown) && Target(f, svc, env.pkt, p, ip) && depth >= 3
    ensures Run(env, shown, "dstnat", [], 0, depth) in Endpoints(f, svc, env.pkt) <==> Harmless(env.n, svc.uid, before)
  {
    hide Sound, Fulfilled, Marked, Within, RulesOf, OwnRules, JumpTargets, InChains, Shown, Target, Run, Programmed, EntryThere, IsValid, Harmless, ClearWay, SourceNATDone, NothingInTheWay, PruneChain, Cleaned, LBListed, PortRequests, NoJumpBack;
    assert HasLBIP(svc, f);
    var outcome :| Ensured(env.n, f, svc, before, T, env.lists, outcome) && outcome.cleaned;
    WayStaysClear(env.n, env.pkt, svc, svc, before, T, RulesTouched(env.n, svc.uid, before));
    ClearIsNotInTheWay(env, T, shown, svc, depth);
    if Harmless(env.n, svc.uid, before) {
      EnsureDelivers(env.n, f, svc, before, T, env.lists, outcome);
      EntryLists(env, svc);
      PacketsReachEndpoints(env, T, shown, f, svc, outcome.reqs, p, ip, depth);
    } else {
      HarmDone(env.n, svc, before, T);
      HarmLosesPackets(env, T, shown, svc, depth);
    }
  }

  /** A rule in the service chain that jumps back to it: the port rules just written are cleaned up again. */
  lemma JumpBackExample(env: Env, svc: Service, T': Table, reqs: seq<Obj>, stale: set<string>, shown: seq<Obj>, stack: seq<nat>, depth: nat)
    requires Sound(env.n) && Shown(T', map[], shown)
    requires var chain := ServiceChain(env.n, svc.uid);
             PortStep(env.n, svc, map["*1" := map[ID := "*1", "chain" := chain, "action" := "jump", "jump-target" := chain]], T', reqs, stale)
    requires AllPruned(T', stale)
    ensures Run(env, shown, ServiceChain(env.n, svc.uid), stack, 0, depth) == Passed
    ensures reqs != [] ==> !Fulfilled(T', PortTask(env.n, svc.uid, reqs))
  {
    hide Sound, Shown, ServiceChain, Run, Fulfilled, PortRequests, HasPort, PortChain, LivesIn;
    var n, chain := env.n, ServiceChain(env.n, svc.uid);
    var T: Table := map["*1" := map[ID := "*1", "chain" := chain, "action" := "jump", "jump-target" := chain]];
    assert "*1" in T && Get(T["*1"], "chain") == chain && Get(T["*1"], "jump-target") == chain;
    assert chain in JumpTargets(T, chain);
    forall p ensures PortChain(n, svc.uid, p) != chain { ChainsApart(n, svc.uid, svc.uid, p); }
    assert chain in stale;
    EmptyByPruning(env, T', shown, chain, stack, depth);
    PortTaskLives(n, svc, reqs);
    PrunedHoldsNothing(T', PortTask(n, svc.uid, reqs), chain);
  }

  /** A rule in the service chain that jumps to dstnat: Setup's rule is there and the chain does not jump back, but the
      cleanup empties dstnat, and no packet is translated any more. */
  lemma JumpToDstnatExample(env: Env, svc: Service, T': Table, reqs: seq<Obj>, stale: set<string>, shown: seq<Obj>, depth: nat)
    requires Sound(env.n) && Shown(T', map[], shown)
    requires var T: Table := map["*1" := ConnectionRule()[ID := "*1"],
                                 "*2" := map[ID := "*2", "chain" := ServiceChain(env.n, svc.uid), "action" := "jump", "jump-target" := "dstnat"]];
             PortStep(env.n, svc, T, T', reqs, stale)
    requires AllPruned(T', stale)
    ensures var T: Table := map["*1" := ConnectionRule()[ID := "*1"],
                                "*2" := map[ID := "*2", "chain" := ServiceChain(env.n, svc.uid), "action" := "jump", "jump-target" := "dstnat"]];
            Fulfilled(T, ConnectionTask()) && NoJumpBack(env.n, svc.uid, T)
    ensures !Fulfilled(T', ConnectionTask()) && Run(env, shown, "dstnat", [], 0, depth) == Passed
  {
    hide Sound, Shown, ServiceChain, Run, Fulfilled, PortRequests, HasPort, PortChain;
    var n, chain := env.n, ServiceChain(env.n, svc.uid);
    var T: Table := map["*1" := ConnectionRule()[ID := "*1"],
                        "*2" := map[ID := "*2", "chain" := chain, "action" := "jump", "jump-target" := "dstnat"]];
    assert "*2" in T && Get(T["*2"], "chain") == chain && Get(T["*2"], "jump-target") == "dstnat";
    assert "dstnat" in JumpTargets(T, chain);
    forall p ensures PortChain(n, svc.uid, p) != "dstnat" { ChainsApart(n, svc.uid, svc.uid, p); }
    assert "dstnat" in stale;
    EmptyByPruning(env, T', shown, "dstnat", [], depth);
    ConnectionGone(T');
    ChainsApart(n, svc.uid, svc.uid, Port(0, 0, "TCP"));
    PutServes(ConnectionTask(), ConnectionRule(), "*1");
    SetupThere(T, ConnectionRule()[ID := "*1"], map[ID := "*2", "chain" := chain, "action" := "jump", "jump-target" := "dstnat"]);
  }

  lemma SetupThere(T: Table, setup: Obj, other: Obj)
    requires T == map["*1" := setup, "*2" := other] && IdAt(setup) == "*1"
    requires Equal(ConnectionTask(), setup, ConnectionRule()) && Get(other, "chain") != "dstnat"
    ensures Fulfilled(T, ConnectionTask())
  {
    hide Equal, ConnectionRule, InScope, Get, IdAt;
    var t := ConnectionTask();
    OutOfDstnat(other);
    assert "*1" in T && T["*1"] == setup;
    assert Serves([setup], "*1") by { assert IdAt([setup][0]) == "*1"; }
    assert Assigned(T, t, [setup]);
  }

  lemma OutOfDstnat(o: Obj)
    requires Get(o, "chain") != "dstnat"
    ensures !InScope(ConnectionTask(), o)
  {
    hide Get;
    assert "chain" in ConnectionTask().query;
  }

  // ---------- a service's life ----------

  /** Runs of EnsureService for one UID, each with its own addresses and endpoints, failed ones included, by the
      tables of a family they leave. */
  ghost predicate Ensures(n: Names, uid: string, svcs: seq<Service>, rules: seq<Table>, lists: seq<Table>) {
    && |rules| == |lists| == |svcs| + 1
    && forall i :: 0 <= i < |svcs| ==>
         svcs[i].uid == uid && RulesStep(n, svcs[i], rules[i], rules[i + 1]) && EntriesStep(n, svcs[i], lists[i], lists[i + 1])
  }

  ghost function EverWritten(n: Names, svcs: seq<Service>): iset<Obj> {
    iset o: Obj, i | 0 <= i < |svcs| && o in OwnRules(n, svcs[i]) :: o
  }

  /** Every entry that is ever one of the service's. */
  ghost function EverEntries(n: Names, svcs: seq<Service>): iset<Obj> {
    iset o: Obj, i | 0 <= i < |svcs| && o in EntriesOf(n, svcs[i]) :: o
  }

  /** Only the chains that the service chain jumped to at the start are ever cleaned up, besides the service's own. */
  lemma TouchedShrinks(n: Names, uid: string, svc: Service, T0: Table, T: Table, T': Table)
    requires Sound(n) && svc.uid == uid && RulesStep(n, svc, T, T')
    requires RulesTouched(n, uid, T) <= RulesTouched(n, uid, T0)
    ensures RulesTouched(n, uid, T') <= RulesTouched(n, uid, T0)
  {
    hide Sound, Within, JumpTargets, OwnRules, ServiceChain, IsPortChain, Marked, SourceList;
    forall o | o in RulesTouched(n, uid, T') ensures o in RulesTouched(n, uid, T0) {
      if o in InChains(JumpTargets(T', ServiceChain(n, uid))) {
        JumpsKept(n, uid, svc, T, T', RulesTouched(n, uid, T), Get(o, "chain"));
        assert o in RulesTouched(n, uid, T);
      }
    }
  }

  lemma {:induction false} LifeOfRules(n: Names, uid: string, svcs: seq<Service>, rules: seq<Table>, lists: seq<Table>, k: nat)
    requires Sound(n) && Ensures(n, uid, svcs, rules, lists) && k <= |svcs|
    ensures RulesTouched(n, uid, rules[k]) <= RulesTouched(n, uid, rules[0])
    ensures Within(rules[0], rules[k], RulesTouched(n, uid, rules[0]), EverWritten(n, svcs))
  {
    hide Sound, RulesTouched, OwnRules, Within, EntriesStep;
    if k == 0 {
      Unchanged(rules[0], RulesTouched(n, uid, rules[0]), EverWritten(n, svcs));
    } else {
      LifeOfRules(n, uid, svcs, rules, lists, k - 1);
      assert svcs[k - 1].uid == uid && RulesStep(n, svcs[k - 1], rules[k - 1], rules[k]);
      TouchedShrinks(n, uid, svcs[k - 1], rules[0], rules[k - 1], rules[k]);
      WithinMore(rules[k - 1], rules[k], RulesTouched(n, uid, rules[k - 1]), OwnRules(n, svcs[k - 1]),
                 RulesTouched(n, uid, rules[0]), EverWritten(n, svcs));
      WithinTogether(rules[0], rules[k - 1], rules[k], RulesTouched(n, uid, rules[0]), EverWritten(n, svcs));
    }
  }

  lemma {:induction false} LifeOfEntries(n: Names, uid: string, svcs: seq<Service>, rules: seq<Table>, lists: seq<Table>, k: nat)
    requires Ensures(n, uid, svcs, rules, lists) && k <= |svcs|
    ensures Within(lists[0], lists[k], EverEntries(n, svcs), OwnEntries(n, uid))
  {
    hide Within, EntriesOf, OwnEntries, RulesStep;
    if k == 0 {
      Unchanged(lists[0], EverEntries(n, svcs), OwnEntries(n, uid));
    } else {
      LifeOfEntries(n, uid, svcs, rules, lists, k - 1);
      assert svcs[k - 1].uid == uid && EntriesStep(n, svcs[k - 1], lists[k - 1], lists[k]);
      WithinMore(lists[k - 1], lists[k], EntriesOf(n, svcs[k - 1]), OwnEntries(n, uid), EverEntries(n, svcs), OwnEntries(n, uid));
      WithinTogether(lists[0], lists[k - 1], lists[k], EverEntries(n, svcs), OwnEntries(n, uid));
    }
  }

  lemma EverWrittenMarked(n: Names, uid: string, svcs: seq<Service>)
    requires forall i :: 0 <= i < |svcs| ==> svcs[i].uid == uid
    ensures forall o :: o in EverWritten(n, svcs) ==> Marked(o, uid)
  {
    hide Marked, Places, IsPortChain, ServiceChain, LeadsTo;
  }

  /** After any number of EnsureService calls for a UID, failed ones included, and one successful DeleteService, from any
      start: a family's tables hold nothing but what they held at the start, without anything of the service; and
      everything is still there that never belonged to the service and was in no chain its own jumped to. */
  lemma NoResidue(n: Names, uid: string, svcs: seq<Service>, rules: seq<Table>, lists: seq<Table>, T: Table, L: Table)
    requires Sound(n) && Ensures(n, uid, svcs, rules, lists)
    requires Removed(n, uid, rules[|svcs|], T, lists[|svcs|], L) && Gone(n, uid, T, L)
    ensures forall id :: id in T ==> id in rules[0] && T[id] == rules[0][id] && !Marked(T[id], uid)
    ensures forall id :: id in L ==> id in lists[0] && L[id] == lists[0][id] && L[id] !in OwnEntries(n, uid)
    ensures forall id :: id in rules[0] && rules[0][id] !in RulesTouched(n, uid, rules[0]) ==> id in T && T[id] == rules[0][id]
    ensures forall id :: id in lists[0] && lists[0][id] !in EverEntries(n, svcs) + DeletedEntries(n, uid) ==>
              id in L && L[id] == lists[0][id]
  {
    hide Sound, Ensures, Places, EverWritten, EverEntries, Marked, SourceList, Get, JumpTargets, InChains;
    EnsuresShape(n, uid, svcs, rules, lists);
    LifeOfRules(n, uid, svcs, rules, lists, |svcs|);
    LifeOfEntries(n, uid, svcs, rules, lists, |svcs|);
    EverWrittenMarked(n, uid, svcs);
  }

  lemma EnsuresShape(n: Names, uid: string, svcs: seq<Service>, rules: seq<Table>, lists: seq<Table>)
    requires Ensures(n, uid, svcs, rules, lists)
    ensures |rules| == |lists| == |svcs| + 1 && forall i :: 0 <= i < |svcs| ==> svcs[i].uid == uid
  {
    hide EntriesStep, RulesStep;
  }
}
