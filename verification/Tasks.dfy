/** The Sync tasks of a service: where their objects are, and that each lists its own requests. */
module Tasks {
  import opened Net
  import opened Router
  import opened Matching
  import opened Syncing
  import opened Services
  import opened Programs
  import opened Requests

  // ---------- where Sync tasks live ----------

  /** Such a Sync reads and writes only objects of `home`. */
  ghost predicate LivesIn(t: Task, home: iset<Obj>) {
    ScopeOf(t) <= home && WritesOf(t) <= home
  }

  lemma Settled(a: Table, b: Table, t: Task, home: iset<Obj>, own: iset<Obj>)
    requires Within(a, b, ScopeOf(t), WritesOf(t)) && LivesIn(t, home) && WritesOf(t) <= own
    ensures Within(a, b, home, home * own)
  {
    hide ScopeOf, WritesOf;
  }

  lemma StaysFulfilled(a: Table, b: Table, mine: iset<Obj>, own: iset<Obj>, t: Task, home: iset<Obj>)
    requires Fulfilled(a, t) && Within(a, b, mine, own) && LivesIn(t, home) && mine !! home && own !! home
    ensures Fulfilled(b, t)
  {
    hide Fulfilled, Within, EqualsSome, InScope;
    forall o | InScope(t, o) ensures o !in own { assert o in ScopeOf(t); }
    forall o | EqualsSome(t, o) ensures o !in mine { assert o in WritesOf(t); }
    StillFulfilled(a, b, mine, own, t);
  }

  ghost function Chain(c: string): iset<Obj> {
    InChains(iset{c})
  }

  ghost function List(l: string): iset<Obj> {
    InLists(iset{l})
  }

  /** A task whose query and requests name one chain lives there. */
  lemma LivesInChain(t: Task, c: string)
    requires "chain" in t.query && t.query["chain"] == c && "chain" !in t.ignored
    requires forall j :: 0 <= j < |t.reqs| ==> Get(t.reqs[j], "chain") == c
    ensures LivesIn(t, Chain(c))
  {
    hide EqualsSome, Get;
    WritesHave(t, "chain", c);
  }

  lemma LivesInList(t: Task, l: string)
    requires "list" in t.query && t.query["list"] == l && "list" !in t.ignored
    requires forall j :: 0 <= j < |t.reqs| ==> Get(t.reqs[j], "list") == l
    ensures LivesIn(t, List(l))
  {
    hide EqualsSome, Get;
    WritesHave(t, "list", l);
  }

  /** Marked requests in one chain that is neither the service's own nor the connection chain. */
  lemma OwnsWrites(n: Names, svc: Service, t: Task, c: string)
    requires "comment" !in t.ignored && WritesOf(t) <= Places(n, svc.uid) && WritesOf(t) <= Chain(c)
    requires c != ServiceChain(n, svc.uid) && c != DNAT_CHAIN
    requires forall j :: 0 <= j < |t.reqs| ==> Marked(t.reqs[j], svc.uid)
    ensures WritesOf(t) <= OwnRules(n, svc)
  {
    hide EqualsSome, Places, Marked, ServiceChain, IsPortChain, LeadsTo;
    WritesMarked(t, svc.uid);
  }

  // ---------- the Sync tasks of a service ----------

  lemma SpreadRulesSay(n: Names, f: Family, svc: Service, chain: string, j: nat)
    requires j < |SpreadRules(n, f, svc, chain)|
    ensures var o := SpreadRules(n, f, svc, chain)[j];
            Get(o, "chain") == chain && Marked(o, svc.uid) && IsPortChain(n, svc.uid, chain)
  {
    hide EndpointsRules, InChain, PortChain, Offers, HasPrefix, Contains, Comment, Host, Decimal;
    var all := EndpointsRules(n, f, svc, svc.endpoints);
    var plain := InChain(all, chain)[j];
    InChainAre(all, chain, plain);
    EndpointsRulesAre(n, f, svc, svc.endpoints, plain);
    var p, ip :| Offers(svc.endpoints, p, ip) && Balanced(p) && OfFamily(ip, f) && plain == DNATRule(n, f, svc, p, ip);
    RuleChain(n, f, svc, p, ip);
    DNATRuleMarked(n, f, svc, p, ip);
  }

  lemma DNATRuleMarked(n: Names, f: Family, svc: Service, p: Port, ip: Addr)
    ensures Marked(DNATRule(n, f, svc, p, ip), svc.uid)
  {
    hide PortChain, Host, Decimal, Comment, Marked, PortText, AddrPortText;
    CommentMarks(DNATRule(n, f, svc, p, ip), " LB for service ", svc.name, svc.uid,
                 PortText(p) + " -> " + AddrPortText(n, ip, p.targetPort));
  }

  lemma DNATTaskLives(n: Names, f: Family, svc: Service, chain: string)
    requires Sound(n) && InChain(EndpointsRules(n, f, svc, svc.endpoints), chain) != []
    ensures var t := DNATTask(f, chain, SpreadRules(n, f, svc, chain));
            LivesIn(t, Chain(chain)) && WritesOf(t) <= OwnRules(n, svc)
    ensures IsPortChain(n, svc.uid, chain) && chain != ServiceChain(n, svc.uid)
  {
    hide SpreadRules, LivesIn, OwnRules, WritesOf, Marked, EndpointsRules, InChain, ServiceChain, PortChain, Sound;
    var t := DNATTask(f, chain, SpreadRules(n, f, svc, chain));
    forall j | 0 <= j < |t.reqs|
      ensures Get(t.reqs[j], "chain") == chain && Marked(t.reqs[j], svc.uid) && IsPortChain(n, svc.uid, chain) {
      SpreadRulesSay(n, f, svc, chain, j);
    }
    assert |t.reqs| > 0 by { SpreadNotEmpty(n, f, svc, chain); }
    assert Get(t.reqs[0], "chain") == chain;
    var p :| Balanced(p) && PortChain(n, svc.uid, p) == chain;
    ChainsApart(n, svc.uid, svc.uid, p);
    LivesInChain(t, chain);
    assert WritesOf(t) <= Places(n, svc.uid) && WritesOf(t) <= Chain(chain) by { ChainIsOwn(n, svc.uid, t, chain); }
    OwnsWrites(n, svc, t, chain);
  }

  lemma ChainIsOwn(n: Names, uid: string, t: Task, chain: string)
    requires LivesIn(t, Chain(chain)) && IsPortChain(n, uid, chain)
    ensures WritesOf(t) <= Places(n, uid) && WritesOf(t) <= Chain(chain)
  {
    hide WritesOf, IsPortChain, ServiceChain, SourceList;
  }

  lemma SpreadNotEmpty(n: Names, f: Family, svc: Service, chain: string)
    requires InChain(EndpointsRules(n, f, svc, svc.endpoints), chain) != []
    ensures SpreadRules(n, f, svc, chain) != []
  {
  }

  lemma PortTaskLives(n: Names, svc: Service, reqs: seq<Obj>)
    requires Sound(n) && PortRequests(n, svc, reqs)
    ensures var t := PortTask(n, svc.uid, reqs);
            LivesIn(t, Chain(ServiceChain(n, svc.uid))) && WritesOf(t) <= OwnRules(n, svc)
  {
    hide Sound, Marked, ServiceChain, EqualsSome, IsPortChain, HasPort, PortRule;
    var t := PortTask(n, svc.uid, reqs);
    forall j | 0 <= j < |reqs|
      ensures Get(reqs[j], "chain") == ServiceChain(n, svc.uid) && Marked(reqs[j], svc.uid) {
      assert reqs[j] in reqs;
      var p :| HasPort(svc.endpoints, p) && Balanced(p) && reqs[j] == PortRule(n, svc, p);
      PortRuleSays(n, svc, p);
    }
    LivesInChain(t, ServiceChain(n, svc.uid));
    WritesMarked(t, svc.uid);
    assert ServiceChain(n, svc.uid) != DNAT_CHAIN by { ChainsApart(n, svc.uid, svc.uid, Port(0, 0, "TCP")); }
    forall o | EqualsSome(t, o) ensures o in OwnRules(n, svc) {
      PortWriteJumps(n, svc, reqs, o);
      assert o in WritesOf(t);
    }
  }

  lemma PortRuleSays(n: Names, svc: Service, p: Port)
    ensures var o := PortRule(n, svc, p);
            && Get(o, "chain") == ServiceChain(n, svc.uid) && Marked(o, svc.uid)
            && Get(o, "jump-target") == PortChain(n, svc.uid, p)
  {
    hide PortChain, ServiceChain, Decimal, Comment, Marked, PortText;
    CommentMarks(PortRule(n, svc, p), " LB for service ", svc.name, svc.uid, PortText(p));
  }

  lemma PortWriteJumps(n: Names, svc: Service, reqs: seq<Obj>, o: Obj)
    requires PortRequests(n, svc, reqs) && EqualsSome(PortTask(n, svc.uid, reqs), o)
    ensures IsPortChain(n, svc.uid, Get(o, "jump-target"))
  {
    hide Equal, HasPort, PortRule, PortChain, ServiceChain, Marked;
    var t := PortTask(n, svc.uid, reqs);
    var j :| 0 <= j < |reqs| && Equal(t, o, reqs[j]);
    assert reqs[j] in reqs;
    var p :| HasPort(svc.endpoints, p) && Balanced(p) && reqs[j] == PortRule(n, svc, p);
    PortRuleSays(n, svc, p);
    EqualGet(t, o, reqs[j], "jump-target");
  }

  /** The writes of the connection chain's Sync. */
  lemma ServiceWrites(n: Names, f: Family, svc: Service, o: Obj)
    requires EqualsSome(ServiceTask(n, svc.uid, ServiceRules(n, f, svc, svc.lbIPs)), o)
    ensures Get(o, "chain") == DNAT_CHAIN && Get(o, "action") == "jump" && Get(o, "jump-target") == ServiceChain(n, svc.uid)
    ensures Marked(o, svc.uid) && LeadsTo(n, svc, o)
  {
    hide Equal, ServiceRule, ServiceRules, ServiceChain, Host, HasPrefix, Contains, Get;
    var t := ServiceTask(n, svc.uid, ServiceRules(n, f, svc, svc.lbIPs));
    var j :| 0 <= j < |t.reqs| && Equal(t, o, t.reqs[j]);
    ServiceRulesAre(n, f, svc, svc.lbIPs, t.reqs[j]);
    var ip :| ip in svc.lbIPs && OfFamily(ip, f) && t.reqs[j] == ServiceRule(n, svc, ip);
    ServiceRuleSays(n, svc, ip);
    EqualGet(t, o, t.reqs[j], "chain");
    EqualGet(t, o, t.reqs[j], "action");
    EqualGet(t, o, t.reqs[j], "jump-target");
    EqualGet(t, o, t.reqs[j], "dst-address");
    EqualGet(t, o, t.reqs[j], "comment");
  }

  lemma ServiceTaskLives(n: Names, f: Family, svc: Service)
    requires Sound(n)
    ensures var t := ServiceTask(n, svc.uid, ServiceRules(n, f, svc, svc.lbIPs));
            LivesIn(t, Chain(DNAT_CHAIN)) && LivesIn(t, RulesOf(n, svc.uid)) && WritesOf(t) <= OwnRules(n, svc)
  {
    hide Marked, ServiceChain, SourceList, EqualsSome, IsPortChain, LeadsTo, ServiceRules, Sound;
    var t := ServiceTask(n, svc.uid, ServiceRules(n, f, svc, svc.lbIPs));
    ChainsApart(n, svc.uid, svc.uid, Port(0, 0, "TCP"));
    forall o | EqualsSome(t, o) ensures o in Chain(DNAT_CHAIN) && o in OwnRules(n, svc) {
      ServiceWrites(n, f, svc, o);
    }
  }

  lemma ServiceRuleSays(n: Names, svc: Service, ip: Addr)
    ensures Get(ServiceRule(n, svc, ip), "chain") == DNAT_CHAIN && Get(ServiceRule(n, svc, ip), "jump-target") == ServiceChain(n, svc.uid)
    ensures Get(ServiceRule(n, svc, ip), "action") == "jump" && Lookup(ServiceRule(n, svc, ip), "dst-address") == Some(Host(n, ip))
    ensures Marked(ServiceRule(n, svc, ip), svc.uid)
  {
    hide ServiceChain, Host, Comment, Marked;
    CommentMarks(ServiceRule(n, svc, ip), " LB for service ", svc.name, svc.uid, "");
  }

  function SNATRules(n: Names, f: Family, svc: Service): seq<Obj> {
    if SNATIP(svc, f).Addr? then [SNATRule(n, f, svc)] else []
  }

  lemma SNATTaskLives(n: Names, f: Family, svc: Service)
    requires Sound(n)
    ensures var t := SNATTask(n, f, svc.uid, SNATRules(n, f, svc));
            LivesIn(t, Chain(SNAT_CHAIN)) && LivesIn(t, RulesOf(n, svc.uid)) && WritesOf(t) <= OwnRules(n, svc)
  {
    hide Marked, ServiceChain, SourceList, EqualsSome, IsPortChain, SNATRule, Sound;
    var t := SNATTask(n, f, svc.uid, SNATRules(n, f, svc));
    SNATRuleSays(n, f, svc);
    ChainsApart(n, svc.uid, svc.uid, Port(0, 0, "TCP"));
    LivesInChain(t, SNAT_CHAIN);
    WritesHave(t, "chain", SNAT_CHAIN);
    WritesHave(t, "src-address-list", SourceList(n, svc.uid));
    WritesMarked(t, svc.uid);
    OwnsWrites(n, svc, t, SNAT_CHAIN);
  }

  lemma SNATRuleSays(n: Names, f: Family, svc: Service)
    ensures Get(SNATRule(n, f, svc), "chain") == SNAT_CHAIN && Get(SNATRule(n, f, svc), "src-address-list") == SourceList(n, svc.uid)
    ensures Marked(SNATRule(n, f, svc), svc.uid)
  {
    hide SourceList, Comment, Marked;
    CommentMarks(SNATRule(n, f, svc), " SNAT for service ", svc.name, svc.uid, "");
  }

  lemma ListEntrySays(n: Names, svc: Service, list: string, ip: Addr)
    ensures Get(ListEntry(n, svc, list, ip), "list") == list && Marked(ListEntry(n, svc, list, ip), svc.uid)
  {
    hide Host, Comment, Marked;
    CommentMarks(ListEntry(n, svc, list, ip), " service ", svc.name, svc.uid, "");
  }

  lemma LBListTaskLives(n: Names, f: Family, svc: Service)
    ensures var t := LBListTask(n, svc, ListEntries(n, f, svc, LB_LIST, svc.lbIPs));
            LivesIn(t, List(LB_LIST)) && LivesIn(t, EntriesOf(n, svc)) && WritesOf(t) <= OwnEntries(n, svc.uid)
  {
    hide Marked, SourceList, EqualsSome, ListEntry, ListEntries, BeforeSlash;
    var t := LBListTask(n, svc, ListEntries(n, f, svc, LB_LIST, svc.lbIPs));
    forall j | 0 <= j < |t.reqs| ensures Get(t.reqs[j], "list") == LB_LIST && Marked(t.reqs[j], svc.uid) {
      ListEntriesAre(n, f, svc, LB_LIST, svc.lbIPs, t.reqs[j]);
      var ip :| ip in svc.lbIPs && OfFamily(ip, f) && t.reqs[j] == ListEntry(n, svc, LB_LIST, ip);
      ListEntrySays(n, svc, LB_LIST, ip);
    }
    LivesInList(t, LB_LIST);
    WritesHave(t, "list", LB_LIST);
    WritesMarked(t, svc.uid);
  }

  lemma SourceTaskLives(n: Names, f: Family, svc: Service)
    ensures var t := SourceListTask(n, svc.uid, SourceEntries(n, f, svc, svc.endpoints));
            && LivesIn(t, List(SourceList(n, svc.uid))) && LivesIn(t, EntriesOf(n, svc))
            && WritesOf(t) <= OwnEntries(n, svc.uid)
  {
    hide Marked, SourceList, EqualsSome, ListEntry, SourceEntries, OwnEntry;
    var list := SourceList(n, svc.uid);
    var t := SourceListTask(n, svc.uid, SourceEntries(n, f, svc, svc.endpoints));
    forall j | 0 <= j < |t.reqs| ensures Get(t.reqs[j], "list") == list && Marked(t.reqs[j], svc.uid) {
      SourceEntriesAre(n, f, svc, svc.endpoints, t.reqs[j]);
      var i, ip :| 0 <= i < |svc.endpoints| && ip in svc.endpoints[i].ips && OfFamily(ip, f) && t.reqs[j] == ListEntry(n, svc, list, ip);
      ListEntrySays(n, svc, list, ip);
    }
    LivesInList(t, list);
    WritesHave(t, "list", list);
    WritesMarked(t, svc.uid);
  }

  /** A pruning task writes nothing. */
  lemma PrunesOnly(t: Task)
    requires t.reqs == []
    ensures WritesOf(t) == iset{}
  {
  }

  // ---------- every Sync is in its own scope ----------

  lemma SameVisible(t: Task, a: Obj, b: Obj, k: string)
    requires Visible(a, t.ignored) == Visible(b, t.ignored) && k !in t.ignored
    ensures Get(a, k) == Get(b, k)
  {
    VisibleEqual(a, b, t.ignored);
    assert Lookup(a, k) == Lookup(b, k);
  }

  lemma DNATTaskSettles(n: Names, f: Family, svc: Service, chain: string)
    ensures OwnScope(DNATTask(f, chain, SpreadRules(n, f, svc, chain)))
  {
    hide Visible, Get, SpreadRules, Marked;
    var t := DNATTask(f, chain, SpreadRules(n, f, svc, chain));
    forall j | 0 <= j < |t.reqs| ensures InScope(t, t.reqs[j]) {
      SpreadRulesSay(n, f, svc, chain, j);
    }
    forall a, b | Visible(a, t.ignored) == Visible(b, t.ignored) ensures SameId(t, a, b) {
      SameVisible(t, a, b, AddressField(f));
      SameVisible(t, a, b, "to-ports");
      SameVisible(t, a, b, "protocol");
    }
  }

  lemma PortTaskSettles(n: Names, svc: Service, reqs: seq<Obj>)
    requires PortRequests(n, svc, reqs)
    ensures OwnScope(PortTask(n, svc.uid, reqs))
  {
    hide Visible, Get, Marked, ServiceChain, HasPort, PortRule;
    var t := PortTask(n, svc.uid, reqs);
    forall j | 0 <= j < |t.reqs| ensures InScope(t, t.reqs[j]) {
      assert reqs[j] in reqs;
      var p :| HasPort(svc.endpoints, p) && Balanced(p) && reqs[j] == PortRule(n, svc, p);
      PortRuleSays(n, svc, p);
    }
    forall a, b | Visible(a, t.ignored) == Visible(b, t.ignored) ensures SameId(t, a, b) {
      SameVisible(t, a, b, "dst-port");
      SameVisible(t, a, b, "protocol");
    }
  }

  lemma ServiceTaskSettles(n: Names, f: Family, svc: Service)
    ensures OwnScope(ServiceTask(n, svc.uid, ServiceRules(n, f, svc, svc.lbIPs)))
  {
    hide Visible, Get, Marked, ServiceChain, ServiceRules, ServiceRule;
    var t := ServiceTask(n, svc.uid, ServiceRules(n, f, svc, svc.lbIPs));
    forall j | 0 <= j < |t.reqs| ensures InScope(t, t.reqs[j]) {
      ServiceRulesAre(n, f, svc, svc.lbIPs, t.reqs[j]);
      var ip :| ip in svc.lbIPs && OfFamily(ip, f) && t.reqs[j] == ServiceRule(n, svc, ip);
      ServiceRuleSays(n, svc, ip);
      JumpAction(n, svc, ip);
    }
    forall a, b | Visible(a, t.ignored) == Visible(b, t.ignored) ensures SameId(t, a, b) {
      SameVisible(t, a, b, "dst-address");
    }
  }

  lemma JumpAction(n: Names, svc: Service, ip: Addr)
    ensures Get(ServiceRule(n, svc, ip), "action") == "jump" && Get(ServiceRule(n, svc, ip), "dst-address") == Host(n, ip)
  {
    hide ServiceChain, Host, Comment;
  }

  lemma LBListTaskSettles(n: Names, f: Family, svc: Service)
    ensures OwnScope(LBListTask(n, svc, ListEntries(n, f, svc, LB_LIST, svc.lbIPs)))
  {
    hide Visible, Get, HasPrefix, Contains, BeforeSlash, ListEntries, ListEntry;
    var t := LBListTask(n, svc, ListEntries(n, f, svc, LB_LIST, svc.lbIPs));
    forall j | 0 <= j < |t.reqs| ensures InScope(t, t.reqs[j]) {
      ListEntriesAre(n, f, svc, LB_LIST, svc.lbIPs, t.reqs[j]);
      var ip :| ip in svc.lbIPs && OfFamily(ip, f) && t.reqs[j] == ListEntry(n, svc, LB_LIST, ip);
      ListEntrySays(n, svc, LB_LIST, ip);
    }
    forall a, b | Visible(a, t.ignored) == Visible(b, t.ignored) ensures t.filter(a) == t.filter(b) && SameId(t, a, b) {
      SameVisible(t, a, b, "address");
      SameVisible(t, a, b, "comment");
    }
  }

  lemma SNATTaskSettles(n: Names, f: Family, svc: Service)
    ensures OwnScope(SNATTask(n, f, svc.uid, SNATRules(n, f, svc))) && DistinctRequests(SNATTask(n, f, svc.uid, SNATRules(n, f, svc)))
  {
    hide Visible, Get, SourceList, SNATRule, Marked;
    var t := SNATTask(n, f, svc.uid, SNATRules(n, f, svc));
    SNATRuleSays(n, f, svc);
    forall a, b | Visible(a, t.ignored) == Visible(b, t.ignored) ensures SameId(t, a, b) {
      SameVisible(t, a, b, AddressField(f));
    }
  }

  lemma SourceTaskSettles(n: Names, f: Family, svc: Service)
    ensures OwnScope(SourceListTask(n, svc.uid, SourceEntries(n, f, svc, svc.endpoints)))
  {
    hide Visible, Get, SourceList, SourceEntries, ListEntry, Marked;
    var list := SourceList(n, svc.uid);
    var t := SourceListTask(n, svc.uid, SourceEntries(n, f, svc, svc.endpoints));
    forall j | 0 <= j < |t.reqs| ensures InScope(t, t.reqs[j]) {
      SourceEntriesAre(n, f, svc, svc.endpoints, t.reqs[j]);
      var i, ip :| 0 <= i < |svc.endpoints| && ip in svc.endpoints[i].ips && OfFamily(ip, f) && t.reqs[j] == ListEntry(n, svc, list, ip);
      ListEntrySays(n, svc, list, ip);
    }
    forall a, b | Visible(a, t.ignored) == Visible(b, t.ignored) ensures SameId(t, a, b) {
      SameVisible(t, a, b, "address");
    }
  }

  lemma PortRuleId(n: Names, svc: Service, p: Port)
    ensures Get(PortRule(n, svc, p), "dst-port") == Decimal(p.port) && Get(PortRule(n, svc, p), "protocol") == Lower(p.protocol)
  {
    hide Decimal, PortChain, ServiceChain, Comment, PortText, Lower;
  }

  /** The ids of port rules tell them apart. */
  lemma PortIdsDistinct(n: Names, svc: Service, p: Port, q: Port)
    requires Balanced(p) && Balanced(q)
    requires Decimal(p.port) + "/" + Lower(p.protocol) == Decimal(q.port) + "/" + Lower(q.protocol)
    ensures PortRule(n, svc, p) == PortRule(n, svc, q)
  {
    hide Decimal;
    NumeralEnds(p.port, q.port, '/', Lower(p.protocol), Lower(q.protocol));
    assert "tcp"[0] != "udp"[0];
  }

  lemma PortRequestsDistinct(n: Names, svc: Service, reqs: seq<Obj>)
    requires PortRequests(n, svc, reqs)
    ensures DistinctRequests(PortTask(n, svc.uid, reqs))
  {
    hide Decimal, PortRule, HasPort, Lower, Balanced, ServiceChain;
    var t := PortTask(n, svc.uid, reqs);
    forall i, j | 0 <= i < j < |reqs| ensures !SameId(t, reqs[i], reqs[j]) {
      assert reqs[i] in reqs && reqs[j] in reqs;
      var p :| HasPort(svc.endpoints, p) && Balanced(p) && reqs[i] == PortRule(n, svc, p);
      var q :| HasPort(svc.endpoints, q) && Balanced(q) && reqs[j] == PortRule(n, svc, q);
      PortRuleId(n, svc, p);
      PortRuleId(n, svc, q);
      if SameId(t, reqs[i], reqs[j]) { PortIdsDistinct(n, svc, p, q); }
    }
  }

  /** What makes an object the one of a request: address, port and protocol of a target, port and protocol of a service
      port, and the address of everything else. Other fields, the comment among them, are changed in place. */
  lemma KeysAreIds(n: Names, f: Family, svc: Service, chain: string, reqs: seq<Obj>, o: Obj, req: Obj)
    ensures var field := if f == V4 then "to-addresses" else "to-address";
            && (Get(o, field) == Get(req, field) && Get(o, "to-ports") == Get(req, "to-ports") && Get(o, "protocol") == Get(req, "protocol") ==>
                  SameId(DNATTask(f, chain, reqs), o, req))
            && (Get(o, field) == Get(req, field) ==> SameId(SNATTask(n, f, svc.uid, reqs), o, req))
    ensures Get(o, "dst-port") == Get(req, "dst-port") && Get(o, "protocol") == Get(req, "protocol") ==> SameId(PortTask(n, svc.uid, reqs), o, req)
    ensures Get(o, "dst-address") == Get(req, "dst-address") ==> SameId(ServiceTask(n, svc.uid, reqs), o, req)
    ensures Get(o, "address") == Get(req, "address") ==>
              SameId(LBListTask(n, svc, reqs), o, req) && SameId(SourceListTask(n, svc.uid, reqs), o, req)
  {
    hide Get, ServiceChain, SourceList;
  }

  lemma ConnectionTaskSettles()
    ensures OwnScope(ConnectionTask()) && DistinctRequests(ConnectionTask())
  {
  }

  lemma SourceJumpTaskSettles()
    ensures OwnScope(SourceJumpTask()) && DistinctRequests(SourceJumpTask())
  {
  }

  /** So is a Sync that only prunes. */
  lemma PruneSettles(t: Task)
    requires t.reqs == [] && t.ignored == {}
    ensures OwnScope(t) && DistinctRequests(t)
  {
    forall a, b | Visible(a, t.ignored) == Visible(b, t.ignored) ensures a == b {
      assert Visible(a, t.ignored) == a && Visible(b, t.ignored) == b;
    }
  }
}
