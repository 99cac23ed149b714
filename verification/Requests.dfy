/** The loops that build the backend's requests. */
module Requests {
  import opened Net
  import opened Router
  import opened Services
  import opened Programs

  type Groups = map<string, seq<Obj>>

  function GroupAt(groups: Groups, chain: string): seq<Obj> {
    if chain in groups then groups[chain] else []
  }

  /** The groups are the rules by chain, each in order. */
  ghost predicate Grouped(groups: Groups, rules: seq<Obj>) {
    && (forall chain :: GroupAt(groups, chain) == InChain(rules, chain))
    && (forall chain :: chain in groups ==> groups[chain] != [])
  }

  lemma GroupedNext(groups: Groups, rules: seq<Obj>, chain: string, o: Obj)
    requires Grouped(groups, rules) && Get(o, "chain") == chain
    ensures Grouped(groups[chain := GroupAt(groups, chain) + [o]], rules + [o])
  {
    hide Get;
    var groups' := groups[chain := GroupAt(groups, chain) + [o]];
    assert (rules + [o])[..|rules|] == rules;
    forall c ensures GroupAt(groups', c) == InChain(rules + [o], c) {
      assert GroupAt(groups, c) == InChain(rules, c);
    }
  }

  method GroupIPs(n: Names, f: Family, svc: Service, p: Port, ips: seq<Addr>, before: Groups, ghost rules: seq<Obj>) returns (groups: Groups)
    requires Grouped(before, rules)
    ensures Grouped(groups, rules + IPRules(n, f, svc, p, ips))
  {
    hide Grouped, DNATRule, GroupAt;
    var chain := PortChain(n, svc.uid, p);
    groups := before;
    assert rules + [] == rules;
    for i := 0 to |ips|
      invariant Grouped(groups, rules + IPRules(n, f, svc, p, ips[..i]))
    {
      assert ips[..i + 1][..i] == ips[..i];
      if !OfFamily(ips[i], f) {
        assert rules + IPRules(n, f, svc, p, ips[..i + 1]) == rules + IPRules(n, f, svc, p, ips[..i]);
        continue;
      }
      var req := DNATRule(n, f, svc, p, ips[i]);
      RuleChain(n, f, svc, p, ips[i]);
      GroupedNext(groups, rules + IPRules(n, f, svc, p, ips[..i]), chain, req);
      assert rules + IPRules(n, f, svc, p, ips[..i + 1]) == rules + IPRules(n, f, svc, p, ips[..i]) + [req];
      groups := groups[chain := GroupAt(groups, chain) + [req]];
    }
    assert ips[..|ips|] == ips;
  }

  lemma RuleChain(n: Names, f: Family, svc: Service, p: Port, ip: Addr)
    ensures Get(DNATRule(n, f, svc, p, ip), "chain") == PortChain(n, svc.uid, p)
  {
    hide PortChain, Host, Decimal, Comment;
  }

  method GroupPorts(n: Names, f: Family, svc: Service, ep: Endpoint, before: Groups, ghost rules: seq<Obj>) returns (groups: Groups)
    requires Grouped(before, rules)
    ensures Grouped(groups, rules + PortsRules(n, f, svc, ep.ips, ep.ports))
  {
    hide Grouped, IPRules;
    groups := before;
    assert rules + [] == rules;
    for i := 0 to |ep.ports|
      invariant Grouped(groups, rules + PortsRules(n, f, svc, ep.ips, ep.ports[..i]))
    {
      assert ep.ports[..i + 1][..i] == ep.ports[..i];
      ghost var sofar := rules + PortsRules(n, f, svc, ep.ips, ep.ports[..i]);
      if !Balanced(ep.ports[i]) {
        assert rules + PortsRules(n, f, svc, ep.ips, ep.ports[..i + 1]) == sofar;
        continue;
      }
      groups := GroupIPs(n, f, svc, ep.ports[i], ep.ips, groups, sofar);
      assert rules + PortsRules(n, f, svc, ep.ips, ep.ports[..i + 1]) == sofar + IPRules(n, f, svc, ep.ports[i], ep.ips);
    }
    assert ep.ports[..|ep.ports|] == ep.ports;
  }

  lemma NothingGrouped()
    ensures Grouped(map[], [])
  {
  }

  /** The destination NAT rules of all endpoints, by port chain. */
  method GroupEndpoints(n: Names, f: Family, svc: Service) returns (groups: Groups)
    ensures Grouped(groups, EndpointsRules(n, f, svc, svc.endpoints))
  {
    hide Grouped, PortsRules;
    groups := map[];
    NothingGrouped();
    var eps := svc.endpoints;
    for i := 0 to |eps|
      invariant Grouped(groups, EndpointsRules(n, f, svc, eps[..i]))
    {
      assert eps[..i + 1][..i] == eps[..i];
      groups := GroupPorts(n, f, svc, eps[i], groups, EndpointsRules(n, f, svc, eps[..i]));
    }
    assert eps[..|eps|] == eps;
  }

  /** The inner loop of the round-robin: every rule but the last gets its share. */
  method Distribute(reqs: seq<Obj>) returns (s: seq<Obj>)
    ensures s == Distributed(reqs)
  {
    s := reqs;
    for i := 0 to |reqs|
      invariant |s| == |reqs|
      invariant forall k :: 0 <= k < i ==> s[k] == WithShare(reqs, k)
      invariant forall k :: i <= k < |reqs| ==> s[k] == reqs[k]
    {
      if i + 1 < |reqs| {
        s := s[i := s[i]["nth" := Decimal(|reqs|) + "," + Decimal(i + 1)]];
      }
    }
  }

  method DistributeAll(groups: Groups) returns (spread: Groups)
    ensures spread.Keys == groups.Keys && forall chain :: chain in groups ==> spread[chain] == Distributed(groups[chain])
  {
    hide Distributed;
    spread := map[];
    var todo := groups.Keys;
    while todo != {}
      invariant todo <= groups.Keys && spread.Keys == groups.Keys - todo
      invariant forall chain :: chain in spread ==> spread[chain] == Distributed(groups[chain])
      decreases |todo|
    {
      var chain :| chain in todo;
      todo := todo - {chain};
      var reqs := Distribute(groups[chain]);
      spread := spread[chain := reqs];
    }
  }

  /** The requests of ensureLBServicePortDNATRules: for every chain with a rule, its distributed rules. */
  method SpreadRequests(n: Names, f: Family, svc: Service) returns (spread: Groups)
    ensures forall chain :: chain in spread <==> InChain(EndpointsRules(n, f, svc, svc.endpoints), chain) != []
    ensures forall chain :: chain in spread ==> spread[chain] == SpreadRules(n, f, svc, chain)
  {
    hide EndpointsRules, InChain, Distributed;
    var groups := GroupEndpoints(n, f, svc);
    spread := DistributeAll(groups);
    forall chain ensures chain in spread <==> InChain(EndpointsRules(n, f, svc, svc.endpoints), chain) != [] {
      assert GroupAt(groups, chain) == InChain(EndpointsRules(n, f, svc, svc.endpoints), chain);
    }
    forall chain | chain in spread ensures spread[chain] == SpreadRules(n, f, svc, chain) {
      assert GroupAt(groups, chain) == InChain(EndpointsRules(n, f, svc, svc.endpoints), chain);
    }
  }

  // ---------- port rules ----------

  /** The rules by key are those of the ports seen. */
  ghost predicate Collected(n: Names, svc: Service, byPort: map<string, Obj>, chains: set<string>, seen: set<Port>) {
    && (forall k :: k in byPort ==> exists p :: p in seen && PortKey(p) == k && byPort[k] == PortRule(n, svc, p))
    && (forall p :: p in seen ==> PortKey(p) in byPort)
    && (forall c :: c in chains <==> exists p :: p in seen && PortChain(n, svc.uid, p) == c)
  }

  lemma SameKey(n: Names, svc: Service, p: Port, q: Port)
    requires PortKey(p) == PortKey(q)
    ensures PortRule(n, svc, p) == PortRule(n, svc, q) && PortChain(n, svc.uid, p) == PortChain(n, svc.uid, q)
  {
    PortKeyInjective(p, q);
  }

  lemma CollectedAgain(n: Names, svc: Service, byPort: map<string, Obj>, chains: set<string>, seen: set<Port>, p: Port)
    requires Collected(n, svc, byPort, chains, seen) && PortKey(p) in byPort
    ensures Collected(n, svc, byPort, chains, seen + {p})
  {
    hide PortKey, PortRule, PortChain;
    var q :| q in seen && PortKey(q) == PortKey(p);
    SameKey(n, svc, p, q);
  }

  lemma CollectedNext(n: Names, svc: Service, byPort: map<string, Obj>, chains: set<string>, seen: set<Port>, p: Port)
    requires Collected(n, svc, byPort, chains, seen)
    ensures Collected(n, svc, byPort[PortKey(p) := PortRule(n, svc, p)], chains + {PortChain(n, svc.uid, p)}, seen + {p})
  {
    hide PortKey, PortRule, PortChain;
  }

  function BalancedOnly(ports: seq<Port>): set<Port> {
    set p | p in ports && Balanced(p)
  }

  method CollectPorts(n: Names, svc: Service, ports: seq<Port>, byPort0: map<string, Obj>, chains0: set<string>, ghost seen: set<Port>)
    returns (byPort: map<string, Obj>, chains: set<string>)
    requires Collected(n, svc, byPort0, chains0, seen)
    ensures Collected(n, svc, byPort, chains, seen + BalancedOnly(ports))
  {
    hide Collected, PortKey, PortRule, PortChain;
    byPort, chains := byPort0, chains0;
    assert seen + BalancedOnly([]) == seen;
    for i := 0 to |ports|
      invariant Collected(n, svc, byPort, chains, seen + BalancedOnly(ports[..i]))
    {
      assert ports[..i + 1] == ports[..i] + [ports[i]];
      if !Balanced(ports[i]) {
        assert BalancedOnly(ports[..i + 1]) == BalancedOnly(ports[..i]);
        continue;
      }
      assert seen + BalancedOnly(ports[..i + 1]) == seen + BalancedOnly(ports[..i]) + {ports[i]};
      var key := PortKey(ports[i]);
      if key in byPort {
        CollectedAgain(n, svc, byPort, chains, seen + BalancedOnly(ports[..i]), ports[i]);
        continue;
      }
      CollectedNext(n, svc, byPort, chains, seen + BalancedOnly(ports[..i]), ports[i]);
      byPort := byPort[key := PortRule(n, svc, ports[i])];
      chains := chains + {PortChain(n, svc.uid, ports[i])};
    }
    assert ports[..|ports|] == ports;
  }

  ghost function AllPorts(eps: seq<Endpoint>): set<Port> {
    if eps == [] then {} else AllPorts(eps[..|eps| - 1]) + BalancedOnly(eps[|eps| - 1].ports)
  }

  lemma {:induction false} AllPortsAre(eps: seq<Endpoint>, p: Port)
    ensures p in AllPorts(eps) <==> HasPort(eps, p) && Balanced(p)
  {
    if eps != [] {
      var k := |eps| - 1;
      AllPortsAre(eps[..k], p);
      if i :| 0 <= i < |eps| && p in eps[i].ports {
        if i < k { assert p in eps[..k][i].ports; }
      }
      if i :| 0 <= i < k && p in eps[..k][i].ports { assert p in eps[i].ports; }
    }
  }

  lemma NothingCollected(n: Names, svc: Service)
    ensures Collected(n, svc, map[], {}, {})
  {
  }

  method CollectEndpoints(n: Names, svc: Service) returns (byPort: map<string, Obj>, chains: set<string>)
    ensures Collected(n, svc, byPort, chains, AllPorts(svc.endpoints))
  {
    hide Collected;
    byPort, chains := map[], {};
    NothingCollected(n, svc);
    var eps := svc.endpoints;
    for i := 0 to |eps|
      invariant Collected(n, svc, byPort, chains, AllPorts(eps[..i]))
    {
      assert eps[..i + 1][..i] == eps[..i];
      byPort, chains := CollectPorts(n, svc, eps[i].ports, byPort, chains, AllPorts(eps[..i]));
    }
    assert eps[..|eps|] == eps;
  }

  ghost predicate Injective(m: map<string, Obj>) {
    forall k, l :: k in m && l in m && m[k] == m[l] ==> k == l
  }

  /** The values of a map, in any order; each once if the map is injective. */
  method ValuesOf(m: map<string, Obj>) returns (s: seq<Obj>)
    ensures forall o :: o in s <==> exists k :: k in m && m[k] == o
    ensures Injective(m) ==> NoneTwice(s)
  {
    s := [];
    var todo := m.Keys;
    while todo != {}
      invariant todo <= m.Keys
      invariant forall o :: o in s <==> exists k :: k in m && k !in todo && m[k] == o
      invariant Injective(m) ==> NoneTwice(s)
      decreases |todo|
    {
      var k :| k in todo;
      ghost var s0, todo0 := s, todo;
      assert Injective(m) ==> m[k] !in s;
      todo := todo - {k};
      s := s + [m[k]];
      forall o ensures o in s <==> exists k' :: k' in m && k' !in todo && m[k'] == o {
        assert o in s <==> o in s0 || o == m[k];
        if k' :| k' in m && k' !in todo && m[k'] == o { assert k' == k || k' !in todo0; }
      }
    }
  }

  /** Two ports with the same rule have the same key. */
  lemma SameRule(n: Names, svc: Service, p: Port, q: Port)
    requires Balanced(p) && Balanced(q) && PortRule(n, svc, p) == PortRule(n, svc, q)
    ensures PortKey(p) == PortKey(q)
  {
    hide Decimal, PortChain, ServiceChain, Comment, PortText;
    assert PortRule(n, svc, p)["dst-port"] == Decimal(p.port) && PortRule(n, svc, q)["dst-port"] == Decimal(q.port);
    assert PortRule(n, svc, p)["protocol"] == Lower(p.protocol) && PortRule(n, svc, q)["protocol"] == Lower(q.protocol);
    assert "tcp"[0] != "udp"[0];
    DecimalInjective(p.port, q.port);
  }

  lemma CollectedInjective(n: Names, svc: Service, byPort: map<string, Obj>, chains: set<string>, seen: set<Port>)
    requires Collected(n, svc, byPort, chains, seen) && forall p :: p in seen ==> Balanced(p)
    ensures Injective(byPort)
  {
    hide PortKey, PortRule, PortChain, Balanced;
    forall k, l | k in byPort && l in byPort && byPort[k] == byPort[l] ensures k == l {
      var p :| p in seen && PortKey(p) == k && byPort[k] == PortRule(n, svc, p);
      var q :| q in seen && PortKey(q) == l && byPort[l] == PortRule(n, svc, q);
      SameRule(n, svc, p, q);
    }
  }

  /** The requests of ensureLBServicePortRules, and the chains they jump to. */
  method PortRequestsOf(n: Names, svc: Service) returns (reqs: seq<Obj>, chains: set<string>)
    ensures PortRequests(n, svc, reqs)
    ensures forall c :: c in chains <==> exists p :: HasPort(svc.endpoints, p) && Balanced(p) && PortChain(n, svc.uid, p) == c
  {
    hide PortKey, PortRule, PortChain, HasPort, AllPorts, Injective, NoneTwice, Balanced;
    var byPort;
    byPort, chains := CollectEndpoints(n, svc);
    reqs := ValuesOf(byPort);
    forall p ensures p in AllPorts(svc.endpoints) <==> HasPort(svc.endpoints, p) && Balanced(p) {
      AllPortsAre(svc.endpoints, p);
    }
    CollectedInjective(n, svc, byPort, chains, AllPorts(svc.endpoints));
    forall p | p in AllPorts(svc.endpoints) ensures PortRule(n, svc, p) in reqs {
      var q :| q in AllPorts(svc.endpoints) && PortKey(q) == PortKey(p) && byPort[PortKey(p)] == PortRule(n, svc, q);
      SameKey(n, svc, p, q);
    }
  }

  // ---------- the simpler lists ----------

  method ServiceRequests(n: Names, f: Family, svc: Service) returns (reqs: seq<Obj>)
    ensures reqs == ServiceRules(n, f, svc, svc.lbIPs)
  {
    hide ServiceRule;
    reqs := [];
    for i := 0 to |svc.lbIPs|
      invariant reqs == ServiceRules(n, f, svc, svc.lbIPs[..i])
    {
      assert svc.lbIPs[..i + 1][..i] == svc.lbIPs[..i];
      if !OfFamily(svc.lbIPs[i], f) {
        continue;
      }
      reqs := reqs + [ServiceRule(n, svc, svc.lbIPs[i])];
    }
    assert svc.lbIPs[..|svc.lbIPs|] == svc.lbIPs;
  }

  method ListRequests(n: Names, f: Family, svc: Service, list: string, ips: seq<Addr>) returns (reqs: seq<Obj>)
    ensures reqs == ListEntries(n, f, svc, list, ips)
  {
    hide ListEntry;
    reqs := [];
    for i := 0 to |ips|
      invariant reqs == ListEntries(n, f, svc, list, ips[..i])
    {
      assert ips[..i + 1][..i] == ips[..i];
      if !OfFamily(ips[i], f) {
        continue;
      }
      reqs := reqs + [ListEntry(n, svc, list, ips[i])];
    }
    assert ips[..|ips|] == ips;
  }

  method SourceRequests(n: Names, f: Family, svc: Service) returns (reqs: seq<Obj>)
    ensures reqs == SourceEntries(n, f, svc, svc.endpoints)
  {
    hide ListEntries;
    reqs := [];
    var eps := svc.endpoints;
    for i := 0 to |eps|
      invariant reqs == SourceEntries(n, f, svc, eps[..i])
    {
      assert eps[..i + 1][..i] == eps[..i];
      var more := ListRequests(n, f, svc, SourceList(n, svc.uid), eps[i].ips);
      reqs := reqs + more;
    }
    assert eps[..|eps|] == eps;
  }
}
