/** Repeating EnsureService: when the Syncs of a service, and EnsureService as a whole, have nothing to do any more. */
module Settling {
  import opened Net
  import opened Router
  import opened Matching
  import opened Syncing
  import opened Services
  import opened Programs
  import opened Tasks
  import opened Backend

  // ---------- ports ----------

  /** Ensured again, the port rules never cause a call but the listing. */
  lemma PortRulesSettle(n: Names, svc: Service, reqs: seq<Obj>, before: Table, after: Table, results: seq<Obj>, seen: seq<Obj>,
                        next: nat, path: string)
    requires PortRequests(n, svc, reqs) && TableOk(after, next)
    requires var t := PortTask(n, svc.uid, reqs); Converged(before, after, t, results) && Shown(after, t.query, seen)
    ensures PlannedCalls(path, Plan(PortTask(n, svc.uid, reqs), seen)) == []
  {
    hide PortRequests, TableOk, Converged, Shown, OwnScope, DistinctRequests, Plan, PlannedCalls;
    PortTaskSettles(n, svc, reqs);
    PortRequestsDistinct(n, svc, reqs);
    SecondSyncIsSilentIff(PortTask(n, svc.uid, reqs), before, after, results, seen, next, path);
  }

  // ---------- endpoints of a port ----------

  predicate SamePort(p: Port, q: Port) {
    p.port == q.port && p.protocol == q.protocol
  }

  /** Where the packets of a port go: the addresses of a family with the target port, as the endpoints list them. */
  function IPTargets(f: Family, ips: seq<Addr>, target: nat): seq<(Addr, nat)> {
    if ips == [] then []
    else
      var k := |ips| - 1;
      IPTargets(f, ips[..k], target) + if OfFamily(ips[k], f) then [(ips[k], target)] else []
  }

  function PortsTargets(f: Family, ips: seq<Addr>, ports: seq<Port>, p: Port): seq<(Addr, nat)> {
    if ports == [] then []
    else
      var k := |ports| - 1;
      PortsTargets(f, ips, ports[..k], p) + if SamePort(ports[k], p) then IPTargets(f, ips, ports[k].targetPort) else []
  }

  function Targets(f: Family, eps: seq<Endpoint>, p: Port): seq<(Addr, nat)> {
    if eps == [] then []
    else
      var k := |eps| - 1;
      Targets(f, eps[..k], p) + PortsTargets(f, eps[k].ips, eps[k].ports, p)
  }

  /** The rule translates the port's packets to the target. */
  predicate GoesTo(n: Names, f: Family, o: Obj, p: Port, target: (Addr, nat)) {
    && Get(o, AddressField(f)) == Host(n, target.0) && Get(o, "to-ports") == Decimal(target.1)
    && Get(o, "protocol") == Lower(p.protocol)
  }

  ghost predicate GoTo(n: Names, f: Family, rules: seq<Obj>, p: Port, targets: seq<(Addr, nat)>) {
    |rules| == |targets| && forall k :: 0 <= k < |rules| ==> GoesTo(n, f, rules[k], p, targets[k])
  }

  lemma GoToMore(n: Names, f: Family, a: seq<Obj>, b: seq<Obj>, p: Port, s: seq<(Addr, nat)>, t: seq<(Addr, nat)>)
    requires GoTo(n, f, a, p, s) && GoTo(n, f, b, p, t)
    ensures GoTo(n, f, a + b, p, s + t)
  {
    hide GoesTo;
  }

  lemma {:induction false} InChainAppend(a: seq<Obj>, b: seq<Obj>, chain: string)
    ensures InChain(a + b, chain) == InChain(a, chain) + InChain(b, chain)
  {
    hide Get;
    if b == [] {
      assert a + b == a;
    } else {
      var k := |b| - 1;
      assert (a + b)[..|a + b| - 1] == a + b[..k];
      InChainAppend(a, b[..k], chain);
    }
  }

  lemma RuleGoesTo(n: Names, f: Family, svc: Service, q: Port, ip: Addr)
    ensures GoesTo(n, f, DNATRule(n, f, svc, q, ip), q, (ip, q.targetPort))
    ensures Get(DNATRule(n, f, svc, q, ip), "chain") == PortChain(n, svc.uid, q)
  {
    hide PortChain, Host, Decimal, Comment, PortText, AddrPortText, Lower;
  }

  lemma {:induction false} IPRulesInChain(n: Names, f: Family, svc: Service, q: Port, ips: seq<Addr>, c: string)
    ensures InChain(IPRules(n, f, svc, q, ips), c) == if c == PortChain(n, svc.uid, q) then IPRules(n, f, svc, q, ips) else []
  {
    hide DNATRule, PortChain, Get;
    if ips != [] {
      var k := |ips| - 1;
      IPRulesInChain(n, f, svc, q, ips[..k], c);
      var tail := if OfFamily(ips[k], f) then [DNATRule(n, f, svc, q, ips[k])] else [];
      InChainAppend(IPRules(n, f, svc, q, ips[..k]), tail, c);
      RuleGoesTo(n, f, svc, q, ips[k]);
      OneInChain(DNATRule(n, f, svc, q, ips[k]), c);
    }
  }

  lemma OneInChain(o: Obj, c: string)
    ensures InChain([o], c) == (if Get(o, "chain") == c then [o] else []) && InChain([], c) == []
  {
    hide Get;
    assert [o][..0] == [];
  }

  lemma {:induction false} IPRulesGo(n: Names, f: Family, svc: Service, q: Port, ips: seq<Addr>)
    ensures GoTo(n, f, IPRules(n, f, svc, q, ips), q, IPTargets(f, ips, q.targetPort))
  {
    hide DNATRule, GoesTo, PortChain;
    if ips != [] {
      var k := |ips| - 1;
      IPRulesGo(n, f, svc, q, ips[..k]);
      RuleGoesTo(n, f, svc, q, ips[k]);
    }
  }

  lemma SamePortGoes(n: Names, f: Family, rules: seq<Obj>, p: Port, q: Port, targets: seq<(Addr, nat)>)
    requires GoTo(n, f, rules, q, targets) && SamePort(p, q)
    ensures GoTo(n, f, rules, p, targets)
  {
  }

  /** A port's chain holds the rules of its ports, those of others stay out. */
  lemma {:induction false} PortsRulesGo(n: Names, f: Family, svc: Service, ips: seq<Addr>, ports: seq<Port>, p: Port)
    requires Sound(n) && Balanced(p)
    ensures GoTo(n, f, InChain(PortsRules(n, f, svc, ips, ports), PortChain(n, svc.uid, p)), p, PortsTargets(f, ips, ports, p))
  {
    hide Sound, IPRules, IPTargets, GoTo, PortChain, InChain;
    if ports == [] {
      NothingGoes(n, f, p, PortChain(n, svc.uid, p));
    } else {
      var k := |ports| - 1;
      PortsRulesGo(n, f, svc, ips, ports[..k], p);
      var q := ports[k];
      var more := if Balanced(q) then IPRules(n, f, svc, q, ips) else [];
      InChainAppend(PortsRules(n, f, svc, ips, ports[..k]), more, PortChain(n, svc.uid, p));
      NothingGoes(n, f, p, PortChain(n, svc.uid, p));
      IPRulesGo(n, f, svc, q, ips);
      IPRulesInChain(n, f, svc, q, ips, PortChain(n, svc.uid, p));
      if SamePort(q, p) {
        SamePortSameChain(n, svc.uid, p, q);
        SamePortGoes(n, f, IPRules(n, f, svc, q, ips), p, q, IPTargets(f, ips, q.targetPort));
      } else if Balanced(q) && PortChain(n, svc.uid, q) == PortChain(n, svc.uid, p) {
        PortChainsDistinct(n, svc.uid, svc.uid, q, p);
      }
      GoToMore(n, f, InChain(PortsRules(n, f, svc, ips, ports[..k]), PortChain(n, svc.uid, p)), InChain(more, PortChain(n, svc.uid, p)), p,
               PortsTargets(f, ips, ports[..k], p), if SamePort(q, p) then IPTargets(f, ips, q.targetPort) else []);
    }
  }

  lemma NothingGoes(n: Names, f: Family, p: Port, chain: string)
    ensures GoTo(n, f, InChain([], chain), p, []) && InChain([], chain) == []
  {
  }

  lemma {:induction false} EndpointsRulesGo(n: Names, f: Family, svc: Service, eps: seq<Endpoint>, p: Port)
    requires Sound(n) && Balanced(p)
    ensures GoTo(n, f, InChain(EndpointsRules(n, f, svc, eps), PortChain(n, svc.uid, p)), p, Targets(f, eps, p))
  {
    hide Sound, PortsRules, PortsTargets, GoTo, PortChain, InChain;
    var chain := PortChain(n, svc.uid, p);
    if eps == [] {
      NothingGoes(n, f, p, chain);
    } else {
      var k := |eps| - 1;
      EndpointsRulesGo(n, f, svc, eps[..k], p);
      PortsRulesGo(n, f, svc, eps[k].ips, eps[k].ports, p);
      var front, last := EndpointsRules(n, f, svc, eps[..k]), PortsRules(n, f, svc, eps[k].ips, eps[k].ports);
      InChainAppend(front, last, chain);
      GoToMore(n, f, InChain(front, chain), InChain(last, chain), p, Targets(f, eps[..k], p), PortsTargets(f, eps[k].ips, eps[k].ports, p));
    }
  }

  lemma {:induction false} TargetsOffered(f: Family, eps: seq<Endpoint>, p: Port, x: (Addr, nat))
    requires x in Targets(f, eps, p)
    ensures exists i :: 0 <= i < |eps| && x.0 in eps[i].ips
  {
    hide PortsTargets;
    var k := |eps| - 1;
    if x in Targets(f, eps[..k], p) {
      TargetsOffered(f, eps[..k], p, x);
      var i :| 0 <= i < k && x.0 in eps[..k][i].ips;
      assert x.0 in eps[i].ips;
    } else {
      PortsTargetsOffered(f, eps[k].ips, eps[k].ports, p, x);
    }
  }

  lemma {:induction false} PortsTargetsOffered(f: Family, ips: seq<Addr>, ports: seq<Port>, p: Port, x: (Addr, nat))
    requires x in PortsTargets(f, ips, ports, p)
    ensures x.0 in ips
  {
    hide IPTargets;
    var k := |ports| - 1;
    if x in PortsTargets(f, ips, ports[..k], p) {
      PortsTargetsOffered(f, ips, ports[..k], p, x);
    } else {
      IPTargetsOffered(f, ips, ports[k].targetPort, x);
    }
  }

  lemma {:induction false} IPTargetsOffered(f: Family, ips: seq<Addr>, target: nat, x: (Addr, nat))
    requires x in IPTargets(f, ips, target)
    ensures x.0 in ips
  {
    var k := |ips| - 1;
    if x in IPTargets(f, ips[..k], target) { IPTargetsOffered(f, ips[..k], target, x); }
  }

  /** Equal ids of one port's rules mean equal targets. */
  lemma TargetIds(n: Names, x: (Addr, nat), y: (Addr, nat), protocol: string)
    requires Sound(n) && IsValid(x.0) && IsValid(y.0)
    requires "[" + Host(n, x.0) + "]:" + Decimal(x.1) + "/" + protocol == "[" + Host(n, y.0) + "]:" + Decimal(y.1) + "/" + protocol
    ensures x == y
  {
    hide Sound, Host, Decimal, IsValid;
    var a, b := "[" + Host(n, x.0) + "]", "[" + Host(n, y.0) + "]";
    var s, t := a + ":" + Decimal(x.1), b + ":" + Decimal(y.1);
    assert s + ("/" + protocol) == t + ("/" + protocol) by {
      assert "[" + Host(n, x.0) + "]:" + Decimal(x.1) + "/" + protocol == s + ("/" + protocol);
      assert "[" + Host(n, y.0) + "]:" + Decimal(y.1) + "/" + protocol == t + ("/" + protocol);
    }
    SamePrefix(s, t, "/" + protocol);
    NumeralStarts(a, b, ':', x.1, y.1);
    assert a[1..|a| - 1] == Host(n, x.0) && b[1..|b| - 1] == Host(n, y.0);
    HostInjective(n, x.0, y.0);
  }

  lemma SamePrefix(s: string, t: string, end: string)
    requires s + end == t + end
    ensures s == t
  {
    assert |s| == |t|;
    assert (s + end)[..|s|] == s && (t + end)[..|t|] == t;
  }

  lemma SpreadId(n: Names, f: Family, svc: Service, p: Port, j: nat)
    requires Sound(n) && Balanced(p) && j < |SpreadRules(n, f, svc, PortChain(n, svc.uid, p))|
    ensures |SpreadRules(n, f, svc, PortChain(n, svc.uid, p))| == |Targets(f, svc.endpoints, p)|
    ensures var x := Targets(f, svc.endpoints, p)[j];
            PortsId(f)(SpreadRules(n, f, svc, PortChain(n, svc.uid, p))[j]) ==
            "[" + Host(n, x.0) + "]:" + Decimal(x.1) + "/" + Lower(p.protocol)
  {
    hide Sound, PortChain, EndpointsRules, InChain, Host, Decimal, Lower, Targets;
    EndpointsRulesGo(n, f, svc, svc.endpoints, p);
    var plain := InChain(EndpointsRules(n, f, svc, svc.endpoints), PortChain(n, svc.uid, p))[j];
    assert GoesTo(n, f, plain, p, Targets(f, svc.endpoints, p)[j]);
  }

  lemma SpreadDistinct(n: Names, f: Family, svc: Service, p: Port)
    requires Sound(n) && Balanced(p) && ValidEndpoints(svc)
    requires SpreadRules(n, f, svc, PortChain(n, svc.uid, p)) != []
    ensures DistinctRequests(DNATTask(f, PortChain(n, svc.uid, p), SpreadRules(n, f, svc, PortChain(n, svc.uid, p)))) <==>
            NoneTwice(Targets(f, svc.endpoints, p))
  {
    hide Sound, PortChain, SpreadRules, PortsId, Host, Decimal, Lower, Targets, IsValid;
    var chain, targets := PortChain(n, svc.uid, p), Targets(f, svc.endpoints, p);
    var t := DNATTask(f, chain, SpreadRules(n, f, svc, chain));
    SpreadId(n, f, svc, p, 0);
    forall i, j | 0 <= i < j < |targets| ensures SameId(t, t.reqs[i], t.reqs[j]) <==> targets[i] == targets[j] {
      SpreadId(n, f, svc, p, i);
      SpreadId(n, f, svc, p, j);
      TargetsOffered(f, svc.endpoints, p, targets[i]);
      TargetsOffered(f, svc.endpoints, p, targets[j]);
      if SameId(t, t.reqs[i], t.reqs[j]) { TargetIds(n, targets[i], targets[j], Lower(p.protocol)); }
    }
  }

  /** Ensured again, a port's destination NAT rules cause no call but the listing, exactly if no pair of address and
      target port is listed twice among the endpoints of the port. */
  lemma DNATSettlesIff(n: Names, f: Family, svc: Service, p: Port, before: Table, after: Table, results: seq<Obj>, seen: seq<Obj>,
                       next: nat, path: string)
    requires Sound(n) && Balanced(p) && ValidEndpoints(svc) && SpreadRules(n, f, svc, PortChain(n, svc.uid, p)) != []
    requires TableOk(after, next)
    requires var c := PortChain(n, svc.uid, p); var t := DNATTask(f, c, SpreadRules(n, f, svc, c));
             Converged(before, after, t, results) && Shown(after, t.query, seen)
    ensures var c := PortChain(n, svc.uid, p); var t := DNATTask(f, c, SpreadRules(n, f, svc, c));
            PlannedCalls(path, Plan(t, seen)) == [] <==> NoneTwice(Targets(f, svc.endpoints, p))
  {
    hide Sound, ValidEndpoints, TableOk, Converged, Shown, OwnScope, DistinctRequests, Plan, PlannedCalls, SpreadRules, PortChain, Targets;
    var c := PortChain(n, svc.uid, p);
    DNATTaskSettles(n, f, svc, c);
    SpreadDistinct(n, f, svc, p);
    SecondSyncIsSilentIff(DNATTask(f, c, SpreadRules(n, f, svc, c)), before, after, results, seen, next, path);
  }

  // ---------- addresses ----------

  /** The addresses of a family, in order. */
  function Only(ips: seq<Addr>, f: Family): seq<Addr> {
    if ips == [] then []
    else
      var k := |ips| - 1;
      Only(ips[..k], f) + if OfFamily(ips[k], f) then [ips[k]] else []
  }

  lemma {:induction false} OnlyThose(ips: seq<Addr>, f: Family, k: nat)
    requires k < |Only(ips, f)|
    ensures Only(ips, f)[k] in ips
  {
    var m := |ips| - 1;
    if k < |Only(ips[..m], f)| { OnlyThose(ips[..m], f, k); }
  }

  lemma {:induction false} ServiceRulesInOrder(n: Names, f: Family, svc: Service, ips: seq<Addr>)
    ensures |ServiceRules(n, f, svc, ips)| == |Only(ips, f)|
    ensures forall k :: 0 <= k < |Only(ips, f)| ==> ServiceRules(n, f, svc, ips)[k] == ServiceRule(n, svc, Only(ips, f)[k])
  {
    hide ServiceRule;
    if ips != [] { ServiceRulesInOrder(n, f, svc, ips[..|ips| - 1]); }
  }

  lemma {:induction false} ListEntriesInOrder(n: Names, f: Family, svc: Service, list: string, ips: seq<Addr>)
    ensures |ListEntries(n, f, svc, list, ips)| == |Only(ips, f)|
    ensures forall k :: 0 <= k < |Only(ips, f)| ==> ListEntries(n, f, svc, list, ips)[k] == ListEntry(n, svc, list, Only(ips, f)[k])
  {
    hide ListEntry;
    if ips != [] { ListEntriesInOrder(n, f, svc, list, ips[..|ips| - 1]); }
  }

  lemma HostsDistinct(n: Names, f: Family, ips: seq<Addr>)
    requires Sound(n) && forall ip :: ip in ips ==> IsValid(ip)
    ensures NoneTwice(Only(ips, f)) <==>
            forall i, j :: 0 <= i < j < |Only(ips, f)| ==> Host(n, Only(ips, f)[i]) != Host(n, Only(ips, f)[j])
  {
    hide Host, Sound, IsValid, Only;
    var own := Only(ips, f);
    if NoneTwice(own) {
      forall i, j | 0 <= i < j < |own| ensures Host(n, own[i]) != Host(n, own[j]) {
        OnlyThose(ips, f, i);
        OnlyThose(ips, f, j);
        if Host(n, own[i]) == Host(n, own[j]) { HostInjective(n, own[i], own[j]); }
      }
    }
  }

  lemma EntryOfAddress(n: Names, svc: Service, list: string, ip: Addr)
    ensures Get(ListEntry(n, svc, list, ip), "address") == Host(n, ip)
  {
    hide Host, Comment;
  }


  lemma ServiceRequestsDistinct(n: Names, f: Family, svc: Service)
    requires Sound(n) && forall ip :: ip in svc.lbIPs ==> IsValid(ip)
    ensures DistinctRequests(ServiceTask(n, svc.uid, ServiceRules(n, f, svc, svc.lbIPs))) <==> NoneTwice(Only(svc.lbIPs, f))
  {
    hide Sound, IsValid, Only, ServiceRules, ServiceRule, Host, NoneTwice, ServiceChain;
    var own, t := Only(svc.lbIPs, f), ServiceTask(n, svc.uid, ServiceRules(n, f, svc, svc.lbIPs));
    ServiceRulesInOrder(n, f, svc, svc.lbIPs);
    HostsDistinct(n, f, svc.lbIPs);
    forall k | 0 <= k < |own| ensures Get(t.reqs[k], "dst-address") == Host(n, own[k]) {
      JumpAction(n, svc, own[k]);
    }
    assert forall i, j :: 0 <= i < j < |own| ==> (SameId(t, t.reqs[i], t.reqs[j]) <==> Host(n, own[i]) == Host(n, own[j]));
  }

  lemma ListRequestsDistinct(n: Names, f: Family, svc: Service)
    requires Sound(n) && forall ip :: ip in svc.lbIPs ==> IsValid(ip)
    ensures DistinctRequests(LBListTask(n, svc, ListEntries(n, f, svc, LB_LIST, svc.lbIPs))) <==> NoneTwice(Only(svc.lbIPs, f))
  {
    hide Sound, IsValid, Only, ListEntries, ListEntry, Host, NoneTwice, OwnEntry;
    var own, t := Only(svc.lbIPs, f), LBListTask(n, svc, ListEntries(n, f, svc, LB_LIST, svc.lbIPs));
    ListEntriesInOrder(n, f, svc, LB_LIST, svc.lbIPs);
    HostsDistinct(n, f, svc.lbIPs);
    forall k | 0 <= k < |own| ensures Get(t.reqs[k], "address") == Host(n, own[k]) {
      EntryOfAddress(n, svc, LB_LIST, own[k]);
    }
    assert forall i, j :: 0 <= i < j < |own| ==> (SameId(t, t.reqs[i], t.reqs[j]) <==> Host(n, own[i]) == Host(n, own[j]));
  }

  /** Ensured again, a service's rules and list entries cause no call but the listing, exactly if none of its load
      balancer IPs of the family is given twice. */
  lemma AddressesSettleIff(n: Names, f: Family, svc: Service, T0: Table, T: Table, rules: seq<Obj>, shownT: seq<Obj>,
                           L0: Table, L: Table, entries: seq<Obj>, shownL: seq<Obj>, next: nat, path: string)
    requires Sound(n) && forall ip :: ip in svc.lbIPs ==> IsValid(ip)
    requires TableOk(T, next) && TableOk(L, next)
    requires var t := ServiceTask(n, svc.uid, ServiceRules(n, f, svc, svc.lbIPs)); Converged(T0, T, t, rules) && Shown(T, t.query, shownT)
    requires var l := LBListTask(n, svc, ListEntries(n, f, svc, LB_LIST, svc.lbIPs)); Converged(L0, L, l, entries) && Shown(L, l.query, shownL)
    ensures PlannedCalls(path, Plan(ServiceTask(n, svc.uid, ServiceRules(n, f, svc, svc.lbIPs)), shownT)) == [] <==>
            NoneTwice(Only(svc.lbIPs, f))
    ensures PlannedCalls(path, Plan(LBListTask(n, svc, ListEntries(n, f, svc, LB_LIST, svc.lbIPs)), shownL)) == [] <==>
            NoneTwice(Only(svc.lbIPs, f))
  {
    hide Sound, IsValid, TableOk, Converged, Shown, OwnScope, DistinctRequests, Only, NoneTwice, Plan, PlannedCalls, ServiceRules, ListEntries;
    var t := ServiceTask(n, svc.uid, ServiceRules(n, f, svc, svc.lbIPs));
    var l := LBListTask(n, svc, ListEntries(n, f, svc, LB_LIST, svc.lbIPs));
    ServiceTaskSettles(n, f, svc);
    LBListTaskSettles(n, f, svc);
    ServiceRequestsDistinct(n, f, svc);
    ListRequestsDistinct(n, f, svc);
    SecondSyncIsSilentIff(t, T0, T, rules, shownT, next, path);
    SecondSyncIsSilentIff(l, L0, L, entries, shownL, next, path);
  }

  // ---------- the source list ----------

  /** The endpoint addresses of a family, as the endpoints list them. */
  function Sources(f: Family, eps: seq<Endpoint>): seq<Addr> {
    if eps == [] then []
    else
      var k := |eps| - 1;
      Sources(f, eps[..k]) + Only(eps[k].ips, f)
  }

  ghost predicate Enter(n: Names, svc: Service, list: string, entries: seq<Obj>, ips: seq<Addr>) {
    |entries| == |ips| && forall k :: 0 <= k < |ips| ==> entries[k] == ListEntry(n, svc, list, ips[k])
  }

  lemma EnterMore(n: Names, svc: Service, list: string, a: seq<Obj>, b: seq<Obj>, s: seq<Addr>, t: seq<Addr>)
    requires Enter(n, svc, list, a, s) && Enter(n, svc, list, b, t)
    ensures Enter(n, svc, list, a + b, s + t)
  {
    hide ListEntry;
  }

  lemma {:induction false} SourcesInOrder(n: Names, f: Family, svc: Service, eps: seq<Endpoint>)
    ensures Enter(n, svc, SourceList(n, svc.uid), SourceEntries(n, f, svc, eps), Sources(f, eps))
  {
    hide ListEntry, SourceList, ListEntries, Only;
    if eps != [] {
      var k := |eps| - 1;
      SourcesInOrder(n, f, svc, eps[..k]);
      ListEntriesInOrder(n, f, svc, SourceList(n, svc.uid), eps[k].ips);
      EnterMore(n, svc, SourceList(n, svc.uid), SourceEntries(n, f, svc, eps[..k]), ListEntries(n, f, svc, SourceList(n, svc.uid), eps[k].ips),
                Sources(f, eps[..k]), Only(eps[k].ips, f));
    }
  }

  lemma {:induction false} SourcesListed(f: Family, eps: seq<Endpoint>, ip: Addr)
    requires ip in Sources(f, eps)
    ensures exists i :: 0 <= i < |eps| && ip in eps[i].ips
  {
    hide Only;
    var k := |eps| - 1;
    if ip in Sources(f, eps[..k]) {
      SourcesListed(f, eps[..k], ip);
      var i :| 0 <= i < k && ip in eps[..k][i].ips;
      assert ip in eps[i].ips;
    } else {
      var j :| 0 <= j < |Only(eps[k].ips, f)| && Only(eps[k].ips, f)[j] == ip;
      OnlyThose(eps[k].ips, f, j);
    }
  }

  lemma SourcesDistinct(n: Names, f: Family, svc: Service)
    requires Sound(n) && ValidEndpoints(svc)
    ensures DistinctRequests(SourceListTask(n, svc.uid, SourceEntries(n, f, svc, svc.endpoints))) <==> NoneTwice(Sources(f, svc.endpoints))
  {
    hide Sound, IsValid, Sources, SourceEntries, ListEntry, Host, SourceList;
    var ips, t := Sources(f, svc.endpoints), SourceListTask(n, svc.uid, SourceEntries(n, f, svc, svc.endpoints));
    SourcesInOrder(n, f, svc, svc.endpoints);
    forall i, j | 0 <= i < j < |ips| ensures SameId(t, t.reqs[i], t.reqs[j]) <==> ips[i] == ips[j] {
      EntryOfAddress(n, svc, SourceList(n, svc.uid), ips[i]);
      EntryOfAddress(n, svc, SourceList(n, svc.uid), ips[j]);
      SourcesListed(f, svc.endpoints, ips[i]);
      SourcesListed(f, svc.endpoints, ips[j]);
      if Host(n, ips[i]) == Host(n, ips[j]) { HostInjective(n, ips[i], ips[j]); }
    }
  }

  // ---------- the whole service ----------

  /** Every pair of a port's target is listed once. */
  ghost predicate TargetsOnce(f: Family, svc: Service) {
    forall p :: HasPort(svc.endpoints, p) && Balanced(p) ==> NoneTwice(Targets(f, svc.endpoints, p))
  }

  lemma SpreadSettles(n: Names, f: Family, svc: Service, T: Table)
    requires Sound(n) && ValidEndpoints(svc) && Spread(n, f, svc, T)
    ensures SpreadReady(n, f, svc, T) <==> TargetsOnce(f, svc)
  {
    hide Sound, ValidEndpoints, Fulfilled, DistinctRequests, SpreadRules, EndpointsRules, InChain, PortChain, Targets, HasPort, NoneTwice, Balanced;
    if SpreadReady(n, f, svc, T) {
      forall p | HasPort(svc.endpoints, p) && Balanced(p) ensures NoneTwice(Targets(f, svc.endpoints, p)) {
        OnePortSettles(n, f, svc, p, T);
      }
    }
    if TargetsOnce(f, svc) {
      forall chain | InChain(EndpointsRules(n, f, svc, svc.endpoints), chain) != []
        ensures Ready(T, DNATTask(f, chain, SpreadRules(n, f, svc, chain))) {
        SpreadNotStale(n, f, svc, chain);
        SpreadNotEmpty(n, f, svc, chain);
        var p :| HasPort(svc.endpoints, p) && Balanced(p) && PortChain(n, svc.uid, p) == chain;
        SpreadDistinct(n, f, svc, p);
      }
    }
  }

  lemma OnePortSettles(n: Names, f: Family, svc: Service, p: Port, T: Table)
    requires Sound(n) && ValidEndpoints(svc) && SpreadReady(n, f, svc, T) && Balanced(p)
    ensures NoneTwice(Targets(f, svc.endpoints, p))
  {
    hide Sound, ValidEndpoints, Fulfilled, DistinctRequests, EndpointsRules, InChain, PortChain, Targets, GoesTo, WithShare, DNATTask;
    EndpointsRulesGo(n, f, svc, svc.endpoints, p);
    if Targets(f, svc.endpoints, p) != [] {
      SpreadDistinct(n, f, svc, p);
    }
  }

  /** No load balancer IP, target of a port or endpoint address is given twice, as far as the family uses them; and a
      source NAT IP comes with a load balancer IP. */
  ghost predicate Settles(f: Family, svc: Service) {
    && (HasLBIP(svc, f) ==> NoneTwice(Only(svc.lbIPs, f)) && TargetsOnce(f, svc))
    && (SNATIP(svc, f).Addr? ==> HasLBIP(svc, f) && NoneTwice(Sources(f, svc.endpoints)))
  }

  lemma BalancingSettles(n: Names, f: Family, svc: Service, before: Table, T: Table, L: Table, outcome: Outcome)
    requires Sound(n) && ValidEndpoints(svc) && forall ip :: ip in svc.lbIPs ==> IsValid(ip)
    requires HasLBIP(svc, f) && Balancing(n, f, svc, before, T, L, outcome) && NoJumpBack(n, svc.uid, before)
    ensures BalancingReady(n, f, svc, T, L) <==> NoneTwice(Only(svc.lbIPs, f)) && TargetsOnce(f, svc)
  {
    hide Sound, ValidEndpoints, IsValid, HasLBIP, Fulfilled, DistinctRequests, SpreadReady, TargetsOnce, NoneTwice, Only, PortRequests, Spread, Cleaned, ServiceRules, ListEntries, NoJumpBack;
    SpreadSettles(n, f, svc, T);
    PortReadyIs(n, svc, T, outcome.reqs);
    ServiceRequestsDistinct(n, f, svc);
    ListRequestsDistinct(n, f, svc);
  }

  /** In a family without a load balancer IP, the deletion of everything with the service's mark takes its source NAT
      rule each time. */
  lemma UnbalancedSettles(n: Names, f: Family, svc: Service, T: Table, L: Table)
    requires Unbalanced(n, svc.uid, T, L) && SourceNATDone(n, f, svc, T, L)
    ensures Fulfilled(L, MarkedEntries(svc.uid)) && (Fulfilled(T, MarkedRules(svc.uid)) <==> !SNATIP(svc, f).Addr?)
  {
    hide Marked, Get, SourceList, InScope, Fulfilled, SNATTask, SNATRule, SourceListTask, SourceEntries, MarkedEntries, MarkedRules, ServiceSNAT, ServiceSources;
    MarkedPrunes(svc.uid);
    PrunedMeans(L, MarkedEntries(svc.uid));
    PrunedMeans(T, MarkedRules(svc.uid));
    forall o ensures InScope(MarkedRules(svc.uid), o) <==> Marked(o, svc.uid)
      ensures InScope(MarkedEntries(svc.uid), o) <==> Marked(o, svc.uid) && Get(o, "list") == LB_LIST {
      MarkedScope(svc.uid, o);
    }
    if SNATIP(svc, f).Addr? {
      SNATRuleThere(n, f, svc, T);
    } else {
      SNATPrunes(n, svc.uid);
      PrunedMeans(T, ServiceSNAT(n, svc.uid));
      forall id | id in T ensures !Marked(T[id], svc.uid) { SourceScope(n, svc.uid, T[id]); }
    }
  }

  lemma MarkedPrunes(uid: string)
    ensures MarkedEntries(uid).reqs == [] && MarkedRules(uid).reqs == []
  {
  }

  lemma SNATPrunes(n: Names, uid: string)
    ensures ServiceSNAT(n, uid).reqs == []
  {
  }

  lemma SNATRuleThere(n: Names, f: Family, svc: Service, T: Table)
    requires SNATIP(svc, f).Addr? && Fulfilled(T, SNATTask(n, f, svc.uid, SNATRules(n, f, svc)))
    ensures exists id :: id in T && Marked(T[id], svc.uid)
  {
    hide Equal, SNATRule, HasPrefix, Contains, SourceList, Get, Fulfilled;
    var t := SNATTask(n, f, svc.uid, SNATRules(n, f, svc));
    FulfilledMeans(T, t);
    assert Present(T, t, 0);
    var id :| id in T && Equal(t, T[id], t.reqs[0]);
    SNATRuleSays(n, f, svc);
    EqualGet(t, T[id], t.reqs[0], "comment");
  }

  lemma FamilySettles(n: Names, f: Family, svc: Service, before: Table, T: Table, L: Table, outcome: Outcome)
    requires Sound(n) && ValidEndpoints(svc) && forall ip :: ip in svc.lbIPs ==> IsValid(ip)
    requires Ensured(n, f, svc, before, T, L, outcome) && NoJumpBack(n, svc.uid, before)
    ensures FamilyReady(n, f, svc, T, L) <==> Settles(f, svc)
  {
    hide Sound, ValidEndpoints, IsValid, HasLBIP, Fulfilled, DistinctRequests, TargetsOnce, NoneTwice, Only, Balancing, Unbalanced, NoJumpBack,
         Sources, SourceEntries, RulesReady, SNATRules, ListEntries;
    if HasLBIP(svc, f) {
      BalancingSettles(n, f, svc, before, T, L, outcome);
    } else {
      UnbalancedSettles(n, f, svc, T, L);
    }
    SourcesDistinct(n, f, svc);
    SNATTaskSettles(n, f, svc);
  }

  /** After a successful EnsureService whose service chains did not jump back, another one has nothing to do, and so
      sends only listings, exactly if no address or target of the service is given twice in a family and no family has
      a source NAT IP without a load balancer IP. */
  lemma SecondEnsureIsSilentIff(n: Names, svc: Service, before: map<string, Table>, after: map<string, Table>, outcomes: map<Family, Outcome>)
    requires Sound(n) && ValidEndpoints(svc) && forall ip :: ip in svc.lbIPs ==> IsValid(ip)
    requires outcomes.Keys == {V4, V6}
    requires forall f :: f in outcomes ==>
      Ensured(n, f, svc, TableOf(before, NatPath(f)), TableOf(after, NatPath(f)), TableOf(after, ListPath(f)), outcomes[f])
    requires forall f :: NoJumpBack(n, svc.uid, TableOf(before, NatPath(f)))
    ensures ServiceReady(n, svc, after) <==> forall f :: Settles(f, svc)
  {
    hide Sound, ValidEndpoints, IsValid, Ensured, NoJumpBack, FamilyReady, Settles, NatPath, ListPath, TableOf;
    FamilySettles(n, V4, svc, TableOf(before, NatPath(V4)), TableOf(after, NatPath(V4)), TableOf(after, ListPath(V4)), outcomes[V4]);
    FamilySettles(n, V6, svc, TableOf(before, NatPath(V6)), TableOf(after, NatPath(V6)), TableOf(after, ListPath(V6)), outcomes[V6]);
    if Settles(V4, svc) && Settles(V6, svc) {
      forall f ensures Settles(f, svc) {
        if f != V4 { assert f == V6; }
      }
    }
  }
}
