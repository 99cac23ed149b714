/** What the RouterOS backend is told about a service, and the objects it writes for one. */
module Services {
  import opened Net
  import opened Router

  datatype Port = Port(port: nat, targetPort: nat, protocol: string)

  datatype Endpoint = Endpoint(ips: seq<Addr>, ports: seq<Port>)

  datatype Service = Service(uid: string, name: string, lbIPs: seq<Addr>, snatIPv4: Addr, snatIPv6: Addr, endpoints: seq<Endpoint>)

  /** Text that other code produces: netip's printer and parser, and the first eight characters of the hash of a UID. */
  datatype Names = Names(text: Addr -> string, parse: string -> Option<Addr>, hash: string -> string)

  ghost predicate Sound(n: Names) {
    && (forall a :: IsValid(a) ==> n.parse(n.text(a)) == Some(a) && '/' !in n.text(a))
    && (forall uid :: |n.hash(uid)| == 8)
  }

  /** The endpoint addresses are ones netip has. */
  ghost predicate ValidEndpoints(svc: Service) {
    forall i, ip :: 0 <= i < |svc.endpoints| && ip in svc.endpoints[i].ips ==> IsValid(ip)
  }

  predicate OfFamily(a: Addr, f: Family) {
    a.Addr? && a.family == f
  }

  predicate HasLBIP(svc: Service, f: Family) {
    exists i :: 0 <= i < |svc.lbIPs| && OfFamily(svc.lbIPs[i], f)
  }

  function SNATIP(svc: Service, f: Family): Addr {
    if f == V4 then svc.snatIPv4 else svc.snatIPv6
  }

  // ---------- names ----------

  const LB_LIST := "mikrolb-lb-ips"
  const DNAT_CHAIN := "mikrolb-dnat"
  const SNAT_CHAIN := "mikrolb-snat"

  predicate Balanced(p: Port) {
    p.protocol == "TCP" || p.protocol == "UDP"
  }

  function Lower(protocol: string): string {
    if protocol == "TCP" then "tcp" else "udp"
  }

  function ServiceChain(n: Names, uid: string): string {
    "mikrolb-svc-" + n.hash(uid)
  }

  function PortSuffix(p: Port): string {
    "-port-" + Decimal(p.port) + "-" + Lower(p.protocol)
  }

  function PortChain(n: Names, uid: string, p: Port): string {
    ServiceChain(n, uid) + PortSuffix(p)
  }

  lemma SamePortSameChain(n: Names, uid: string, p: Port, q: Port)
    requires p.port == q.port && p.protocol == q.protocol
    ensures PortChain(n, uid, p) == PortChain(n, uid, q)
  {
  }

  function SourceList(n: Names, uid: string): string {
    "mikrolb-src-ips-" + n.hash(uid)
  }

  lemma {:induction false} DecimalDigits(m: nat)
    ensures forall i :: 0 <= i < |Decimal(m)| ==> Decimal(m)[i] !in {'-', '/', ':'}
  {
    if m >= 10 { DecimalDigits(m / 10); }
  }

  /** Two numerals followed by a separator. */
  lemma NumeralEnds(a: nat, b: nat, sep: char, x: string, y: string)
    requires sep in {'-', '/'} && Decimal(a) + [sep] + x == Decimal(b) + [sep] + y
    ensures a == b && x == y
  {
    hide Decimal;
    DecimalDigits(a);
    DecimalDigits(b);
    var s, t := Decimal(a) + [sep] + x, Decimal(b) + [sep] + y;
    assert s[|Decimal(a)|] == sep && t[|Decimal(b)|] == sep;
    assert |Decimal(a)| == |Decimal(b)|;
    assert s[..|Decimal(a)|] == Decimal(a) && t[..|Decimal(b)|] == Decimal(b);
    assert s[|Decimal(a)| + 1..] == x && t[|Decimal(b)| + 1..] == y;
    DecimalInjective(a, b);
  }

  /** The same at the end, after a separator. */
  lemma NumeralStarts(x: string, y: string, sep: char, a: nat, b: nat)
    requires sep in {'-', '/', ':'} && x + [sep] + Decimal(a) == y + [sep] + Decimal(b)
    ensures x == y && a == b
  {
    hide Decimal;
    DecimalDigits(a);
    DecimalDigits(b);
    var s, t := x + [sep] + Decimal(a), y + [sep] + Decimal(b);
    assert s[|x|] == sep && t[|y|] == sep;
    assert |x| == |y|;
    assert s[..|x|] == x && t[..|y|] == y && s[|x| + 1..] == Decimal(a) && t[|y| + 1..] == Decimal(b);
    DecimalInjective(a, b);
  }

  lemma PortChainParts(n: Names, uid: string, p: Port)
    requires Sound(n)
    ensures var s := PortChain(n, uid, p);
            |s| >= 26 && s[12..20] == n.hash(uid) && s[26..] == Decimal(p.port) + ['-'] + Lower(p.protocol)
  {
    hide Decimal, Lower;
    var front := "mikrolb-svc-" + n.hash(uid) + "-port-";
    var tail := Decimal(p.port) + "-" + Lower(p.protocol);
    assert |front| == 26 && PortChain(n, uid, p) == front + tail;
    assert front[12..20] == n.hash(uid) && (front + tail)[12..20] == front[12..20];
  }

  /** A port chain tells service hash, port and protocol apart from those of every other port chain. */
  lemma PortChainsDistinct(n: Names, u: string, v: string, p: Port, q: Port)
    requires Sound(n) && Balanced(p) && Balanced(q) && PortChain(n, u, p) == PortChain(n, v, q)
    ensures n.hash(u) == n.hash(v) && p.port == q.port && p.protocol == q.protocol
  {
    hide Decimal, PortChain, Sound;
    PortChainParts(n, u, p);
    PortChainParts(n, v, q);
    NumeralEnds(p.port, q.port, '-', Lower(p.protocol), Lower(q.protocol));
    assert "tcp"[0] != "udp"[0];
  }

  /** The key under which the backend keeps one rule per port and protocol. */
  function PortKey(p: Port): string {
    Decimal(p.port) + "/" + p.protocol
  }

  lemma PortKeyInjective(p: Port, q: Port)
    requires PortKey(p) == PortKey(q)
    ensures p.port == q.port && p.protocol == q.protocol
  {
    NumeralEnds(p.port, q.port, '/', p.protocol, q.protocol);
  }

  /** Service chains, port chains and the fixed chains never coincide. */
  lemma ChainsApart(n: Names, u: string, v: string, p: Port)
    requires Sound(n)
    ensures PortChain(n, u, p) != ServiceChain(n, v)
    ensures ServiceChain(n, u) !in {DNAT_CHAIN, SNAT_CHAIN, "dstnat", "srcnat"}
    ensures PortChain(n, u, p) !in {DNAT_CHAIN, SNAT_CHAIN, "dstnat", "srcnat"}
    ensures SourceList(n, u) != LB_LIST
  {
    hide Decimal;
    assert |PortChain(n, u, p)| > 20 == |ServiceChain(n, v)| == |ServiceChain(n, u)|;
    assert |DNAT_CHAIN| == 12 && |SNAT_CHAIN| == 12 && |"dstnat"| == 6 && |"srcnat"| == 6;
    assert |SourceList(n, u)| == 24 && |LB_LIST| == 14;
  }

  function Host(n: Names, a: Addr): string {
    n.text(a) + if OfFamily(a, V6) then "/128" else ""
  }

  /** strings.Split(s, "/")[0]. */
  function BeforeSlash(s: string): string {
    if s == "" || s[0] == '/' then "" else [s[0]] + BeforeSlash(s[1..])
  }

  lemma {:induction false} BeforeSlashOf(s: string, rest: string)
    requires '/' !in s && (rest == "" || rest[0] == '/')
    ensures BeforeSlash(s + rest) == s
  {
    if s == "" {
      assert s + rest == rest;
    } else {
      assert (s + rest)[1..] == s[1..] + rest;
      BeforeSlashOf(s[1..], rest);
    }
  }

  /** The address of a host entry reads back. */
  lemma HostReads(n: Names, a: Addr)
    requires Sound(n) && IsValid(a)
    ensures n.parse(BeforeSlash(Host(n, a))) == Some(a)
  {
    BeforeSlashOf(n.text(a), if OfFamily(a, V6) then "/128" else "");
  }

  lemma HostInjective(n: Names, a: Addr, b: Addr)
    requires Sound(n) && IsValid(a) && IsValid(b) && Host(n, a) == Host(n, b)
    ensures a == b
  {
    HostReads(n, a);
    HostReads(n, b);
  }

  /** An address in decimal, by family. */
  function Numeral(a: Addr): string {
    if a.NoAddr? then "" else (if a.family == V4 then "4" else "6") + Decimal(a.value)
  }

  lemma NumeralInjective(a: Addr, b: Addr)
    requires a.Addr? && b.Addr? && Numeral(a) == Numeral(b)
    ensures a == b
  {
    assert Numeral(a)[0] == Numeral(b)[0] && Numeral(a)[1..] == Decimal(a.value) && Numeral(b)[1..] == Decimal(b.value);
    assert "4"[0] != "6"[0];
    DecimalInjective(a.value, b.value);
  }

  /** What Sound asks for can be had. */
  lemma SoundNamesExist() returns (n: Names)
    ensures Sound(n)
  {
    hide Decimal;
    n := Names(Numeral, (s: string) => if exists a :: IsValid(a) && Numeral(a) == s then Some(var a :| IsValid(a) && Numeral(a) == s; a) else None,
               _ => "abcdefgh");
    forall a | IsValid(a) ensures n.parse(n.text(a)) == Some(a) && '/' !in n.text(a) {
      DecimalDigits(a.value);
      forall b | IsValid(b) && Numeral(b) == Numeral(a) ensures a == b { NumeralInjective(a, b); }
    }
  }

  // ---------- marks ----------

  const PREFIX := "mikrolb:"

  predicate HasPrefix(s: string, prefix: string) {
    prefix <= s
  }

  predicate PartAt(s: string, part: string, i: nat) {
    i + |part| <= |s| && s[i..i + |part|] == part
  }

  predicate Contains(s: string, part: string) {
    exists i: nat :: i <= |s| && PartAt(s, part, i)
  }

  /** The backend's own objects of a service, recognised by their comment. */
  predicate Marked(o: Obj, uid: string) {
    HasPrefix(Get(o, "comment"), PREFIX) && Contains(Get(o, "comment"), uid)
  }

  /** Only objects whose comment starts with the prefix and has the UID in it are the service's by their mark. */
  lemma MarkedMeans(o: Obj, uid: string)
    ensures var c := Get(o, "comment"); Marked(o, uid) <==> "mikrolb:" <= c && exists i, j :: 0 <= i <= j <= |c| && c[i..j] == uid
  {
    var c := Get(o, "comment");
    if i: nat :| i <= |c| && PartAt(c, uid, i) { assert c[i..i + |uid|] == uid; }
    if i, j :| 0 <= i <= j <= |c| && c[i..j] == uid { assert PartAt(c, uid, i); }
  }

  function Comment(kind: string, name: string, uid: string, rest: string): string {
    PREFIX + kind + name + " (" + uid + ")" + rest
  }

  lemma CommentMarks(o: Obj, kind: string, name: string, uid: string, rest: string)
    requires Get(o, "comment") == Comment(kind, name, uid, rest)
    ensures Marked(o, uid)
  {
    var s := Get(o, "comment");
    var i := |PREFIX + kind + name + " ("|;
    assert PartAt(s, uid, i);
  }

  // ---------- requests ----------

  function AddressField(f: Family): string {
    match f
    case V4 => "to-addresses"
    case V6 => "to-address"
  }

  function ConnectionRule(): Obj {
    map["chain" := "dstnat", "action" := "jump", "jump-target" := DNAT_CHAIN, "dst-address-list" := LB_LIST,
        "comment" := "mikrolb: LB connections", "disabled" := "false", "log" := "false"]
  }

  function SourceJumpRule(): Obj {
    map["chain" := "srcnat", "action" := "jump", "jump-target" := SNAT_CHAIN,
        "comment" := "mikrolb: SNAT connections", "disabled" := "false", "log" := "false"]
  }

  function ServiceRule(n: Names, svc: Service, ip: Addr): Obj {
    map["chain" := DNAT_CHAIN, "action" := "jump", "jump-target" := ServiceChain(n, svc.uid), "dst-address" := Host(n, ip),
        "comment" := Comment(" LB for service ", svc.name, svc.uid, ""), "disabled" := "false", "log" := "false"]
  }

  function PortText(p: Port): string {
    ", port " + Decimal(p.port) + "/" + p.protocol
  }

  function PortRule(n: Names, svc: Service, p: Port): Obj {
    map["chain" := ServiceChain(n, svc.uid), "action" := "jump", "jump-target" := PortChain(n, svc.uid, p),
        "dst-port" := Decimal(p.port), "protocol" := Lower(p.protocol),
        "comment" := Comment(" LB for service ", svc.name, svc.uid, PortText(p)), "disabled" := "false", "log" := "false"]
  }

  function AddrPortText(n: Names, a: Addr, port: nat): string {
    (if OfFamily(a, V6) then "[" + n.text(a) + "]" else n.text(a)) + ":" + Decimal(port)
  }

  function DNATRule(n: Names, f: Family, svc: Service, p: Port, ip: Addr): Obj {
    map["chain" := PortChain(n, svc.uid, p), "action" := "dst-nat", AddressField(f) := Host(n, ip),
        "to-ports" := Decimal(p.targetPort), "protocol" := Lower(p.protocol),
        "comment" := Comment(" LB for service ", svc.name, svc.uid, PortText(p) + " -> " + AddrPortText(n, ip, p.targetPort)),
        "disabled" := "false", "log" := "false"]
  }

  function SNATRule(n: Names, f: Family, svc: Service): Obj {
    map["chain" := SNAT_CHAIN, "action" := "src-nat", "src-address-list" := SourceList(n, svc.uid),
        AddressField(f) := n.text(SNATIP(svc, f)),
        "comment" := Comment(" SNAT for service ", svc.name, svc.uid, ""), "disabled" := "false", "log" := "false"]
  }

  function ListEntry(n: Names, svc: Service, list: string, ip: Addr): Obj {
    map["list" := list, "address" := Host(n, ip), "comment" := Comment(" service ", svc.name, svc.uid, ""), "disabled" := "false"]
  }

  /** The i-th rule of a chain takes its share of the packets; the last one takes what is left. */
  function WithShare(reqs: seq<Obj>, i: nat): Obj
    requires i < |reqs|
  {
    if i + 1 < |reqs| then reqs[i]["nth" := Decimal(|reqs|) + "," + Decimal(i + 1)] else reqs[i]
  }

  function Distributed(reqs: seq<Obj>): (s: seq<Obj>)
    ensures |s| == |reqs| && forall i :: 0 <= i < |s| ==> s[i] == WithShare(reqs, i)
  {
    seq(|reqs|, i requires 0 <= i < |reqs| => WithShare(reqs, i))
  }

  // ---------- request lists, in the order the backend builds them ----------

  function IPRules(n: Names, f: Family, svc: Service, p: Port, ips: seq<Addr>): seq<Obj> {
    if ips == [] then []
    else
      var k := |ips| - 1;
      IPRules(n, f, svc, p, ips[..k]) + if OfFamily(ips[k], f) then [DNATRule(n, f, svc, p, ips[k])] else []
  }

  function PortsRules(n: Names, f: Family, svc: Service, ips: seq<Addr>, ports: seq<Port>): seq<Obj> {
    if ports == [] then []
    else
      var k := |ports| - 1;
      PortsRules(n, f, svc, ips, ports[..k]) + if Balanced(ports[k]) then IPRules(n, f, svc, ports[k], ips) else []
  }

  /** The destination NAT rules of all endpoints. */
  function EndpointsRules(n: Names, f: Family, svc: Service, eps: seq<Endpoint>): seq<Obj> {
    if eps == [] then []
    else
      var k := |eps| - 1;
      EndpointsRules(n, f, svc, eps[..k]) + PortsRules(n, f, svc, eps[k].ips, eps[k].ports)
  }

  function InChain(rules: seq<Obj>, chain: string): seq<Obj> {
    if rules == [] then []
    else
      var k := |rules| - 1;
      InChain(rules[..k], chain) + if Get(rules[k], "chain") == chain then [rules[k]] else []
  }

  function ServiceRules(n: Names, f: Family, svc: Service, ips: seq<Addr>): seq<Obj> {
    if ips == [] then []
    else
      var k := |ips| - 1;
      ServiceRules(n, f, svc, ips[..k]) + if OfFamily(ips[k], f) then [ServiceRule(n, svc, ips[k])] else []
  }

  function ListEntries(n: Names, f: Family, svc: Service, list: string, ips: seq<Addr>): seq<Obj> {
    if ips == [] then []
    else
      var k := |ips| - 1;
      ListEntries(n, f, svc, list, ips[..k]) + if OfFamily(ips[k], f) then [ListEntry(n, svc, list, ips[k])] else []
  }

  function SourceEntries(n: Names, f: Family, svc: Service, eps: seq<Endpoint>): seq<Obj> {
    if eps == [] then []
    else
      var k := |eps| - 1;
      SourceEntries(n, f, svc, eps[..k]) + ListEntries(n, f, svc, SourceList(n, svc.uid), eps[k].ips)
  }

  // ---------- what is in them ----------

  predicate HasPort(eps: seq<Endpoint>, p: Port) {
    exists i :: 0 <= i < |eps| && p in eps[i].ports
  }

  /** Some endpoint offers port p at address ip. */
  predicate Offers(eps: seq<Endpoint>, p: Port, ip: Addr) {
    exists i :: 0 <= i < |eps| && p in eps[i].ports && ip in eps[i].ips
  }

  lemma OffersPort(eps: seq<Endpoint>, p: Port, ip: Addr)
    requires Offers(eps, p, ip)
    ensures HasPort(eps, p)
  {
  }

  lemma {:induction false} IPRulesAre(n: Names, f: Family, svc: Service, p: Port, ips: seq<Addr>, o: Obj)
    ensures o in IPRules(n, f, svc, p, ips) <==> exists ip :: ip in ips && OfFamily(ip, f) && o == DNATRule(n, f, svc, p, ip)
  {
    hide DNATRule;
    if ips != [] {
      var k := |ips| - 1;
      IPRulesAre(n, f, svc, p, ips[..k], o);
      assert ips == ips[..k] + [ips[k]];
    }
  }

  lemma {:induction false} PortsRulesAre(n: Names, f: Family, svc: Service, ips: seq<Addr>, ports: seq<Port>, o: Obj)
    ensures o in PortsRules(n, f, svc, ips, ports) <==>
            exists p, ip :: p in ports && Balanced(p) && ip in ips && OfFamily(ip, f) && o == DNATRule(n, f, svc, p, ip)
  {
    hide DNATRule, IPRules;
    if ports != [] {
      var k := |ports| - 1;
      PortsRulesAre(n, f, svc, ips, ports[..k], o);
      IPRulesAre(n, f, svc, ports[k], ips, o);
      assert ports == ports[..k] + [ports[k]];
    }
  }

  ghost predicate RuleFor(n: Names, f: Family, svc: Service, eps: seq<Endpoint>, o: Obj) {
    exists p, ip :: Offers(eps, p, ip) && Balanced(p) && OfFamily(ip, f) && o == DNATRule(n, f, svc, p, ip)
  }

  lemma OffersMore(eps: seq<Endpoint>, ep: Endpoint, p: Port, ip: Addr)
    ensures Offers(eps + [ep], p, ip) <==> Offers(eps, p, ip) || (p in ep.ports && ip in ep.ips)
  {
    var all := eps + [ep];
    if i :| 0 <= i < |eps| && p in eps[i].ports && ip in eps[i].ips { assert all[i] == eps[i]; }
    assert all[|eps|] == ep;
  }

  lemma {:induction false} EndpointsRulesAre(n: Names, f: Family, svc: Service, eps: seq<Endpoint>, o: Obj)
    ensures o in EndpointsRules(n, f, svc, eps) <==> RuleFor(n, f, svc, eps, o)
  {
    hide DNATRule, PortsRules, Offers;
    if eps == [] {
      assert forall p, ip :: !Offers([], p, ip) by { NothingOffered(); }
    } else {
      var k := |eps| - 1;
      EndpointsRulesAre(n, f, svc, eps[..k], o);
      PortsRulesAre(n, f, svc, eps[k].ips, eps[k].ports, o);
      assert eps == eps[..k] + [eps[k]];
      forall p, ip ensures Offers(eps, p, ip) <==> Offers(eps[..k], p, ip) || (p in eps[k].ports && ip in eps[k].ips) {
        OffersMore(eps[..k], eps[k], p, ip);
      }
    }
  }

  lemma NothingOffered()
    ensures forall p, ip :: !Offers([], p, ip)
  {
  }

  lemma {:induction false} InChainAre(rules: seq<Obj>, chain: string, o: Obj)
    ensures o in InChain(rules, chain) <==> o in rules && Get(o, "chain") == chain
  {
    hide Get;
    if rules != [] {
      var k := |rules| - 1;
      InChainAre(rules[..k], chain, o);
      assert rules == rules[..k] + [rules[k]];
    }
  }

  lemma {:induction false} ServiceRulesAre(n: Names, f: Family, svc: Service, ips: seq<Addr>, o: Obj)
    ensures o in ServiceRules(n, f, svc, ips) <==> exists ip :: ip in ips && OfFamily(ip, f) && o == ServiceRule(n, svc, ip)
  {
    hide ServiceRule;
    if ips != [] {
      var k := |ips| - 1;
      ServiceRulesAre(n, f, svc, ips[..k], o);
      assert ips == ips[..k] + [ips[k]];
    }
  }

  lemma {:induction false} ListEntriesAre(n: Names, f: Family, svc: Service, list: string, ips: seq<Addr>, o: Obj)
    ensures o in ListEntries(n, f, svc, list, ips) <==> exists ip :: ip in ips && OfFamily(ip, f) && o == ListEntry(n, svc, list, ip)
  {
    hide ListEntry;
    if ips != [] {
      var k := |ips| - 1;
      ListEntriesAre(n, f, svc, list, ips[..k], o);
      assert ips == ips[..k] + [ips[k]];
    }
  }

  lemma {:induction false} SourceEntriesAre(n: Names, f: Family, svc: Service, eps: seq<Endpoint>, o: Obj)
    ensures o in SourceEntries(n, f, svc, eps) <==>
            exists i, ip :: 0 <= i < |eps| && ip in eps[i].ips && OfFamily(ip, f) && o == ListEntry(n, svc, SourceList(n, svc.uid), ip)
  {
    hide ListEntry, ListEntries;
    if eps != [] {
      var k := |eps| - 1;
      SourceEntriesAre(n, f, svc, eps[..k], o);
      ListEntriesAre(n, f, svc, SourceList(n, svc.uid), eps[k].ips, o);
      if i, ip :| 0 <= i < k && ip in eps[..k][i].ips && OfFamily(ip, f) && o == ListEntry(n, svc, SourceList(n, svc.uid), ip) {
        assert ip in eps[i].ips;
      }
      if i, ip :| 0 <= i < |eps| && ip in eps[i].ips && OfFamily(ip, f) && o == ListEntry(n, svc, SourceList(n, svc.uid), ip) {
        if i < k { assert ip in eps[..k][i].ips; }
      }
    }
  }
}
