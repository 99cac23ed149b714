/** What a router's NAT rules do to a packet, and what the backend's program makes of it. */
module Firewall {
  import opened Net
  import opened Router
  import opened Matching
  import opened Services
  import opened Programs

  datatype Packet = Packet(src: Addr, dst: Addr, protocol: string, port: nat)

  /** Passed: the chain had no say. Redirected: a new destination address and port. Masked: a new source address.
      Decided: another rule ended the matter. */
  datatype Verdict = Passed | Redirected(dst: Option<Addr>, port: Option<nat>) | Masked(src: Option<Addr>) | Decided

  /** Everything a verdict depends on besides the rules. Matchers that are not modelled, nth among them, may
      answer anything each time they are asked: `answers` is given the jumps taken, the rule and the field. */
  datatype Env = Env(n: Names, pkt: Packet, lists: Table, answers: (seq<nat>, nat, string) -> bool)

  /** Fields that do not restrict what a rule matches. */
  const PLUMBING := RULE_IGNORED + {"chain", "action", "jump-target", "to-addresses", "to-address", "to-ports", "comment", "disabled"}

  const HARMLESS := {"passthrough", "log", "add-dst-to-address-list", "add-src-to-address-list"}

  // ---------- how the router reads a rule ----------

  /** The mask of an address, with its slash. */
  function MaskPart(s: string): (m: string)
    ensures |m| <= |s|
  {
    if s == "" || s[0] == '/' then s else MaskPart(s[1..])
  }

  /** A single address, bare or with a mask as long as the address; None for anything else. */
  function ReadAddress(n: Names, s: string): Option<Addr> {
    var mask := MaskPart(s);
    match n.parse(s[..|s| - |mask|])
    case Some(Addr(V4, v)) => if mask in {"", "/32"} then Some(Addr(V4, v)) else None
    case Some(Addr(V6, v)) => if mask in {"", "/128"} then Some(Addr(V6, v)) else None
    case _ => None
  }

  lemma {:induction false} MaskPartOf(text: string, mask: string)
    requires '/' !in text && (mask == "" || mask[0] == '/')
    ensures MaskPart(text + mask) == mask
  {
    if text == "" {
      assert text + mask == mask;
    } else {
      assert (text + mask)[1..] == text[1..] + mask;
      MaskPartOf(text[1..], mask);
    }
  }

  lemma MaskedIsRead(n: Names, a: Addr, mask: string)
    requires Sound(n) && IsValid(a) && mask in {"", if a.family == V4 then "/32" else "/128"}
    ensures ReadAddress(n, n.text(a) + mask) == Some(a)
  {
    var s := n.text(a) + mask;
    MaskPartOf(n.text(a), mask);
    assert s[..|s| - |mask|] == n.text(a);
  }

  /** What the backend writes for a host is read as its address; it carries a mask for IPv6 only. */
  lemma HostIsRead(n: Names, a: Addr)
    requires Sound(n) && IsValid(a)
    ensures ReadAddress(n, Host(n, a)) == Some(a) && Host(n, a) == n.text(a) + if a.family == V4 then "" else "/128"
  {
    hide Sound, ReadAddress;
    MaskedIsRead(n, a, if a.family == V4 then "" else "/128");
  }

  lemma TextIsRead(n: Names, a: Addr)
    requires Sound(n) && IsValid(a)
    ensures ReadAddress(n, n.text(a)) == Some(a)
  {
    hide Sound, ReadAddress;
    MaskedIsRead(n, a, "");
    assert n.text(a) + "" == n.text(a);
  }

  lemma {:induction false} BeforeMask(s: string)
    ensures s[..|s| - |MaskPart(s)|] == BeforeSlash(s)
  {
    if s != "" && s[0] != '/' {
      BeforeMask(s[1..]);
      assert s[..|s| - |MaskPart(s)|] == [s[0]] + s[1..][..|s| - 1 - |MaskPart(s)|];
    }
  }

  lemma ReadsAsOwn(n: Names, svc: Service, o: Obj, a: Addr)
    requires a in svc.lbIPs && ReadAddress(n, Get(o, "address")) == Some(a)
    ensures OwnEntry(n, svc, o)
  {
    hide Marked, MaskPart, BeforeSlash, Get;
    BeforeMask(Get(o, "address"));
    assert n.parse(BeforeSlash(Get(o, "address"))) == Some(a);
  }

  /** After EnsureService, whatever entry of the shared list the router reads as an address of the service is the service's. */
  lemma EntryIsOwn(n: Names, f: Family, svc: Service, L: Table, id: string, a: Addr)
    requires Sound(n) && LBListed(n, f, svc, L) && forall ip :: ip in svc.lbIPs ==> IsValid(ip)
    requires id in L && Get(L[id], "list") == LB_LIST && a in svc.lbIPs && ReadAddress(n, Get(L[id], "address")) == Some(a)
    ensures Visible(L[id], ENTRY_IGNORED) == Visible(ListEntry(n, svc, LB_LIST, a), ENTRY_IGNORED)
  {
    hide Sound, Fulfilled, Visible, ListEntries, ListEntry, Host, IsValid, ReadAddress, OwnEntry;
    var t := LBListTask(n, svc, ListEntries(n, f, svc, LB_LIST, svc.lbIPs));
    ReadsAsOwn(n, svc, L[id], a);
    assert InScope(t, L[id]);
    FulfilledMeans(L, t);
    var j :| 0 <= j < |t.reqs| && Equal(t, L[id], t.reqs[j]);
    ListEntriesAre(n, f, svc, LB_LIST, svc.lbIPs, t.reqs[j]);
    var ip :| ip in svc.lbIPs && OfFamily(ip, f) && t.reqs[j] == ListEntry(n, svc, LB_LIST, ip);
    EqualGet(t, L[id], t.reqs[j], "address");
    EntryAddress(n, svc, ip);
    HostIsRead(n, ip);
  }

  lemma EntryAddress(n: Names, svc: Service, ip: Addr)
    ensures Get(ListEntry(n, svc, LB_LIST, ip), "address") == Host(n, ip)
  {
    hide Host, Comment;
  }

  /** The protocol of a service's port, and what rules and packets call it. */
  predicate SameProtocol(service: string, wire: string) {
    (service == "TCP" && wire == "tcp") || (service == "UDP" && wire == "udp")
  }

  lemma LowerNames(p: Port, wire: string)
    ensures Balanced(p) && Lower(p.protocol) == wire <==> SameProtocol(p.protocol, wire)
    ensures Lower(p.protocol) in {"tcp", "udp"}
  {
    assert "tcp"[0] != "udp"[0] && "TCP"[0] != "UDP"[0];
  }

  // ---------- what a rule matches ----------

  ghost predicate EntryOf(env: Env, list: string, id: string) {
    id in env.lists && Get(env.lists[id], "list") == list && Get(env.lists[id], "disabled") != "true"
  }

  /** The address has an entry in the list. */
  ghost predicate Listed(env: Env, list: string, a: Addr) {
    exists id :: EntryOf(env, list, id) && ReadAddress(env.n, Get(env.lists[id], "address")) == Some(a)
  }

  /** All entries of the list are other addresses. */
  ghost predicate Unlisted(env: Env, list: string, a: Addr) {
    forall id :: EntryOf(env, list, id) ==> IsAnother(env.n, Get(env.lists[id], "address"), a)
  }

  predicate IsAnother(n: Names, s: string, a: Addr) {
    ReadAddress(n, s).Some? && ReadAddress(n, s) != Some(a)
  }

  /** The matcher is known not to match, whatever the lists hold. */
  predicate Mismatch(n: Names, pkt: Packet, k: string, v: string) {
    || (k == "dst-address" && IsAnother(n, v, pkt.dst))
    || (k == "src-address" && IsAnother(n, v, pkt.src))
    || (k == "dst-port" && ReadNumber(v).Some? && ReadNumber(v) != Some(pkt.port))
    || (k == "protocol" && v != pkt.protocol && v in {"tcp", "udp"})
  }

  ghost predicate ListMismatch(env: Env, k: string, v: string) {
    || (k == "dst-address-list" && Unlisted(env, v, env.pkt.dst))
    || (k == "src-address-list" && Unlisted(env, v, env.pkt.src))
  }

  /** The matcher is known to match. */
  ghost predicate Match(env: Env, k: string, v: string) {
    || (k == "dst-address" && ReadAddress(env.n, v) == Some(env.pkt.dst))
    || (k == "src-address" && ReadAddress(env.n, v) == Some(env.pkt.src))
    || (k == "dst-port" && ReadNumber(v) == Some(env.pkt.port))
    || (k == "protocol" && v == env.pkt.protocol)
    || (k == "dst-address-list" && Listed(env, v, env.pkt.dst))
    || (k == "src-address-list" && Listed(env, v, env.pkt.src))
  }

  /** The answer of a matcher; None if it is not known. */
  ghost function Known(env: Env, k: string, v: string): Option<bool> {
    if Mismatch(env.n, env.pkt, k, v) || ListMismatch(env, k, v) then Some(false)
    else if Match(env, k, v) then Some(true)
    else None
  }

  lemma ListedIsKnown(env: Env, k: string, list: string, a: Addr)
    requires (k == "dst-address-list" && a == env.pkt.dst) || (k == "src-address-list" && a == env.pkt.src)
    ensures Listed(env, list, a) ==> Known(env, k, list) == Some(true)
    ensures Unlisted(env, list, a) ==> Known(env, k, list) == Some(false)
  {
    hide ReadAddress, EntryOf;
    assert "dst-address-list" != "src-address-list" by { assert "dst-address-list"[0] != "src-address-list"[0]; }
  }

  ghost predicate FieldMatches(env: Env, o: Obj, k: string, stack: seq<nat>, i: nat)
    requires k in o
  {
    match Known(env, k, o[k])
    case Some(b) => b
    case None => env.answers(stack, i, k)
  }

  /** Rule i, met after the jumps in `stack`, is in the chain, enabled, and matches the packet. */
  ghost predicate Applies(env: Env, rules: seq<Obj>, chain: string, stack: seq<nat>, i: nat)
    requires i < |rules|
  {
    var o := rules[i];
    && Get(o, "chain") == chain
    && Get(o, "disabled") != "true"
    && forall k :: k in o && k !in PLUMBING ==> FieldMatches(env, o, k, stack, i)
  }

  /** The field with the new address is named differently for IPv4 and IPv6. */
  function NewAddress(n: Names, o: Obj, f: Family): Option<Addr> {
    ReadAddress(n, Get(o, if f == V4 then "to-addresses" else "to-address"))
  }

  function FamilyOf(a: Addr): Family {
    if OfFamily(a, V4) then V4 else V6
  }

  function Redirect(env: Env, o: Obj): Verdict {
    Redirected(NewAddress(env.n, o, FamilyOf(env.pkt.dst)), ReadNumber(Get(o, "to-ports")))
  }

  function Mask(env: Env, o: Obj): Verdict {
    Masked(NewAddress(env.n, o, FamilyOf(env.pkt.src)))
  }

  /** A chain from its i-th rule on. A jump into a chain that decides nothing comes back; `depth` bounds nested jumps. */
  ghost function Run(env: Env, rules: seq<Obj>, chain: string, stack: seq<nat>, i: nat, depth: nat): Verdict
    requires i <= |rules|
    decreases depth, |rules| - i
  {
    if i == |rules| then Passed
    else if !Applies(env, rules, chain, stack, i) then Run(env, rules, chain, stack, i + 1, depth)
    else
      var action := Get(rules[i], "action");
      if action == "jump" then
        if depth == 0 then Decided
        else
          var v := Run(env, rules, Get(rules[i], "jump-target"), stack + [i], 0, depth - 1);
          if v == Passed then Run(env, rules, chain, stack, i + 1, depth) else v
      else if action == "dst-nat" then Redirect(env, rules[i])
      else if action == "src-nat" then Mask(env, rules[i])
      else if action == "return" then Passed
      else if action in HARMLESS then Run(env, rules, chain, stack, i + 1, depth)
      else Decided
  }

  /** What the rules of a port say of the packet's port and protocol. */
  lemma PortIsKnown(env: Env, p: Port)
    ensures Known(env, "dst-port", Decimal(p.port)) == Some(p.port == env.pkt.port)
    ensures Balanced(p) ==> Known(env, "protocol", Lower(p.protocol)) == Some(SameProtocol(p.protocol, env.pkt.protocol))
  {
    hide Decimal, ReadNumber, ReadAddress, Lower, SameProtocol, Balanced, EntryOf;
    DecimalReads(p.port);
    LowerNames(p, env.pkt.protocol);
    assert |"dst-port"| == |"protocol"| == 8 && "dst-port"[0] != "protocol"[0];
    assert |"dst-address"| == 11 && |"src-address"| == 11 && |"dst-address-list"| == 16 && |"src-address-list"| == 16;
  }

  // ---------- chains in general ----------

  /** Entered with this stack, the chain's verdict is acceptable. */
  ghost predicate Gives(env: Env, rules: seq<Obj>, chain: string, stack: seq<nat>, depth: nat, good: iset<Verdict>) {
    Run(env, rules, chain, stack, 0, depth) in good
  }

  ghost predicate AlwaysGives(env: Env, rules: seq<Obj>, chain: string, depth: nat, good: iset<Verdict>) {
    forall stack :: Gives(env, rules, chain, stack, depth, good)
  }

  /** What the rule does by itself is acceptable. */
  ghost predicate Final(env: Env, rules: seq<Obj>, stack: seq<nat>, k: nat, depth: nat, good: iset<Verdict>)
    requires k < |rules|
  {
    || (Get(rules[k], "action") == "dst-nat" && Redirect(env, rules[k]) in good)
    || (Get(rules[k], "action") == "src-nat" && Mask(env, rules[k]) in good)
    || (Get(rules[k], "action") == "jump" && depth > 0 &&
        Run(env, rules, Get(rules[k], "jump-target"), stack + [k], 0, depth - 1) in good)
  }

  /** If some rule applies and all that do are acceptable, so is the verdict. */
  lemma {:induction false} Lands(env: Env, rules: seq<Obj>, chain: string, stack: seq<nat>, i: nat, depth: nat, good: iset<Verdict>, m: nat)
    requires i <= m < |rules| && Applies(env, rules, chain, stack, m) && Passed !in good
    requires forall k :: i <= k < |rules| && Applies(env, rules, chain, stack, k) ==> Final(env, rules, stack, k, depth, good)
    ensures Run(env, rules, chain, stack, i, depth) in good
    decreases m - i
  {
    hide Applies, Redirect, Mask;
    if !Applies(env, rules, chain, stack, i) {
      Lands(env, rules, chain, stack, i + 1, depth, good, m);
    } else {
      assert Final(env, rules, stack, i, depth, good);
    }
  }

  /** The rule lets the packet go on to the next one: it is harmless, or it jumps and comes back. */
  ghost predicate PassesOn(env: Env, rules: seq<Obj>, stack: seq<nat>, k: nat, depth: nat)
    requires k < |rules|
  {
    || Get(rules[k], "action") in HARMLESS
    || (Get(rules[k], "action") == "jump" && depth > 0 &&
        Run(env, rules, Get(rules[k], "jump-target"), stack + [k], 0, depth - 1) == Passed)
  }

  /** If some rule that applies is acceptable, and all others that do pass the packet on, so is the verdict. */
  lemma {:induction false} LandsPast(env: Env, rules: seq<Obj>, chain: string, stack: seq<nat>, i: nat, depth: nat, good: iset<Verdict>, m: nat)
    requires i <= m < |rules| && Passed !in good && Applies(env, rules, chain, stack, m) && Final(env, rules, stack, m, depth, good)
    requires forall k :: i <= k < |rules| && Applies(env, rules, chain, stack, k) ==>
               Final(env, rules, stack, k, depth, good) || PassesOn(env, rules, stack, k, depth)
    ensures Run(env, rules, chain, stack, i, depth) in good
    decreases m - i
  {
    hide Applies, Redirect, Mask;
    if i < m && (!Applies(env, rules, chain, stack, i) || PassesOn(env, rules, stack, i, depth)) {
      LandsPast(env, rules, chain, stack, i + 1, depth, good, m);
    } else {
      assert Final(env, rules, stack, i, depth, good);
    }
  }

  /** If every rule that applies passes the packet on, nothing is decided. */
  lemma {:induction false} ComesBack(env: Env, rules: seq<Obj>, chain: string, stack: seq<nat>, i: nat, depth: nat)
    requires i <= |rules|
    requires forall k :: i <= k < |rules| && Applies(env, rules, chain, stack, k) ==> PassesOn(env, rules, stack, k, depth)
    ensures Run(env, rules, chain, stack, i, depth) == Passed
    decreases |rules| - i
  {
    hide Applies;
    if i < |rules| {
      ComesBack(env, rules, chain, stack, i + 1, depth);
      if Applies(env, rules, chain, stack, i) { assert PassesOn(env, rules, stack, i, depth); }
    }
  }

  // ---------- the backend's rules ----------

  lemma ListedRule(T: Table, rules: seq<Obj>, id: string) returns (m: nat)
    requires Shown(T, map[], rules) && id in T
    ensures m < |rules| && rules[m] == T[id]
  {
    assert T[id] in rules;
    m :| 0 <= m < |rules| && rules[m] == T[id];
  }

  lemma RuleListed(T: Table, rules: seq<Obj>, m: nat) returns (id: string)
    requires Shown(T, map[], rules) && m < |rules|
    ensures id in T && T[id] == rules[m]
  {
    id := Get(rules[m], ID);
  }

  /** Port p of the service is the packet's, and is offered at an address of the family. */
  ghost predicate Target(f: Family, svc: Service, pkt: Packet, p: Port, ip: Addr) {
    Offers(svc.endpoints, p, ip) && OfFamily(ip, f) && p.port == pkt.port && SameProtocol(p.protocol, pkt.protocol)
  }

  ghost function Endpoints(f: Family, svc: Service, pkt: Packet): iset<Verdict> {
    iset p, ip | Target(f, svc, pkt, p, ip) :: Redirected(Some(ip), Some(p.targetPort))
  }

  /** A rule equal to a request applies if the matchers of the request do. */
  lemma EqualApplies(env: Env, rules: seq<Obj>, stack: seq<nat>, i: nat, t: Task, req: Obj)
    requires i < |rules| && t.ignored == RULE_IGNORED && Equal(t, rules[i], req) && Get(req, "disabled") == "false"
    requires forall k :: k in req && k !in PLUMBING ==> Known(env, k, req[k]) == Some(true)
    ensures Applies(env, rules, Get(req, "chain"), stack, i)
  {
    hide Equal, Known;
    EqualGet(t, rules[i], req, "chain");
    EqualGet(t, rules[i], req, "disabled");
    forall k | k in rules[i] && k !in PLUMBING ensures FieldMatches(env, rules[i], k, stack, i) {
      EqualGet(t, rules[i], req, k);
    }
  }

  /** A rule equal to a request with a known field applies only if that field matches. */
  lemma AppliesKnown(env: Env, rules: seq<Obj>, chain: string, stack: seq<nat>, i: nat, t: Task, req: Obj, k: string)
    requires i < |rules| && t.ignored == RULE_IGNORED && Equal(t, rules[i], req) && Applies(env, rules, chain, stack, i)
    requires k in req && k !in PLUMBING && Known(env, k, req[k]).Some?
    ensures Known(env, k, req[k]) == Some(true)
  {
    hide Equal, Known;
    EqualGet(t, rules[i], req, k);
    assert FieldMatches(env, rules[i], k, stack, i);
  }

  lemma AddressFieldOf(a: Addr, f: Family)
    requires OfFamily(a, f)
    ensures AddressField(f) == if FamilyOf(a) == V4 then "to-addresses" else "to-address"
  {
  }

  lemma DNATRuleReads(n: Names, f: Family, svc: Service, p: Port, ip: Addr)
    ensures var o := DNATRule(n, f, svc, p, ip);
            && o.Keys == {"chain", "action", AddressField(f), "to-ports", "protocol", "comment", "disabled", "log"}
            && o["chain"] == PortChain(n, svc.uid, p) && o["action"] == "dst-nat" && o[AddressField(f)] == Host(n, ip)
            && o["to-ports"] == Decimal(p.targetPort) && o["protocol"] == Lower(p.protocol) && o["disabled"] == "false"
  {
    hide PortChain, Host, Decimal, Comment, Lower, PortText, AddrPortText;
  }

  lemma PortRuleReads(n: Names, svc: Service, p: Port)
    ensures var o := PortRule(n, svc, p);
            && o.Keys == {"chain", "action", "jump-target", "dst-port", "protocol", "comment", "disabled", "log"}
            && o["chain"] == ServiceChain(n, svc.uid) && o["action"] == "jump" && o["jump-target"] == PortChain(n, svc.uid, p)
            && o["dst-port"] == Decimal(p.port) && o["protocol"] == Lower(p.protocol) && o["disabled"] == "false"
  {
    hide PortChain, ServiceChain, Decimal, Comment, Lower, PortText;
  }

  /** What a request of a port chain says. */
  lemma SpreadRuleSays(n: Names, f: Family, svc: Service, p: Port, j: nat) returns (q: Port, ip: Addr)
    requires Sound(n) && Balanced(p)
    requires j < |SpreadRules(n, f, svc, PortChain(n, svc.uid, p))|
    ensures Offers(svc.endpoints, q, ip) && Balanced(q) && OfFamily(ip, f) && q.port == p.port && q.protocol == p.protocol
    ensures var rule, plain := SpreadRules(n, f, svc, PortChain(n, svc.uid, p))[j], DNATRule(n, f, svc, q, ip);
            && (forall k :: k != "nth" ==> Lookup(rule, k) == Lookup(plain, k))
            && (j + 1 == |SpreadRules(n, f, svc, PortChain(n, svc.uid, p))| ==> rule == plain)
  {
    hide EndpointsRules, InChain, PortChain, Offers;
    var chain := PortChain(n, svc.uid, p);
    var all := EndpointsRules(n, f, svc, svc.endpoints);
    var plain := InChain(all, chain)[j];
    InChainAre(all, chain, plain);
    EndpointsRulesAre(n, f, svc, svc.endpoints, plain);
    q, ip :| Offers(svc.endpoints, q, ip) && Balanced(q) && OfFamily(ip, f) && plain == DNATRule(n, f, svc, q, ip);
    PortChainsDistinct(n, svc.uid, svc.uid, p, q);
  }

  /** A target port's chain has rules. */
  lemma TargetSpreads(n: Names, f: Family, svc: Service, p: Port, ip: Addr)
    requires Offers(svc.endpoints, p, ip) && Balanced(p) && OfFamily(ip, f)
    ensures InChain(EndpointsRules(n, f, svc, svc.endpoints), PortChain(n, svc.uid, p)) != []
    ensures SpreadRules(n, f, svc, PortChain(n, svc.uid, p)) != []
  {
    hide EndpointsRules, InChain, PortChain, Offers;
    var o := DNATRule(n, f, svc, p, ip);
    EndpointsRulesAre(n, f, svc, svc.endpoints, o);
    InChainAre(EndpointsRules(n, f, svc, svc.endpoints), PortChain(n, svc.uid, p), o);
  }

  /** A rule of a port chain equals one of its requests. */
  lemma InPortChainIsSpread(T: Table, rules: seq<Obj>, f: Family, chain: string, reqs: seq<Obj>, k: nat) returns (j: nat)
    requires Shown(T, map[], rules) && Fulfilled(T, DNATTask(f, chain, reqs))
    requires k < |rules| && Get(rules[k], "chain") == chain
    ensures j < |reqs| && Equal(DNATTask(f, chain, reqs), rules[k], reqs[j])
  {
    hide Shown, Equal;
    var t := DNATTask(f, chain, reqs);
    FulfilledMeans(T, t);
    var id := RuleListed(T, rules, k);
    assert InScope(t, T[id]);
    j :| 0 <= j < |t.reqs| && Equal(t, rules[k], t.reqs[j]);
  }

  /** Every rule of a port chain that applies translates to one of its targets. */
  lemma PortChainFinal(env: Env, T: Table, rules: seq<Obj>, f: Family, svc: Service, p: Port, stack: seq<nat>, k: nat, depth: nat)
    requires Sound(env.n) && ValidEndpoints(svc) && Shown(T, map[], rules) && OfFamily(env.pkt.dst, f)
    requires p.port == env.pkt.port && SameProtocol(p.protocol, env.pkt.protocol)
    requires var c := PortChain(env.n, svc.uid, p); Fulfilled(T, DNATTask(f, c, SpreadRules(env.n, f, svc, c)))
    requires k < |rules| && Applies(env, rules, PortChain(env.n, svc.uid, p), stack, k)
    ensures Final(env, rules, stack, k, depth, Endpoints(f, svc, env.pkt))
  {
    hide Shown, SpreadRules, PortChain, Offers, Host, Decimal, Applies, Equal, DNATRule, Run, Known, Fulfilled, Sound, ReadAddress, ReadNumber, IsValid;
    var chain := PortChain(env.n, svc.uid, p);
    var reqs := SpreadRules(env.n, f, svc, chain);
    var t := DNATTask(f, chain, reqs);
    AppliesInChain(env, rules, chain, stack, k);
    var j := InPortChainIsSpread(T, rules, f, chain, reqs, k);
    var q, ip := SpreadRuleSays(env.n, f, svc, p, j);
    assert Target(f, svc, env.pkt, q, ip);
    var plain := DNATRule(env.n, f, svc, q, ip);
    DNATRuleReads(env.n, f, svc, q, ip);
    RuleReads(t, rules[k], reqs[j], plain, "action");
    RuleReads(t, rules[k], reqs[j], plain, "to-ports");
    RuleReads(t, rules[k], reqs[j], plain, AddressField(f));
    AddressFieldOf(env.pkt.dst, f);
    OfferedIsValid(svc, q, ip);
    HostIsRead(env.n, ip);
    DecimalReads(q.targetPort);
  }

  lemma OfferedIsValid(svc: Service, p: Port, ip: Addr)
    requires ValidEndpoints(svc) && Offers(svc.endpoints, p, ip)
    ensures IsValid(ip)
  {
    hide IsValid;
  }

  lemma RuleReads(t: Task, o: Obj, req: Obj, plain: Obj, k: string)
    requires Equal(t, o, req) && k !in t.ignored && k != "nth" && forall k :: k != "nth" ==> Lookup(req, k) == Lookup(plain, k)
    ensures Get(o, k) == Get(plain, k)
  {
    hide Equal;
    EqualGet(t, o, req, k);
  }

  /** The last rule of a port chain applies, whatever the nth matchers answer. */
  lemma LastRuleApplies(env: Env, T: Table, rules: seq<Obj>, f: Family, svc: Service, p: Port, stack: seq<nat>) returns (m: nat)
    requires Sound(env.n) && Shown(T, map[], rules)
    requires SameProtocol(p.protocol, env.pkt.protocol)
    requires var c := PortChain(env.n, svc.uid, p);
             SpreadRules(env.n, f, svc, c) != [] && Fulfilled(T, DNATTask(f, c, SpreadRules(env.n, f, svc, c)))
    ensures m < |rules| && Applies(env, rules, PortChain(env.n, svc.uid, p), stack, m)
  {
    hide Shown, SpreadRules, PortChain, Offers, Host, Decimal, Equal, Applies, DNATRule, Known, Lower;
    var chain := PortChain(env.n, svc.uid, p);
    var t := DNATTask(f, chain, SpreadRules(env.n, f, svc, chain));
    FulfilledMeans(T, t);
    var j := |t.reqs| - 1;
    var q, ip := SpreadRuleSays(env.n, f, svc, p, j);
    assert Present(T, t, j);
    var id :| id in T && Equal(t, T[id], t.reqs[j]);
    m := ListedRule(T, rules, id);
    DNATRuleReads(env.n, f, svc, q, ip);
    PortIsKnown(env, q);
    EqualApplies(env, rules, stack, m, t, t.reqs[j]);
    SamePortSameChain(env.n, svc.uid, p, q);
  }

  /** A share of every count-th packet, as rules and requests write it. */
  function Share(count: nat, k: nat): string {
    Decimal(count) + "," + Decimal(k)
  }

  function ShareAt(count: nat, j: nat): Option<string> {
    if j + 1 < count then Some(Share(count, j + 1)) else None
  }

  lemma SpreadShare(n: Names, f: Family, svc: Service, chain: string, j: nat)
    requires j < |SpreadRules(n, f, svc, chain)|
    ensures Lookup(SpreadRules(n, f, svc, chain)[j], "nth") == ShareAt(|SpreadRules(n, f, svc, chain)|, j)
  {
    hide EndpointsRules, InChain, Decimal, DNATRule, Offers, PortChain;
    var all := EndpointsRules(n, f, svc, svc.endpoints);
    var plain := InChain(all, chain)[j];
    InChainAre(all, chain, plain);
    EndpointsRulesAre(n, f, svc, svc.endpoints, plain);
    var p, ip :| Offers(svc.endpoints, p, ip) && Balanced(p) && OfFamily(ip, f) && plain == DNATRule(n, f, svc, p, ip);
    DNATRuleReads(n, f, svc, p, ip);
    assert AddressField(f) != "nth" by { assert |"nth"| == 3 && |"to-address"| == 10 && |"to-addresses"| == 12; }
  }

  ghost predicate HasShare(o: Obj, chain: string, share: Option<string>) {
    Get(o, "chain") == chain && Lookup(o, "nth") == share
  }

  lemma ResultShare(T: Table, n: Names, f: Family, svc: Service, chain: string, results: seq<Obj>, j: nat)
    requires Assigned(T, DNATTask(f, chain, SpreadRules(n, f, svc, chain)), results) && j < |results|
    ensures IdAt(results[j]) in T && HasShare(T[IdAt(results[j])], chain, ShareAt(|results|, j))
  {
    hide SpreadRules, Equal, Get, IdAt, ShareAt;
    var t := DNATTask(f, chain, SpreadRules(n, f, svc, chain));
    SpreadShare(n, f, svc, chain, j);
    SpreadInChain(n, f, svc, chain, j);
    EqualGet(t, results[j], t.reqs[j], "nth");
    EqualGet(t, results[j], t.reqs[j], "chain");
  }

  lemma RuleIsResult(T: Table, n: Names, f: Family, svc: Service, chain: string, results: seq<Obj>, id: string, share: Option<string>)
    returns (j: nat)
    requires Assigned(T, DNATTask(f, chain, SpreadRules(n, f, svc, chain)), results) && id in T && HasShare(T[id], chain, share)
    ensures j < |results| && IdAt(results[j]) == id && share == ShareAt(|results|, j)
  {
    hide SpreadRules, Equal, IdAt, ShareAt;
    assert InScope(DNATTask(f, chain, SpreadRules(n, f, svc, chain)), T[id]);
    j :| 0 <= j < |results| && IdAt(results[j]) == id;
    ResultShare(T, n, f, svc, chain, results, j);
  }

  lemma SharesDiffer(count: nat, i: nat, j: nat)
    requires i < count && j < count && ShareAt(count, i) == ShareAt(count, j)
    ensures i == j
  {
    hide Decimal;
    if i + 1 < count && j + 1 < count {
      var front := Decimal(count) + ",";
      assert Share(count, i + 1)[|front|..] == Decimal(i + 1) && Share(count, j + 1)[|front|..] == Decimal(j + 1);
      DecimalInjective(i + 1, j + 1);
    }
  }

  /** The rules of a port chain share its packets: of so many rules, one takes each of the packets 1 to count - 1 of every
      count, and one, without a share, takes what is left. */
  lemma EveryShareOnce(T: Table, n: Names, f: Family, svc: Service, chain: string, share: Option<string>)
    requires SpreadRules(n, f, svc, chain) != [] && Fulfilled(T, DNATTask(f, chain, SpreadRules(n, f, svc, chain)))
    ensures var count := |SpreadRules(n, f, svc, chain)|;
            (exists id :: id in T && HasShare(T[id], chain, share)) <==> share.None? || exists k :: 1 <= k < count && share == Some(Share(count, k))
    ensures forall a, b :: a in T && b in T && HasShare(T[a], chain, share) && HasShare(T[b], chain, share) ==> a == b
  {
    hide SpreadRules, Equal, HasShare, IdAt, Share, InScope;
    var results: seq<Obj> :| Assigned(T, DNATTask(f, chain, SpreadRules(n, f, svc, chain)), results);
    var count := |results|;
    forall a, b | a in T && b in T && HasShare(T[a], chain, share) && HasShare(T[b], chain, share) ensures a == b {
      var i := RuleIsResult(T, n, f, svc, chain, results, a, share);
      var j := RuleIsResult(T, n, f, svc, chain, results, b, share);
      SharesDiffer(count, i, j);
    }
    if id :| id in T && HasShare(T[id], chain, share) {
      var j := RuleIsResult(T, n, f, svc, chain, results, id, share);
    }
    if share.None? { ResultShare(T, n, f, svc, chain, results, count - 1); }
    if k :| 1 <= k < count && share == Some(Share(count, k)) { ResultShare(T, n, f, svc, chain, results, k - 1); }
  }

  lemma SpreadInChain(n: Names, f: Family, svc: Service, chain: string, j: nat)
    requires j < |SpreadRules(n, f, svc, chain)|
    ensures Get(SpreadRules(n, f, svc, chain)[j], "chain") == chain
  {
    hide EndpointsRules, InChain;
    var all := EndpointsRules(n, f, svc, svc.endpoints);
    InChainAre(all, chain, InChain(all, chain)[j]);
  }

  lemma InPortChain(env: Env, T: Table, rules: seq<Obj>, f: Family, svc: Service, p: Port, stack: seq<nat>, depth: nat)
    requires Sound(env.n) && ValidEndpoints(svc) && Shown(T, map[], rules) && OfFamily(env.pkt.dst, f)
    requires p.port == env.pkt.port && SameProtocol(p.protocol, env.pkt.protocol)
    requires var c := PortChain(env.n, svc.uid, p);
             SpreadRules(env.n, f, svc, c) != [] && Fulfilled(T, DNATTask(f, c, SpreadRules(env.n, f, svc, c)))
    ensures Run(env, rules, PortChain(env.n, svc.uid, p), stack, 0, depth) in Endpoints(f, svc, env.pkt)
  {
    hide Shown, SpreadRules, PortChain, Applies, Final, Run, Fulfilled, ValidEndpoints;
    var m := LastRuleApplies(env, T, rules, f, svc, p, stack);
    forall k | 0 <= k < |rules| && Applies(env, rules, PortChain(env.n, svc.uid, p), stack, k)
      ensures Final(env, rules, stack, k, depth, Endpoints(f, svc, env.pkt)) {
      PortChainFinal(env, T, rules, f, svc, p, stack, k, depth);
    }
    Lands(env, rules, PortChain(env.n, svc.uid, p), stack, 0, depth, Endpoints(f, svc, env.pkt), m);
  }

  // ---------- the service chain ----------

  /** A rule of the service chain is the rule of some port. */
  lemma InChainIsPortRule(env: Env, T: Table, rules: seq<Obj>, svc: Service, portReqs: seq<Obj>, k: nat) returns (p: Port)
    requires Shown(T, map[], rules) && PortRequests(env.n, svc, portReqs)
    requires Fulfilled(T, PortTask(env.n, svc.uid, portReqs))
    requires k < |rules| && Get(rules[k], "chain") == ServiceChain(env.n, svc.uid)
    ensures HasPort(svc.endpoints, p) && Balanced(p)
    ensures Equal(PortTask(env.n, svc.uid, portReqs), rules[k], PortRule(env.n, svc, p))
  {
    hide Shown, HasPort, Equal, PortRule, ServiceChain;
    var t := PortTask(env.n, svc.uid, portReqs);
    FulfilledMeans(T, t);
    var id := RuleListed(T, rules, k);
    assert InScope(t, T[id]);
    var j :| 0 <= j < |t.reqs| && Equal(t, rules[k], t.reqs[j]);
    assert t.reqs[j] in portReqs;
    p :| HasPort(svc.endpoints, p) && Balanced(p) && t.reqs[j] == PortRule(env.n, svc, p);
  }

  /** If it applies, that is the packet's port. */
  lemma PortRuleApplies(env: Env, T: Table, rules: seq<Obj>, svc: Service, portReqs: seq<Obj>, stack: seq<nat>, k: nat) returns (p: Port)
    requires Sound(env.n) && Shown(T, map[], rules) && PortRequests(env.n, svc, portReqs)
    requires Fulfilled(T, PortTask(env.n, svc.uid, portReqs))
    requires k < |rules| && Applies(env, rules, ServiceChain(env.n, svc.uid), stack, k)
    ensures HasPort(svc.endpoints, p) && p.port == env.pkt.port && SameProtocol(p.protocol, env.pkt.protocol)
    ensures Get(rules[k], "action") == "jump" && Get(rules[k], "jump-target") == PortChain(env.n, svc.uid, p)
  {
    hide Shown, PortChain, HasPort, Decimal, Applies, Equal, Lower, PortRule, ServiceChain, Fulfilled, PortRequests, Sound, Known, SameProtocol;
    AppliesInChain(env, rules, ServiceChain(env.n, svc.uid), stack, k);
    p := InChainIsPortRule(env, T, rules, svc, portReqs, k);
    var t, req := PortTask(env.n, svc.uid, portReqs), PortRule(env.n, svc, p);
    PortRuleReads(env.n, svc, p);
    EqualGet(t, rules[k], req, "action");
    EqualGet(t, rules[k], req, "jump-target");
    PortIsKnown(env, p);
    AppliesKnown(env, rules, ServiceChain(env.n, svc.uid), stack, k, t, req, "dst-port");
    AppliesKnown(env, rules, ServiceChain(env.n, svc.uid), stack, k, t, req, "protocol");
  }

  lemma AppliesInChain(env: Env, rules: seq<Obj>, chain: string, stack: seq<nat>, k: nat)
    requires k < |rules| && Applies(env, rules, chain, stack, k)
    ensures Get(rules[k], "chain") == chain
  {
  }

  /** The rule of an offered port applies. */
  lemma PortRulePresent(env: Env, T: Table, rules: seq<Obj>, svc: Service, portReqs: seq<Obj>, p: Port, stack: seq<nat>) returns (m: nat)
    requires Shown(T, map[], rules) && PortRequests(env.n, svc, portReqs)
    requires Fulfilled(T, PortTask(env.n, svc.uid, portReqs))
    requires HasPort(svc.endpoints, p) && p.port == env.pkt.port && SameProtocol(p.protocol, env.pkt.protocol)
    ensures m < |rules| && Applies(env, rules, ServiceChain(env.n, svc.uid), stack, m)
  {
    hide Shown, PortChain, HasPort, Decimal, Applies, Equal, Lower, ServiceChain, PortRule, Known;
    PortIsKnown(env, p);
    var t := PortTask(env.n, svc.uid, portReqs);
    FulfilledMeans(T, t);
    var req := PortRule(env.n, svc, p);
    assert req in portReqs;
    var j :| 0 <= j < |portReqs| && portReqs[j] == req;
    assert Present(T, t, j);
    var id :| id in T && Equal(t, T[id], req);
    m := ListedRule(T, rules, id);
    PortRuleReads(env.n, svc, p);
    EqualApplies(env, rules, stack, m, t, req);
  }

  lemma InServiceChain(env: Env, T: Table, rules: seq<Obj>, f: Family, svc: Service, portReqs: seq<Obj>, p: Port, ip: Addr, stack: seq<nat>, depth: nat)
    requires Sound(env.n) && ValidEndpoints(svc) && Shown(T, map[], rules) && OfFamily(env.pkt.dst, f) && Programmed(env.n, f, svc, T, portReqs)
    requires Target(f, svc, env.pkt, p, ip) && depth >= 1
    ensures Run(env, rules, ServiceChain(env.n, svc.uid), stack, 0, depth) in Endpoints(f, svc, env.pkt)
  {
    hide Shown, PortChain, HasPort, Applies, Fulfilled, Run, Offers, ServiceChain, SpreadRules, PortRequests, InChain, ValidEndpoints;
    OffersPort(svc.endpoints, p, ip);
    LowerNames(p, env.pkt.protocol);
    TargetSpreads(env.n, f, svc, p, ip);
    var m := PortRulePresent(env, T, rules, svc, portReqs, p, stack);
    forall k | 0 <= k < |rules| && Applies(env, rules, ServiceChain(env.n, svc.uid), stack, k)
      ensures Final(env, rules, stack, k, depth, Endpoints(f, svc, env.pkt)) {
      var q := PortRuleApplies(env, T, rules, svc, portReqs, stack, k);
      assert p.protocol == q.protocol by { SameProtocolOnce(p.protocol, q.protocol, env.pkt.protocol); }
      SamePortSameChain(env.n, svc.uid, p, q);
      InPortChain(env, T, rules, f, svc, p, stack + [k], depth - 1);
    }
    Lands(env, rules, ServiceChain(env.n, svc.uid), stack, 0, depth, Endpoints(f, svc, env.pkt), m);
  }

  lemma SameProtocolOnce(a: string, b: string, wire: string)
    requires SameProtocol(a, wire) && SameProtocol(b, wire)
    ensures a == b
  {
    assert "tcp"[0] != "udp"[0];
  }

  /** No port of the service is the packet's. */
  ghost predicate NoSuchPort(svc: Service, pkt: Packet) {
    forall p :: HasPort(svc.endpoints, p) ==> p.port != pkt.port || !SameProtocol(p.protocol, pkt.protocol)
  }

  /** A packet to another port falls through the service chain. */
  lemma OtherPortsFallThrough(env: Env, T: Table, rules: seq<Obj>, svc: Service, portReqs: seq<Obj>, stack: seq<nat>, depth: nat)
    requires Sound(env.n) && Shown(T, map[], rules) && PortRequests(env.n, svc, portReqs)
    requires Fulfilled(T, PortTask(env.n, svc.uid, portReqs)) && NoSuchPort(svc, env.pkt)
    ensures Run(env, rules, ServiceChain(env.n, svc.uid), stack, 0, depth) == Passed
  {
    hide Shown, HasPort, Applies, Fulfilled, Run, ServiceChain, PortRequests, Final;
    forall k | 0 <= k < |rules| ensures !Applies(env, rules, ServiceChain(env.n, svc.uid), stack, k) {
      if Applies(env, rules, ServiceChain(env.n, svc.uid), stack, k) {
        var q := PortRuleApplies(env, T, rules, svc, portReqs, stack, k);
        assert false;
      }
    }
    ComesBack(env, rules, ServiceChain(env.n, svc.uid), stack, 0, depth);
  }

  // ---------- from the router's own chain to the service ----------

  /** A rule that does not apply to the packet, whatever the matchers that are not modelled answer. */
  ghost predicate NeverApplies(n: Names, pkt: Packet, o: Obj) {
    Get(o, "disabled") == "true" || exists k :: k in o && k !in PLUMBING && Mismatch(n, pkt, k, o[k])
  }

  lemma NeverQuiet(env: Env, rules: seq<Obj>, chain: string, stack: seq<nat>, i: nat)
    requires i < |rules| && NeverApplies(env.n, env.pkt, rules[i])
    ensures !Applies(env, rules, chain, stack, i)
  {
    hide Mismatch, Match;
    if Get(rules[i], "disabled") != "true" {
      var k :| k in rules[i] && k !in PLUMBING && Mismatch(env.n, env.pkt, k, rules[i][k]);
      assert !FieldMatches(env, rules[i], k, stack, i);
    }
  }

  predicate JumpsTo(o: Obj, chain: string) {
    Get(o, "action") == "jump" && Get(o, "jump-target") == chain
  }

  /** What applies to the packet in dstnat leads to the connection chain, and what applies there leads to the service;
      or it passes the packet on. */
  ghost predicate NothingInTheWay(env: Env, rules: seq<Obj>, svc: Service, depth: nat)
    requires depth >= 1
  {
    && (forall k :: 0 <= k < |rules| && Applies(env, rules, "dstnat", [], k) ==>
          JumpsTo(rules[k], DNAT_CHAIN) || PassesOn(env, rules, [], k, depth))
    && (forall j, k :: 0 <= j < |rules| && 0 <= k < |rules| && Applies(env, rules, DNAT_CHAIN, [j], k) ==>
          JumpsTo(rules[k], ServiceChain(env.n, svc.uid)) || PassesOn(env, rules, [j], k, depth - 1))
  }

  /** The rule leads to the chain, never applies, or is harmless. */
  ghost predicate OutOfTheWay(n: Names, pkt: Packet, o: Obj, chain: string) {
    JumpsTo(o, chain) || NeverApplies(n, pkt, o) || Get(o, "action") in HARMLESS
  }

  /** The same of a table, rule by rule. */
  ghost predicate ClearWay(n: Names, pkt: Packet, svc: Service, T: Table) {
    && (forall id :: id in T && Get(T[id], "chain") == DNAT_CHAIN ==> OutOfTheWay(n, pkt, T[id], ServiceChain(n, svc.uid)))
    && (forall id :: id in T && Get(T[id], "chain") == "dstnat" ==> OutOfTheWay(n, pkt, T[id], DNAT_CHAIN))
  }

  lemma OutOfTheWayPasses(env: Env, rules: seq<Obj>, chain: string, stack: seq<nat>, k: nat, target: string, depth: nat)
    requires k < |rules| && OutOfTheWay(env.n, env.pkt, rules[k], target) && Applies(env, rules, chain, stack, k)
    ensures JumpsTo(rules[k], target) || PassesOn(env, rules, stack, k, depth)
  {
    hide NeverApplies, Applies, Run;
    if NeverApplies(env.n, env.pkt, rules[k]) { NeverQuiet(env, rules, chain, stack, k); }
  }

  lemma ClearIsNotInTheWay(env: Env, T: Table, rules: seq<Obj>, svc: Service, depth: nat)
    requires Shown(T, map[], rules) && ClearWay(env.n, env.pkt, svc, T) && depth >= 1
    ensures NothingInTheWay(env, rules, svc, depth)
  {
    hide Shown, OutOfTheWay, Applies, ServiceChain, JumpsTo, PassesOn;
    forall k | 0 <= k < |rules| && Applies(env, rules, "dstnat", [], k)
      ensures JumpsTo(rules[k], DNAT_CHAIN) || PassesOn(env, rules, [], k, depth) {
      AppliesInChain(env, rules, "dstnat", [], k);
      var id := RuleListed(T, rules, k);
      OutOfTheWayPasses(env, rules, "dstnat", [], k, DNAT_CHAIN, depth);
    }
    forall j, k | 0 <= j < |rules| && 0 <= k < |rules| && Applies(env, rules, DNAT_CHAIN, [j], k)
      ensures JumpsTo(rules[k], ServiceChain(env.n, svc.uid)) || PassesOn(env, rules, [j], k, depth - 1) {
      AppliesInChain(env, rules, DNAT_CHAIN, [j], k);
      var id := RuleListed(T, rules, k);
      OutOfTheWayPasses(env, rules, DNAT_CHAIN, [j], k, ServiceChain(env.n, svc.uid), depth - 1);
    }
  }

  lemma ServiceRuleReads(n: Names, svc: Service, ip: Addr)
    ensures var o := ServiceRule(n, svc, ip);
            && o.Keys == {"chain", "action", "jump-target", "dst-address", "comment", "disabled", "log"}
            && o["chain"] == DNAT_CHAIN && o["dst-address"] == Host(n, ip) && o["disabled"] == "false"
            && JumpsTo(o, ServiceChain(n, svc.uid))
  {
    hide ServiceChain, Host, Comment;
  }

  lemma ConnectionRuleReads()
    ensures var o := ConnectionRule();
            && o.Keys == {"chain", "action", "jump-target", "dst-address-list", "comment", "disabled", "log"}
            && o["chain"] == "dstnat" && o["dst-address-list"] == LB_LIST && o["disabled"] == "false" && JumpsTo(o, DNAT_CHAIN)
  {
  }

  lemma EqualJumps(t: Task, o: Obj, req: Obj, chain: string)
    requires t.ignored == RULE_IGNORED && Equal(t, o, req) && JumpsTo(req, chain)
    ensures JumpsTo(o, chain)
  {
    hide Equal;
    EqualGet(t, o, req, "action");
    EqualGet(t, o, req, "jump-target");
  }

  /** The service's rule for the packet's address applies. */
  lemma ServiceRulePresent(env: Env, T: Table, rules: seq<Obj>, f: Family, svc: Service, stack: seq<nat>) returns (m: nat)
    requires Sound(env.n) && Shown(T, map[], rules) && OfFamily(env.pkt.dst, f) && env.pkt.dst in svc.lbIPs && IsValid(env.pkt.dst)
    requires Fulfilled(T, ServiceTask(env.n, svc.uid, ServiceRules(env.n, f, svc, svc.lbIPs)))
    ensures m < |rules| && Applies(env, rules, DNAT_CHAIN, stack, m) && JumpsTo(rules[m], ServiceChain(env.n, svc.uid))
  {
    hide Sound, Shown, Applies, Equal, Host, ServiceChain, ServiceRules, ServiceRule, JumpsTo, Fulfilled, ReadAddress, ReadNumber, IsValid;
    HostIsRead(env.n, env.pkt.dst);
    var t := ServiceTask(env.n, svc.uid, ServiceRules(env.n, f, svc, svc.lbIPs));
    FulfilledMeans(T, t);
    var req := ServiceRule(env.n, svc, env.pkt.dst);
    ServiceRulesAre(env.n, f, svc, svc.lbIPs, req);
    var j :| 0 <= j < |t.reqs| && t.reqs[j] == req;
    assert Present(T, t, j);
    var id :| id in T && Equal(t, T[id], req);
    m := ListedRule(T, rules, id);
    ServiceRuleReads(env.n, svc, env.pkt.dst);
    EqualApplies(env, rules, stack, m, t, req);
    EqualJumps(t, rules[m], req, ServiceChain(env.n, svc.uid));
  }

  lemma ConnectionRulePresent(env: Env, T: Table, rules: seq<Obj>, stack: seq<nat>) returns (m: nat)
    requires Shown(T, map[], rules) && Fulfilled(T, ConnectionTask()) && Listed(env, LB_LIST, env.pkt.dst)
    ensures m < |rules| && Applies(env, rules, "dstnat", stack, m) && JumpsTo(rules[m], DNAT_CHAIN)
  {
    hide Shown, Applies, Equal, Listed, JumpsTo, ConnectionRule, Fulfilled, Known;
    ListedIsKnown(env, "dst-address-list", LB_LIST, env.pkt.dst);
    var t := ConnectionTask();
    FulfilledMeans(T, t);
    assert Present(T, t, 0);
    var id :| id in T && Equal(t, T[id], t.reqs[0]);
    m := ListedRule(T, rules, id);
    ConnectionRuleReads();
    EqualApplies(env, rules, stack, m, t, t.reqs[0]);
    EqualJumps(t, rules[m], t.reqs[0], DNAT_CHAIN);
  }

  /** What the service chain makes of the packet, the connection chain makes of it. */
  lemma ThroughConnectionChain(env: Env, T: Table, rules: seq<Obj>, f: Family, svc: Service, j: nat, depth: nat, good: iset<Verdict>)
    requires Sound(env.n) && Shown(T, map[], rules) && OfFamily(env.pkt.dst, f) && env.pkt.dst in svc.lbIPs && IsValid(env.pkt.dst)
    requires j < |rules| && Passed !in good
    requires Fulfilled(T, ServiceTask(env.n, svc.uid, ServiceRules(env.n, f, svc, svc.lbIPs)))
    requires depth >= 2 && NothingInTheWay(env, rules, svc, depth)
    requires AlwaysGives(env, rules, ServiceChain(env.n, svc.uid), depth - 2, good)
    ensures Run(env, rules, DNAT_CHAIN, [j], 0, depth - 1) in good
  {
    hide Sound, IsValid, Shown, Applies, Run, ServiceChain, ServiceRules, Fulfilled, PassesOn;
    var m := ServiceRulePresent(env, T, rules, f, svc, [j]);
    forall k | 0 <= k < |rules| && JumpsTo(rules[k], ServiceChain(env.n, svc.uid)) ensures Final(env, rules, [j], k, depth - 1, good) {
      assert Gives(env, rules, ServiceChain(env.n, svc.uid), [j] + [k], depth - 2, good);
    }
    LandsPast(env, rules, DNAT_CHAIN, [j], 0, depth - 1, good, m);
  }

  /** With the rules of Setup and of EnsureService in place, a packet to a load balancer IP of the service on a port that
      has an endpoint of the family goes to an endpoint of that port, whatever the nth matchers answer, in whatever
      order the rules are listed, past foreign rules that pass it on, and however many nested jumps the router follows
      beyond three. */
  lemma PacketsReachEndpoints(env: Env, T: Table, rules: seq<Obj>, f: Family, svc: Service, portReqs: seq<Obj>, p: Port, ip: Addr, depth: nat)
    requires Sound(env.n) && OfFamily(env.pkt.dst, f) && env.pkt.dst in svc.lbIPs && IsValid(env.pkt.dst) && ValidEndpoints(svc)
    requires Shown(T, map[], rules) && Fulfilled(T, ConnectionTask()) && Programmed(env.n, f, svc, T, portReqs)
    requires depth >= 3 && Listed(env, LB_LIST, env.pkt.dst) && NothingInTheWay(env, rules, svc, depth)
    requires Target(f, svc, env.pkt, p, ip)
    ensures Run(env, rules, "dstnat", [], 0, depth) in Endpoints(f, svc, env.pkt)
  {
    hide Sound, IsValid, ValidEndpoints, Shown, Applies, Fulfilled, Run, ServiceChain, ServiceRules, Listed, Target, PortRequests, Spread, PassesOn;
    var good, d: nat := Endpoints(f, svc, env.pkt), depth - 2;
    forall s ensures Gives(env, rules, ServiceChain(env.n, svc.uid), s, d, good) {
      InServiceChain(env, T, rules, f, svc, portReqs, p, ip, s, d);
    }
    var m := ConnectionRulePresent(env, T, rules, []);
    forall k | 0 <= k < |rules| && JumpsTo(rules[k], DNAT_CHAIN) ensures Final(env, rules, [], k, depth, good) {
      assert [] + [k] == [k];
      ThroughConnectionChain(env, T, rules, f, svc, k, depth, good);
    }
    LandsPast(env, rules, "dstnat", [], 0, depth, good, m);
  }

  /** If nothing is in a chain, it passes every packet. */
  lemma EmptyPasses(env: Env, rules: seq<Obj>, chain: string, stack: seq<nat>, depth: nat)
    requires forall k :: 0 <= k < |rules| ==> Get(rules[k], "chain") != chain
    ensures Run(env, rules, chain, stack, 0, depth) == Passed
  {
    hide Applies, Run;
    forall k | 0 <= k < |rules| ensures !Applies(env, rules, chain, stack, k) {
      if Applies(env, rules, chain, stack, k) { AppliesInChain(env, rules, chain, stack, k); }
    }
    ComesBack(env, rules, chain, stack, 0, depth);
  }

  /** If the service chain passes the packet, destination NAT leaves it alone altogether. */
  lemma PassesThrough(env: Env, rules: seq<Obj>, svc: Service, depth: nat)
    requires depth >= 3 && NothingInTheWay(env, rules, svc, depth)
    requires AlwaysGives(env, rules, ServiceChain(env.n, svc.uid), depth - 2, iset{Passed})
    ensures Run(env, rules, "dstnat", [], 0, depth) == Passed
  {
    hide Applies, Run, ServiceChain;
    forall j | 0 <= j < |rules| ensures Run(env, rules, DNAT_CHAIN, [] + [j], 0, depth - 1) == Passed {
      assert [] + [j] == [j];
      forall k | 0 <= k < |rules| && Applies(env, rules, DNAT_CHAIN, [j], k) ensures PassesOn(env, rules, [j], k, depth - 1) {
        assert Gives(env, rules, ServiceChain(env.n, svc.uid), [j] + [k], depth - 2, iset{Passed});
      }
      ComesBack(env, rules, DNAT_CHAIN, [j], 0, depth - 1);
    }
    ComesBack(env, rules, "dstnat", [], 0, depth);
  }

  /** A packet to another port of such an address is left alone by the destination NAT altogether. */
  lemma OtherPortsPass(env: Env, T: Table, rules: seq<Obj>, f: Family, svc: Service, portReqs: seq<Obj>, depth: nat)
    requires Sound(env.n) && Shown(T, map[], rules) && Programmed(env.n, f, svc, T, portReqs)
    requires depth >= 3 && NothingInTheWay(env, rules, svc, depth) && NoSuchPort(svc, env.pkt)
    ensures Run(env, rules, "dstnat", [], 0, depth) == Passed
  {
    hide Sound, Shown, Fulfilled, Run, ServiceChain, ServiceRules, NoSuchPort, PortRequests, Spread, NothingInTheWay;
    var d: nat := depth - 2;
    forall s ensures Gives(env, rules, ServiceChain(env.n, svc.uid), s, d, iset{Passed}) {
      OtherPortsFallThrough(env, T, rules, svc, portReqs, s, d);
    }
    PassesThrough(env, rules, svc, depth);
  }
}
