/** What the source NAT part of the program does to packets, by itself and over whole runs. */
module SourceNAT {
  import opened Net
  import opened Router
  import opened Matching
  import opened Services
  import opened Programs
  import opened Tasks
  import opened Backend
  import opened Firewall
  import opened Lifecycle

  // ---------- the list of sources ----------

  /** The address is one of the service's endpoints. */
  predicate IsSource(svc: Service, a: Addr) {
    exists i :: 0 <= i < |svc.endpoints| && a in svc.endpoints[i].ips
  }

  /** The address that packets of the family are to leave with. */
  function SourceIP(svc: Service, f: Family): Addr {
    match f
    case V4 => svc.snatIPv4
    case V6 => svc.snatIPv6
  }

  lemma ListEntryReads(n: Names, svc: Service, list: string, a: Addr)
    ensures var o := ListEntry(n, svc, list, a); Get(o, "list") == list && Get(o, "address") == Host(n, a) && Get(o, "disabled") == "false"
  {
    hide Host, Comment;
  }

  /** An entry of the list, as the router reads it, is an endpoint of the family. */
  lemma EntryIsSource(env: Env, f: Family, svc: Service, id: string) returns (a: Addr)
    requires Sound(env.n) && ValidEndpoints(svc)
    requires Fulfilled(env.lists, SourceListTask(env.n, svc.uid, SourceEntries(env.n, f, svc, svc.endpoints)))
    requires EntryOf(env, SourceList(env.n, svc.uid), id)
    ensures IsSource(svc, a) && ReadAddress(env.n, Get(env.lists[id], "address")) == Some(a)
  {
    hide Sound, Fulfilled, Equal, SourceEntries, SourceList, ReadAddress, Host, IsValid, ListEntry;
    var t := SourceListTask(env.n, svc.uid, SourceEntries(env.n, f, svc, svc.endpoints));
    FulfilledMeans(env.lists, t);
    assert InScope(t, env.lists[id]);
    var j :| 0 <= j < |t.reqs| && Equal(t, env.lists[id], t.reqs[j]);
    SourceEntriesAre(env.n, f, svc, svc.endpoints, t.reqs[j]);
    var i, ip :| 0 <= i < |svc.endpoints| && ip in svc.endpoints[i].ips && OfFamily(ip, f) &&
      t.reqs[j] == ListEntry(env.n, svc, SourceList(env.n, svc.uid), ip);
    EqualGet(t, env.lists[id], t.reqs[j], "address");
    ListEntryReads(env.n, svc, SourceList(env.n, svc.uid), ip);
    HostIsRead(env.n, ip);
    a := ip;
  }

  /** Every endpoint of the family has an entry. */
  lemma SourceHasEntry(env: Env, f: Family, svc: Service, a: Addr)
    requires Sound(env.n) && ValidEndpoints(svc) && IsSource(svc, a) && OfFamily(a, f)
    requires Fulfilled(env.lists, SourceListTask(env.n, svc.uid, SourceEntries(env.n, f, svc, svc.endpoints)))
    ensures Listed(env, SourceList(env.n, svc.uid), a)
  {
    hide Sound, Fulfilled, Equal, SourceEntries, SourceList, ReadAddress, Host, IsValid, ListEntry;
    var list := SourceList(env.n, svc.uid);
    var t := SourceListTask(env.n, svc.uid, SourceEntries(env.n, f, svc, svc.endpoints));
    FulfilledMeans(env.lists, t);
    var entry := ListEntry(env.n, svc, list, a);
    SourceEntriesAre(env.n, f, svc, svc.endpoints, entry);
    var j :| 0 <= j < |t.reqs| && t.reqs[j] == entry;
    assert Present(env.lists, t, j);
    var id :| id in env.lists && Equal(t, env.lists[id], entry);
    ListEntryReads(env.n, svc, list, a);
    EqualGet(t, env.lists[id], entry, "list");
    EqualGet(t, env.lists[id], entry, "disabled");
    EqualGet(t, env.lists[id], entry, "address");
    HostIsRead(env.n, a);
    assert EntryOf(env, list, id);
  }

  /** So whether a source is in the list is known either way. */
  lemma SourceIsKnown(env: Env, f: Family, svc: Service)
    requires Sound(env.n) && ValidEndpoints(svc) && OfFamily(env.pkt.src, f)
    requires Fulfilled(env.lists, SourceListTask(env.n, svc.uid, SourceEntries(env.n, f, svc, svc.endpoints)))
    ensures Known(env, "src-address-list", SourceList(env.n, svc.uid)) == Some(IsSource(svc, env.pkt.src))
  {
    hide Sound, ValidEndpoints, Fulfilled, SourceEntries, SourceList, ReadAddress, Known;
    var list := SourceList(env.n, svc.uid);
    if IsSource(svc, env.pkt.src) {
      SourceHasEntry(env, f, svc, env.pkt.src);
    } else {
      forall id | EntryOf(env, list, id) ensures IsAnother(env.n, Get(env.lists[id], "address"), env.pkt.src) {
        var a := EntryIsSource(env, f, svc, id);
      }
    }
    ListedIsKnown(env, "src-address-list", list, env.pkt.src);
  }

  // ---------- the service's rule ----------

  lemma SNATRuleReads(n: Names, f: Family, svc: Service)
    ensures var o := SNATRule(n, f, svc);
            && o.Keys == {"chain", "action", "src-address-list", AddressField(f), "comment", "disabled", "log"}
            && o["chain"] == SNAT_CHAIN && o["action"] == "src-nat" && o["src-address-list"] == SourceList(n, svc.uid)
            && o[AddressField(f)] == n.text(SourceIP(svc, f)) && o["disabled"] == "false"
  {
    hide SourceList, Comment;
  }

  /** A rule for the service's list in the source NAT chain is the service's. */
  lemma IsSNATRule(env: Env, T: Table, rules: seq<Obj>, f: Family, svc: Service, k: nat)
    requires Shown(T, map[], rules) && Fulfilled(T, SNATTask(env.n, f, svc.uid, SNATRules(env.n, f, svc)))
    requires k < |rules| && Get(rules[k], "chain") == SNAT_CHAIN && Get(rules[k], "src-address-list") == SourceList(env.n, svc.uid)
    ensures SourceIP(svc, f).Addr? && Equal(SNATTask(env.n, f, svc.uid, SNATRules(env.n, f, svc)), rules[k], SNATRule(env.n, f, svc))
  {
    hide Shown, Fulfilled, Equal, SNATRule, SourceList, Get;
    var t := SNATTask(env.n, f, svc.uid, SNATRules(env.n, f, svc));
    FulfilledMeans(T, t);
    var id := RuleListed(T, rules, k);
    assert InScope(t, T[id]);
    var j :| 0 <= j < |t.reqs| && Equal(t, rules[k], t.reqs[j]);
  }

  /** It gives packets the service's address. */
  lemma SNATRuleMasks(env: Env, rules: seq<Obj>, f: Family, svc: Service, k: nat)
    requires Sound(env.n) && OfFamily(env.pkt.src, f) && IsValid(SourceIP(svc, f))
    requires k < |rules| && Equal(SNATTask(env.n, f, svc.uid, SNATRules(env.n, f, svc)), rules[k], SNATRule(env.n, f, svc))
    ensures Get(rules[k], "action") == "src-nat" && Mask(env, rules[k]) == Masked(Some(SourceIP(svc, f)))
  {
    hide Sound, Equal, SNATRule, SourceList, ReadAddress, IsValid;
    var t, req := SNATTask(env.n, f, svc.uid, SNATRules(env.n, f, svc)), SNATRule(env.n, f, svc);
    SNATRuleReads(env.n, f, svc);
    EqualGet(t, rules[k], req, "action");
    EqualGet(t, rules[k], req, AddressField(f));
    AddressFieldOf(env.pkt.src, f);
    TextIsRead(env.n, SourceIP(svc, f));
  }

  /** It applies exactly to the packets of the service's endpoints. */
  lemma SNATRuleAppliesIff(env: Env, rules: seq<Obj>, f: Family, svc: Service, stack: seq<nat>, k: nat)
    requires Sound(env.n) && ValidEndpoints(svc) && OfFamily(env.pkt.src, f)
    requires Fulfilled(env.lists, SourceListTask(env.n, svc.uid, SourceEntries(env.n, f, svc, svc.endpoints)))
    requires k < |rules| && Equal(SNATTask(env.n, f, svc.uid, SNATRules(env.n, f, svc)), rules[k], SNATRule(env.n, f, svc))
    ensures Applies(env, rules, SNAT_CHAIN, stack, k) <==> IsSource(svc, env.pkt.src)
  {
    hide Sound, ValidEndpoints, Fulfilled, SourceEntries, Equal, SNATRule, SourceList, Known, Applies;
    var t, req := SNATTask(env.n, f, svc.uid, SNATRules(env.n, f, svc)), SNATRule(env.n, f, svc);
    SNATRuleReads(env.n, f, svc);
    SourceIsKnown(env, f, svc);
    if IsSource(svc, env.pkt.src) {
      EqualApplies(env, rules, stack, k, t, req);
    } else if Applies(env, rules, SNAT_CHAIN, stack, k) {
      AppliesKnown(env, rules, SNAT_CHAIN, stack, k, t, req, "src-address-list");
    }
  }

  lemma SNATRulePresent(env: Env, T: Table, rules: seq<Obj>, f: Family, svc: Service) returns (m: nat)
    requires Shown(T, map[], rules) && SourceIP(svc, f).Addr? && Fulfilled(T, SNATTask(env.n, f, svc.uid, SNATRules(env.n, f, svc)))
    ensures m < |rules| && Equal(SNATTask(env.n, f, svc.uid, SNATRules(env.n, f, svc)), rules[m], SNATRule(env.n, f, svc))
  {
    hide Shown, Fulfilled, Equal, SNATRule, SourceList;
    var t := SNATTask(env.n, f, svc.uid, SNATRules(env.n, f, svc));
    FulfilledMeans(T, t);
    assert t.reqs == [SNATRule(env.n, f, svc)];
    assert Present(T, t, 0);
    var id :| id in T && Equal(t, T[id], t.reqs[0]);
    m := ListedRule(T, rules, id);
  }

  // ---------- from the router's own chain to the rule ----------

  lemma SourceJumpReads()
    ensures var o := SourceJumpRule();
            && o.Keys == {"chain", "action", "jump-target", "comment", "disabled", "log"}
            && o["chain"] == "srcnat" && o["disabled"] == "false" && JumpsTo(o, SNAT_CHAIN)
  {
  }

  /** Setup's rule applies to every packet. */
  lemma SourceJumpPresent(env: Env, T: Table, rules: seq<Obj>, stack: seq<nat>) returns (m: nat)
    requires Shown(T, map[], rules) && Fulfilled(T, SourceJumpTask())
    ensures m < |rules| && Applies(env, rules, "srcnat", stack, m) && JumpsTo(rules[m], SNAT_CHAIN)
  {
    hide Shown, Applies, Equal, JumpsTo, SourceJumpRule, Fulfilled, Known;
    var t := SourceJumpTask();
    FulfilledMeans(T, t);
    assert Present(T, t, 0);
    var id :| id in T && Equal(t, T[id], t.reqs[0]);
    m := ListedRule(T, rules, id);
    SourceJumpReads();
    EqualApplies(env, rules, stack, m, t, t.reqs[0]);
    EqualJumps(t, rules[m], t.reqs[0], SNAT_CHAIN);
  }

  predicate ForSources(n: Names, svc: Service, o: Obj) {
    Get(o, "src-address-list") == SourceList(n, svc.uid)
  }

  /** What applies to the packet in srcnat leads to the source NAT chain, and what applies there is for the service's
      sources; or it passes the packet on. */
  ghost predicate NothingInTheWayOut(env: Env, rules: seq<Obj>, svc: Service, depth: nat)
    requires depth >= 1
  {
    && (forall k :: 0 <= k < |rules| && Applies(env, rules, "srcnat", [], k) ==>
          JumpsTo(rules[k], SNAT_CHAIN) || PassesOn(env, rules, [], k, depth))
    && (forall j, k :: 0 <= j < |rules| && 0 <= k < |rules| && Applies(env, rules, SNAT_CHAIN, [j], k) ==>
          ForSources(env.n, svc, rules[k]) || PassesOn(env, rules, [j], k, depth - 1))
  }

  /** Whether the packet is one whose source the service hides. */
  predicate Hides(svc: Service, f: Family, a: Addr) {
    SourceIP(svc, f).Addr? && IsSource(svc, a)
  }

  lemma InSourceChain(env: Env, T: Table, rules: seq<Obj>, f: Family, svc: Service, j: nat, depth: nat)
    requires Sound(env.n) && ValidEndpoints(svc) && OfFamily(env.pkt.src, f) && (SourceIP(svc, f).Addr? ==> IsValid(SourceIP(svc, f)))
    requires Shown(T, map[], rules) && SourceNATDone(env.n, f, svc, T, env.lists)
    requires j < |rules| && depth >= 1 && NothingInTheWayOut(env, rules, svc, depth)
    ensures Run(env, rules, SNAT_CHAIN, [j], 0, depth - 1) ==
            if Hides(svc, f, env.pkt.src) then Masked(Some(SourceIP(svc, f))) else Passed
  {
    hide Sound, ValidEndpoints, IsValid, Shown, Fulfilled, SourceEntries, SourceList, SNATRule, Applies, Run, PassesOn, Equal, IsSource, Mask, ServiceSources, SourceListTask, Get;
    if Hides(svc, f, env.pkt.src) {
      var good := iset{Masked(Some(SourceIP(svc, f)))};
      forall k | 0 <= k < |rules| && Applies(env, rules, SNAT_CHAIN, [j], k) && ForSources(env.n, svc, rules[k])
        ensures Final(env, rules, [j], k, depth - 1, good) {
        AppliesInChain(env, rules, SNAT_CHAIN, [j], k);
        IsSNATRule(env, T, rules, f, svc, k);
        SNATRuleMasks(env, rules, f, svc, k);
      }
      var m := SNATRulePresent(env, T, rules, f, svc);
      SNATRuleAppliesIff(env, rules, f, svc, [j], m);
      SNATRuleMasks(env, rules, f, svc, m);
      LandsPast(env, rules, SNAT_CHAIN, [j], 0, depth - 1, good, m);
    } else {
      forall k | 0 <= k < |rules| && Applies(env, rules, SNAT_CHAIN, [j], k) ensures PassesOn(env, rules, [j], k, depth - 1) {
        if ForSources(env.n, svc, rules[k]) {
          NotForTheOthers(env, T, rules, f, svc, [j], k);
          assert false;
        }
      }
      ComesBack(env, rules, SNAT_CHAIN, [j], 0, depth - 1);
    }
  }

  /** The service's rule leaves packets of other sources alone; without an address to give there is no such rule. */
  lemma NotForTheOthers(env: Env, T: Table, rules: seq<Obj>, f: Family, svc: Service, stack: seq<nat>, k: nat)
    requires Sound(env.n) && ValidEndpoints(svc) && OfFamily(env.pkt.src, f) && !Hides(svc, f, env.pkt.src)
    requires Shown(T, map[], rules) && SourceNATDone(env.n, f, svc, T, env.lists)
    requires k < |rules| && ForSources(env.n, svc, rules[k])
    ensures !Applies(env, rules, SNAT_CHAIN, stack, k)
  {
    hide Sound, ValidEndpoints, Shown, Fulfilled, SourceEntries, SourceList, SNATRule, Applies, Equal, IsSource, ServiceSources, SourceListTask, Get;
    if Applies(env, rules, SNAT_CHAIN, stack, k) {
      AppliesInChain(env, rules, SNAT_CHAIN, stack, k);
      if SourceIP(svc, f).Addr? {
        IsSNATRule(env, T, rules, f, svc, k);
        SNATRuleAppliesIff(env, rules, f, svc, stack, k);
      } else {
        var id := RuleListed(T, rules, k);
        NoneForSources(env.n, svc, T, id);
      }
      assert false;
    }
  }

  lemma NoneForSources(n: Names, svc: Service, T: Table, id: string)
    requires Fulfilled(T, ServiceSNAT(n, svc.uid)) && id in T
    ensures !(Get(T[id], "chain") == SNAT_CHAIN && ForSources(n, svc, T[id]))
  {
    hide Fulfilled, SourceList, Get;
    PrunedMeans(T, ServiceSNAT(n, svc.uid));
  }

  /** With Setup's jump and the source NAT part of EnsureService in place, a packet of an endpoint of the service leaves with
      the service's source NAT IP for the packet's family, if it has one, and any other packet with its own address: past
      foreign rules that pass it on, in whatever order the rules are listed, and however many nested jumps the router
      follows beyond two. */
  lemma SourcesAreMasked(env: Env, T: Table, rules: seq<Obj>, f: Family, svc: Service, depth: nat)
    requires Sound(env.n) && ValidEndpoints(svc) && OfFamily(env.pkt.src, f)
    requires var ip := if f == V4 then svc.snatIPv4 else svc.snatIPv6; ip.Addr? ==> IsValid(ip)
    requires Shown(T, map[], rules) && Fulfilled(T, SourceJumpTask()) && SourceNATDone(env.n, f, svc, T, env.lists)
    requires depth >= 2 && NothingInTheWayOut(env, rules, svc, depth)
    ensures var ip := if f == V4 then svc.snatIPv4 else svc.snatIPv6;
            Run(env, rules, "srcnat", [], 0, depth) == if ip.Addr? && IsSource(svc, env.pkt.src) then Masked(Some(ip)) else Passed
  {
    hide Sound, ValidEndpoints, IsValid, Shown, Fulfilled, SourceNATDone, Applies, Run, PassesOn, IsSource;
    forall k | 0 <= k < |rules| && JumpsTo(rules[k], SNAT_CHAIN)
      ensures Run(env, rules, SNAT_CHAIN, [] + [k], 0, depth - 1) ==
              if Hides(svc, f, env.pkt.src) then Masked(Some(SourceIP(svc, f))) else Passed {
      assert [] + [k] == [k];
      InSourceChain(env, T, rules, f, svc, k, depth);
    }
    if Hides(svc, f, env.pkt.src) {
      var good := iset{Masked(Some(SourceIP(svc, f)))};
      var m := SourceJumpPresent(env, T, rules, []);
      forall k | 0 <= k < |rules| && JumpsTo(rules[k], SNAT_CHAIN) ensures Final(env, rules, [], k, depth, good) {
      }
      LandsPast(env, rules, "srcnat", [], 0, depth, good, m);
    } else {
      forall k | 0 <= k < |rules| && JumpsTo(rules[k], SNAT_CHAIN) ensures PassesOn(env, rules, [], k, depth) {
        JumpPasses(env, rules, k, depth);
      }
      ComesBack(env, rules, "srcnat", [], 0, depth);
    }
  }

  lemma JumpPasses(env: Env, rules: seq<Obj>, k: nat, depth: nat)
    requires k < |rules| && JumpsTo(rules[k], SNAT_CHAIN) && depth >= 1 && Run(env, rules, SNAT_CHAIN, [] + [k], 0, depth - 1) == Passed
    ensures PassesOn(env, rules, [], k, depth)
  {
    hide Run;
  }

  // ---------- Setup's jump, and when it goes ----------

  /** Setup's jump survives every call that does not clean up srcnat, of any service whose UID is not part of its comment. */
  lemma SourceJumpKept(n: Names, other: Service, pruned: iset<string>, T: Table, T': Table)
    requires Sound(n) && !Marked(SourceJumpRule(), other.uid) && "srcnat" !in pruned && Fulfilled(T, SourceJumpTask())
    requires Within(T, T', RulesOf(n, other.uid) + InChains(pruned), OwnRules(n, other))
    ensures Fulfilled(T', SourceJumpTask())
  {
    hide Sound, Within, Fulfilled, OwnRules, RulesOf, ServiceChain, Marked, LivesIn, AwayFrom, InChains;
    SrcnatApart(n, other.uid);
    LivesInChain(SourceJumpTask(), "srcnat");
    ChainAway(n, other.uid, pruned, SourceJumpTask(), "srcnat");
    TaskKept(n, other, pruned, T, T', SourceJumpTask());
  }

  lemma SrcnatApart(n: Names, uid: string)
    requires Sound(n)
    ensures "srcnat" != ServiceChain(n, uid) && !IsPortChain(n, uid, "srcnat") && "srcnat" !in {DNAT_CHAIN, SNAT_CHAIN}
  {
    hide Sound, PortChain, ServiceChain;
    ChainsApart(n, uid, uid, Port(0, 0, "TCP"));
    forall p ensures PortChain(n, uid, p) != "srcnat" { ChainsApart(n, uid, uid, p); }
    assert |"srcnat"| == 6 && |DNAT_CHAIN| == 12 && |SNAT_CHAIN| == 12;
  }

  ghost predicate SparesSrcnat(n: Names, uid: string, T: Table) {
    "srcnat" !in JumpTargets(T, ServiceChain(n, uid))
  }

  /** No EnsureService, for any service, makes a service chain jump to srcnat. */
  lemma SparesSrcnatKept(n: Names, uid: string, other: Service, T: Table, T': Table, mine: iset<Obj>)
    requires Sound(n) && SparesSrcnat(n, uid, T) && Within(T, T', mine, OwnRules(n, other))
    ensures SparesSrcnat(n, uid, T')
  {
    hide Sound, IsPortChain, ServiceChain, JumpTargets, OwnRules, Within;
    SrcnatApart(n, uid);
    if !SparesSrcnat(n, uid, T') { JumpsKept(n, uid, other, T, T', mine, "srcnat"); }
  }

  /** A completed cleanup of a service chain that jumped to srcnat empties it. */
  lemma SrcnatCleaned(n: Names, svc: Service, before: Table, T: Table)
    requires Sound(n) && Cleaned(n, svc, before, T) && !SparesSrcnat(n, svc.uid, before)
    ensures Fulfilled(T, PruneChain("srcnat"))
  {
    hide Sound, ServiceChain, JumpTargets, Fulfilled, PortChain, HasPort;
    SrcnatApart(n, svc.uid);
    forall p ensures PortChain(n, svc.uid, p) != "srcnat" { ChainsApart(n, svc.uid, svc.uid, p); }
  }

  /** After Setup and an EnsureService of which no router call failed, from any prior rules: packets of the service's
      endpoints leave with its address exactly if its chain had no jump to srcnat. */
  lemma SourcesMaskedIff(env: Env, f: Family, svc: Service, before: Table, T: Table, shown: seq<Obj>, depth: nat)
    requires Sound(env.n) && ValidEndpoints(svc) && OfFamily(env.pkt.src, f) && IsSource(svc, env.pkt.src)
    requires IsValid(SourceIP(svc, f)) && HasLBIP(svc, f)
    requires Fulfilled(before, SourceJumpTask()) && !Marked(SourceJumpRule(), svc.uid)
    requires RulesStep(env.n, svc, before, T) && EnsuredInFull(env.n, f, svc, before, T, env.lists)
    requires Shown(T, map[], shown) && depth >= 2 && NothingInTheWayOut(env, shown, svc, depth)
    ensures Run(env, shown, "srcnat", [], 0, depth) == Masked(Some(SourceIP(svc, f))) <==> SparesSrcnat(env.n, svc.uid, before)
  {
    hide Sound, ValidEndpoints, IsSource, Marked, Fulfilled, Within, RulesOf, OwnRules, InChains, Shown, NothingInTheWayOut, Run, SourceNATDone, Cleaned, PruneChain, LBListed, PortRequests, Programmed, NoJumpBack, JumpTargets;
    var outcome :| Ensured(env.n, f, svc, before, T, env.lists, outcome) && outcome.cleaned;
    if SparesSrcnat(env.n, svc.uid, before) {
      SourceJumpKept(env.n, svc, JumpTargets(before, ServiceChain(env.n, svc.uid)), before, T);
      SourcesAreMasked(env, T, shown, f, svc, depth);
    } else {
      SrcnatCleaned(env.n, svc, before, T);
      EmptyByPruning(env, T, shown, "srcnat", [], depth);
    }
  }

  // ---------- over runs ----------

  /** A call for the service itself, or a considerate one for another, that leaves srcnat alone. */
  ghost predicate LeavesSrcnat(n: Names, f: Family, svc: Service, reqs: seq<Obj>, c: Change, T: Table) {
    && Neighbourly(n, f, svc, reqs, c, T) && !Marked(SourceJumpRule(), UidOf(c))
    && (c.Ensure? ==> SparesSrcnat(n, UidOf(c), T))
  }

  /** Every rule of srcnat leads to the source NAT chain, never applies to the packet, or is harmless. */
  ghost predicate ClearWayOut(n: Names, pkt: Packet, T: Table) {
    forall id :: id in T && Get(T[id], "chain") == "srcnat" ==> OutOfTheWay(n, pkt, T[id], SNAT_CHAIN)
  }

  /** The backend writes nothing to srcnat. */
  lemma ClearWayOutKept(n: Names, pkt: Packet, other: Service, T: Table, T': Table, mine: iset<Obj>)
    requires Sound(n) && ClearWayOut(n, pkt, T) && Within(T, T', mine, OwnRules(n, other))
    ensures ClearWayOut(n, pkt, T')
  {
    hide Sound, ServiceChain, NeverApplies, OutOfTheWay, Marked, SourceList, LeadsTo, IsPortChain, Get;
    SrcnatApart(n, other.uid);
    forall id | id in T' && Get(T'[id], "chain") == "srcnat" ensures OutOfTheWay(n, pkt, T'[id], SNAT_CHAIN) {
      assert T'[id] !in OwnRules(n, other);
    }
  }

  lemma {:induction false} SparesSrcnatOverRun(n: Names, changes: seq<Change>, rules: seq<Table>, lists: seq<Table>, uid: string, k: nat)
    requires Sound(n) && History(n, changes, rules, lists) && k <= |changes| && SparesSrcnat(n, uid, rules[0])
    ensures SparesSrcnat(n, uid, rules[k])
    decreases k
  {
    hide Sound, SparesSrcnat, Changed, Within, RulesOf, OwnRules, InChains;
    if k > 0 {
      SparesSrcnatOverRun(n, changes, rules, lists, uid, k - 1);
      var c := changes[k - 1];
      ChangedWithin(n, c, rules[k - 1], rules[k], lists[k - 1], lists[k]);
      SparesSrcnatKept(n, uid, ServiceOf(c), rules[k - 1], rules[k], RulesOf(n, UidOf(c)) + InChains(Pruned(n, c, rules[k - 1])));
    }
  }

  /** Setup's jump, and the way to it, last over any run of such calls, judged by the tables it starts from. */
  lemma {:induction false} SourceJumpOverRun(n: Names, f: Family, pkt: Packet, svc: Service, reqs: seq<Obj>, changes: seq<Change>,
                                             rules: seq<Table>, lists: seq<Table>, k: nat)
    requires Sound(n) && History(n, changes, rules, lists) && k <= |changes|
    requires forall i :: 0 <= i < |changes| ==> LeavesSrcnat(n, f, svc, reqs, changes[i], rules[0])
    requires Fulfilled(rules[0], SourceJumpTask()) && ClearWayOut(n, pkt, rules[0])
    ensures Fulfilled(rules[k], SourceJumpTask()) && ClearWayOut(n, pkt, rules[k])
  {
    hide Sound, Changed, Neighbourly, Fulfilled, ClearWayOut, SourceJumpRule, Marked, Within, RulesOf, OwnRules, InChains, JumpTargets;
    if k > 0 {
      SourceJumpOverRun(n, f, pkt, svc, reqs, changes, rules, lists, k - 1);
      var c, T, T' := changes[k - 1], rules[k - 1], rules[k];
      ChangedWithin(n, c, T, T', lists[k - 1], lists[k]);
      if c.Ensure? { SparesSrcnatOverRun(n, changes, rules, lists, UidOf(c), k - 1); }
      SourceJumpKept(n, ServiceOf(c), Pruned(n, c, T), T, T');
      ClearWayOutKept(n, pkt, ServiceOf(c), T, T', RulesOf(n, UidOf(c)) + InChains(Pruned(n, c, T)));
    }
  }

  lemma {:induction false} SourceNATOverRun(n: Names, f: Family, svc: Service, reqs: seq<Obj>, changes: seq<Change>, rules: seq<Table>,
                                            lists: seq<Table>, k: nat)
    requires Sound(n) && History(n, changes, rules, lists) && k <= |changes|
    requires forall i :: 0 <= i < |changes| ==> Considerate(n, f, svc, reqs, changes[i], rules[0])
    requires SourceNATDone(n, f, svc, rules[0], lists[0])
    ensures SourceNATDone(n, f, svc, rules[k], lists[k])
  {
    hide Sound, Changed, Considerate, SourceNATDone;
    if k > 0 {
      SourceNATOverRun(n, f, svc, reqs, changes, rules, lists, k - 1);
      ConsiderateOverRun(n, f, svc, reqs, changes, rules, lists, changes[k - 1], k - 1);
      SourceNATKept(n, f, svc, reqs, changes[k - 1], rules[k - 1], rules[k], lists[k - 1], lists[k]);
    }
  }

  /** In the source NAT chain, what is not for the service's sources never applies to the packet, is harmless, or is for a
      list that does not have the packet's source. */
  ghost predicate NoOtherHides(env: Env, svc: Service, T: Table) {
    forall id :: id in T && Get(T[id], "chain") == SNAT_CHAIN ==>
      || ForSources(env.n, svc, T[id]) || NeverApplies(env.n, env.pkt, T[id]) || Get(T[id], "action") in HARMLESS
      || ("src-address-list" in T[id] && Unlisted(env, T[id]["src-address-list"], env.pkt.src))
  }

  lemma UnlistedQuiet(env: Env, rules: seq<Obj>, stack: seq<nat>, k: nat)
    requires k < |rules| && "src-address-list" in rules[k] && Unlisted(env, rules[k]["src-address-list"], env.pkt.src)
    ensures !Applies(env, rules, SNAT_CHAIN, stack, k)
  {
    hide Unlisted, Known;
    ListedIsKnown(env, "src-address-list", rules[k]["src-address-list"], env.pkt.src);
    assert !FieldMatches(env, rules[k], "src-address-list", stack, k);
  }

  lemma ClearIsNotInTheWayOut(env: Env, T: Table, rules: seq<Obj>, svc: Service, depth: nat)
    requires Shown(T, map[], rules) && ClearWayOut(env.n, env.pkt, T) && NoOtherHides(env, svc, T) && depth >= 1
    ensures NothingInTheWayOut(env, rules, svc, depth)
  {
    hide Shown, OutOfTheWay, Applies, NoOtherHides, ForSources, JumpsTo, PassesOn;
    forall k | 0 <= k < |rules| && Applies(env, rules, "srcnat", [], k)
      ensures JumpsTo(rules[k], SNAT_CHAIN) || PassesOn(env, rules, [], k, depth) {
      AppliesInChain(env, rules, "srcnat", [], k);
      var id := RuleListed(T, rules, k);
      OutOfTheWayPasses(env, rules, "srcnat", [], k, SNAT_CHAIN, depth);
    }
    forall j, k | 0 <= j < |rules| && 0 <= k < |rules| && Applies(env, rules, SNAT_CHAIN, [j], k)
      ensures ForSources(env.n, svc, rules[k]) || PassesOn(env, rules, [j], k, depth - 1) {
      OutOfTheSources(env, T, rules, svc, [j], k, depth - 1);
    }
  }

  lemma OutOfTheSources(env: Env, T: Table, rules: seq<Obj>, svc: Service, stack: seq<nat>, k: nat, depth: nat)
    requires Shown(T, map[], rules) && NoOtherHides(env, svc, T) && k < |rules| && Applies(env, rules, SNAT_CHAIN, stack, k)
    ensures ForSources(env.n, svc, rules[k]) || PassesOn(env, rules, stack, k, depth)
  {
    hide Shown, Applies, NeverApplies, Unlisted, ForSources, PassesOn, Get;
    AppliesInChain(env, rules, SNAT_CHAIN, stack, k);
    var id := RuleListed(T, rules, k);
    if NeverApplies(env.n, env.pkt, rules[k]) { NeverQuiet(env, rules, SNAT_CHAIN, stack, k); }
    if "src-address-list" in rules[k] && Unlisted(env, rules[k]["src-address-list"], env.pkt.src) { UnlistedQuiet(env, rules, stack, k); }
    HarmlessPasses(env, rules, stack, k, depth);
  }

  lemma HarmlessPasses(env: Env, rules: seq<Obj>, stack: seq<nat>, k: nat, depth: nat)
    requires k < |rules|
    ensures Get(rules[k], "action") in HARMLESS ==> PassesOn(env, rules, stack, k, depth)
  {
    hide Run;
  }

  /** Any run of EnsureService and DeleteService calls from tables with Setup's jump, failed calls included, of which the last
      one for this service is a successful EnsureService: every packet of its endpoints leaves with its address, and other
      packets with theirs, unless another service hides the same endpoint. */
  lemma SourcesStayMasked(env: Env, f: Family, svc: Service, changes: seq<Change>, rules: seq<Table>, lists: seq<Table>, k: nat,
                          outcome: Outcome, shown: seq<Obj>, depth: nat)
    requires Sound(env.n) && ValidEndpoints(svc) && OfFamily(env.pkt.src, f) && (SourceIP(svc, f).Addr? ==> IsValid(SourceIP(svc, f)))
    requires History(env.n, changes, rules, lists) && Fulfilled(rules[0], SourceJumpTask()) && ClearWayOut(env.n, env.pkt, rules[0])
    requires forall i :: 0 <= i < |changes| ==> LeavesSrcnat(env.n, f, svc, outcome.reqs, changes[i], rules[0])
    requires k < |changes| && changes[k] == Ensure(svc) && Ensured(env.n, f, svc, rules[k], rules[k + 1], lists[k + 1], outcome)
    requires forall i :: k < i < |changes| ==> UidOf(changes[i]) != svc.uid
    requires env.lists == lists[|changes|] && Shown(rules[|changes|], map[], shown) && NoOtherHides(env, svc, rules[|changes|])
    requires depth >= 2
    ensures Run(env, shown, "srcnat", [], 0, depth) == if Hides(svc, f, env.pkt.src) then Masked(Some(SourceIP(svc, f))) else Passed
  {
    hide Sound, ValidEndpoints, IsValid, Fulfilled, ClearWayOut, Changed, Shown, NoOtherHides, Run, Considerate, SourceNATDone, Balancing, Unbalanced, NothingInTheWayOut, Marked, SourceJumpRule, SparesSrcnat;
    var end := |changes|;
    SourceJumpOverRun(env.n, f, env.pkt, svc, outcome.reqs, changes, rules, lists, end);
    RestOfRun(env.n, changes, rules, lists, k + 1);
    forall i | k < i < end ensures Considerate(env.n, f, svc, outcome.reqs, changes[i], rules[k + 1]) {
      ConsiderateOverRun(env.n, f, svc, outcome.reqs, changes, rules, lists, changes[i], k + 1);
    }
    SourceNATOverRun(env.n, f, svc, outcome.reqs, changes[k + 1..], rules[k + 1..], lists[k + 1..], end - k - 1);
    ClearIsNotInTheWayOut(env, rules[end], shown, svc, depth);
    SourcesAreMasked(env, rules[end], shown, f, svc, depth);
  }
}
