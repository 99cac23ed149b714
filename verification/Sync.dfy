/** Client.Sync: makes the objects in scope equal to the requests by deleting, patching and creating. */
module Syncing {
  import opened Net
  import opened Router
  import opened Matching

  // ---------- what Sync achieves ----------

  /** After a successful Sync, `results` are the objects that serve the requests, one each, and besides
      them there is exactly what was out of scope before, unchanged. */
  ghost predicate Converged(before: Table, after: Table, t: Task, results: seq<Obj>) {
    && |results| == |t.reqs|
    && (forall j :: 0 <= j < |results| ==>
          IdAt(results[j]) in after && after[IdAt(results[j])] == results[j] && Equal(t, results[j], t.reqs[j]))
    && (forall i, j :: 0 <= i < j < |results| ==> IdAt(results[i]) != IdAt(results[j]))
    && (forall id :: id in before && !InScope(t, before[id]) ==> id in after && after[id] == before[id] && !Serves(results, id))
    && (forall id :: id in after ==> Serves(results, id) || (id in before && !InScope(t, before[id])))
  }

  ghost predicate Serves(results: seq<Obj>, id: string) {
    exists j :: 0 <= j < |results| && IdAt(results[j]) == id
  }

  /** A Sync that stopped part-way left what is out of scope alone, and every other object is as before or
      equal to some request. */
  ghost predicate Interrupted(before: Table, after: Table, t: Task) {
    && (forall id :: id in before && !InScope(t, before[id]) ==> id in after && after[id] == before[id])
    && (forall id :: id in after ==>
          || (id in before && after[id] == before[id])
          || (EqualsSome(t, after[id]) && (id in before ==> InScope(t, before[id]))))
  }

  ghost predicate EqualsSome(t: Task, o: Obj) {
    exists j :: 0 <= j < |t.reqs| && Equal(t, o, t.reqs[j])
  }

  // ---------- matching, in place ----------

  /** The inner loop: puts one object into the first slot that takes it. */
  method Place(t: Task, o: Obj, found: array<Option<Obj>>, patchable: array<Option<Obj>>) returns (matched: bool)
    requires found.Length == patchable.Length == |t.reqs| && found != patchable && t.filter(o)
    modifies found, patchable
    ensures forall conflicts ::
              var s := Slots(old(found[..]), old(patchable[..]), conflicts);
              NextSlots(t, s, o) == Slots(found[..], patchable[..], if matched then conflicts else conflicts + [o])
  {
    var j := 0;
    ghost var s := Slots(found[..], patchable[..], []);
    while j < |t.reqs|
      invariant 0 <= j <= |t.reqs|
      invariant found[..] == s.found && patchable[..] == s.patchable
      invariant FirstPlace(t, s, o, 0) == FirstPlace(t, s, o, j)
    {
      var same := CompareObjs(o, t.reqs[j], t.ignored);
      if found[j].None? && same {
        found[j] := Some(o);
        SamePlace(t, s, o);
        return true;
      }
      if patchable[j].None? && SameId(t, o, t.reqs[j]) {
        patchable[j] := Some(o);
        SamePlace(t, s, o);
        return true;
      }
      j := j + 1;
    }
    SamePlace(t, s, o);
    return false;
  }

  /** The leftovers have no say in where an object goes. */
  lemma {:induction false} SamePlaceFrom(t: Task, s: Slots, o: Obj, conflicts: seq<Obj>, j: nat)
    requires j <= |t.reqs| == |s.found| == |s.patchable|
    ensures FirstPlace(t, s.(conflicts := conflicts), o, j) == FirstPlace(t, s, o, j)
    decreases |t.reqs| - j
  {
    if j < |t.reqs| { SamePlaceFrom(t, s, o, conflicts, j + 1); }
  }

  lemma SamePlace(t: Task, s: Slots, o: Obj)
    requires |t.reqs| == |s.found| == |s.patchable|
    ensures forall conflicts :: FirstPlace(t, s.(conflicts := conflicts), o, 0) == FirstPlace(t, s, o, 0)
  {
    forall conflicts ensures FirstPlace(t, s.(conflicts := conflicts), o, 0) == FirstPlace(t, s, o, 0) {
      SamePlaceFrom(t, s, o, conflicts, 0);
    }
  }

  method MatchObjects(t: Task, objs: seq<Obj>)
    returns (found: array<Option<Obj>>, patchable: array<Option<Obj>>, conflicts: seq<Obj>)
    ensures fresh(found) && fresh(patchable) && found != patchable && found.Length == patchable.Length == |t.reqs|
    ensures Slots(found[..], patchable[..], conflicts) == MatchAll(t, objs)
  {
    hide FirstPlace;
    found := new Option<Obj>[|t.reqs|](_ => None);
    patchable := new Option<Obj>[|t.reqs|](_ => None);
    conflicts := [];
    assert found[..] == Nones(|t.reqs|) && patchable[..] == Nones(|t.reqs|);
    for i := 0 to |objs|
      invariant fresh(found) && fresh(patchable) && found != patchable && found.Length == patchable.Length == |t.reqs|
      invariant Slots(found[..], patchable[..], conflicts) == MatchAll(t, objs[..i])
    {
      assert objs[..i + 1][..i] == objs[..i];
      if !t.filter(objs[i]) {
        continue;
      }
      var matched := Place(t, objs[i], found, patchable);
      if !matched {
        conflicts := conflicts + [objs[i]];
      }
    }
    assert objs[..|objs|] == objs;
  }

  /** The loop that turns patchable objects of served requests into conflicts. */
  method Demote(found: array<Option<Obj>>, patchable: array<Option<Obj>>, leftovers: seq<Obj>) returns (conflicts: seq<Obj>)
    requires found.Length == patchable.Length && found != patchable
    modifies patchable
    ensures Slots(found[..], patchable[..], conflicts) == DemoteFrom(old(Slots(found[..], patchable[..], leftovers)), 0)
  {
    conflicts := leftovers;
    ghost var s := Slots(found[..], patchable[..], leftovers);
    for i := 0 to patchable.Length
      invariant found[..] == s.found
      invariant DemoteFrom(Slots(found[..], patchable[..], conflicts), i) == DemoteFrom(s, 0)
    {
      if found[i].Some? && patchable[i].Some? {
        conflicts := conflicts + [patchable[i].value];
        ghost var p := patchable[..];
        patchable[i] := None;
        assert patchable[..] == p[i := None];
      }
    }
  }

  // ---------- the calls ----------

  function DeleteCalls(path: string, conflicts: seq<Obj>): seq<Call> {
    if conflicts == [] then []
    else
      var n := |conflicts| - 1;
      DeleteCalls(path, conflicts[..n]) + if IdAt(conflicts[n]) == "" then [] else [DeleteCall(path, IdAt(conflicts[n]))]
  }

  function ServeCalls(path: string, found: Option<Obj>, patchable: Option<Obj>): seq<Call> {
    if found.Some? then []
    else if patchable.Some? then [PatchCall(path, IdAt(patchable.value))]
    else [PutCall(path)]
  }

  /** The calls for the first n requests. */
  function AllServeCalls(path: string, s: Slots, n: nat): seq<Call>
    requires n <= |s.found| == |s.patchable|
  {
    if n == 0 then [] else AllServeCalls(path, s, n - 1) + ServeCalls(path, s.found[n - 1], s.patchable[n - 1])
  }

  /** What a Sync that meets no failure sends after its listing: deletions first, then one call at most per request. */
  function PlannedCalls(path: string, s: Slots): seq<Call>
    requires |s.found| == |s.patchable|
  {
    DeleteCalls(path, s.conflicts) + AllServeCalls(path, s, |s.found|)
  }

  lemma {:induction false} DeleteCallsPrefix(path: string, conflicts: seq<Obj>, m: nat)
    requires m <= |conflicts|
    ensures DeleteCalls(path, conflicts[..m]) <= DeleteCalls(path, conflicts)
  {
    hide IdAt;
    if m < |conflicts| {
      var n := |conflicts| - 1;
      assert conflicts[..n][..m] == conflicts[..m];
      DeleteCallsPrefix(path, conflicts[..n], m);
    } else {
      assert conflicts[..m] == conflicts;
    }
  }

  lemma {:induction false} ServeCallsPrefix(path: string, s: Slots, m: nat, n: nat)
    requires m <= n <= |s.found| == |s.patchable|
    ensures AllServeCalls(path, s, m) <= AllServeCalls(path, s, n)
    decreases n
  {
    hide ServeCalls;
    if m < n { ServeCallsPrefix(path, s, m, n - 1); }
  }

  lemma {:induction false} DeleteCallsOnly(path: string, conflicts: seq<Obj>, c: Call)
    requires c in DeleteCalls(path, conflicts)
    ensures exists j :: 0 <= j < |conflicts| && c == DeleteCall(path, IdAt(conflicts[j]))
  {
    hide IdAt;
    if conflicts != [] {
      var n := |conflicts| - 1;
      if c in DeleteCalls(path, conflicts[..n]) {
        DeleteCallsOnly(path, conflicts[..n], c);
        var j :| 0 <= j < n && c == DeleteCall(path, IdAt(conflicts[..n][j]));
        assert conflicts[..n][j] == conflicts[j];
      }
    }
  }

  lemma {:induction false} ServeCallsOnly(path: string, s: Slots, n: nat, c: Call)
    requires n <= |s.found| == |s.patchable| && c in AllServeCalls(path, s, n)
    ensures c == PutCall(path) ||
            exists j :: 0 <= j < n && s.found[j].None? && s.patchable[j].Some? && c == PatchCall(path, IdAt(s.patchable[j].value))
  {
    hide IdAt;
    if n > 0 && c in AllServeCalls(path, s, n - 1) {
      ServeCallsOnly(path, s, n - 1, c);
    }
  }

  /** Nothing is planned exactly if every request has its exact match and nothing is left over. */
  lemma {:induction false} NothingPlanned(path: string, s: Slots, n: nat)
    requires n <= |s.found| == |s.patchable|
    ensures AllServeCalls(path, s, n) == [] <==> forall j :: 0 <= j < n ==> s.found[j].Some?
  {
    if n > 0 { NothingPlanned(path, s, n - 1); }
  }

  ghost function Ids(os: seq<Obj>): set<string> {
    set i | 0 <= i < |os| :: IdAt(os[i])
  }

  lemma IdsNext(os: seq<Obj>, i: nat)
    requires i < |os|
    ensures Ids(os[..i + 1]) == Ids(os[..i]) + {IdAt(os[i])}
  {
    var a, b := os[..i], os[..i + 1];
    forall x | x in Ids(b) ensures x in Ids(a) + {IdAt(os[i])} {
      var k :| 0 <= k < |b| && IdAt(b[k]) == x;
      if k < i { assert a[k] == b[k]; }
    }
    forall x | x in Ids(a) ensures x in Ids(b) {
      var k :| 0 <= k < |a| && IdAt(a[k]) == x;
      assert b[k] == a[k];
    }
    assert b[i] == os[i];
  }

  method DeleteConflicts(r: RouterOS, path: string, conflicts: seq<Obj>)
    returns (ok: bool, ghost calls: seq<Call>, ghost done: nat)
    requires r.Valid() && DistinctIds(conflicts) && forall i :: 0 <= i < |conflicts| ==> IdAt(conflicts[i]) in r.At(path)
    modifies r
    ensures r.Valid() && done <= |conflicts| && (ok ==> done == |conflicts|)
    ensures r.failures >= old(r.failures) && (ok <==> r.failures == old(r.failures))
    ensures OnlyPath(old(r.resources), r.resources, path)
    ensures r.At(path) == old(r.At(path)) - (Ids(conflicts[..done]) - {""})
    ensures r.requests == old(r.requests) + calls && calls <= DeleteCalls(path, conflicts)
    ensures calls == [] ==> r.At(path) == old(r.At(path))
    ensures ok ==> calls == DeleteCalls(path, conflicts)
    ensures r.nextID == old(r.nextID)
  {
    hide RouterOS.Valid, Ids, DeleteCalls;
    calls, done := [], 0;
    NoDeletes(path);
    var i := 0;
    while i < |conflicts|
      invariant i <= |conflicts| && done == i && r.Valid() && r.failures == old(r.failures) && r.nextID == old(r.nextID)
      invariant OnlyPath(old(r.resources), r.resources, path)
      invariant r.At(path) == old(r.At(path)) - (Ids(conflicts[..done]) - {""})
      invariant r.requests == old(r.requests) + calls && calls == DeleteCalls(path, conflicts[..i])
      invariant calls == [] ==> r.At(path) == old(r.At(path))
    {
      IdsNext(conflicts, i);
      NotDeletedYet(conflicts, i);
      DeleteCallsNext(path, conflicts, i);
      DeleteCallsPrefix(path, conflicts, i + 1);
      var id := Get(conflicts[i], ID);
      if id != "" {
        ok := r.HandleDelete(path, id);
        calls := calls + [DeleteCall(path, id)];
        if !ok {
          return;
        }
      }
      i, done := i + 1, done + 1;
    }
    assert conflicts[..i] == conflicts;
    ok := true;
  }

  /** A leftover is still there when its turn comes. */
  lemma NotDeletedYet(conflicts: seq<Obj>, i: nat)
    requires DistinctIds(conflicts) && i < |conflicts|
    ensures IdAt(conflicts[i]) !in Ids(conflicts[..i])
  {
    hide IdAt;
  }

  lemma NoDeletes(path: string)
    ensures DeleteCalls(path, []) == [] && Ids([]) == {}
  {
  }

  lemma DeleteCallsNext(path: string, conflicts: seq<Obj>, i: nat)
    requires i < |conflicts|
    ensures DeleteCalls(path, conflicts[..i + 1]) ==
            DeleteCalls(path, conflicts[..i]) + if IdAt(conflicts[i]) == "" then [] else [DeleteCall(path, IdAt(conflicts[i]))]
  {
    assert conflicts[..i + 1][..i] == conflicts[..i];
  }

  /** The object that serves request j without creating one: the exact match, or the one to patch. */
  function Server(s: Slots, j: nat): Option<Obj>
    requires j < |s.found| == |s.patchable|
  {
    if s.found[j].Some? then s.found[j] else s.patchable[j]
  }

  /** The fields that Sync ignores are as they were. */
  ghost predicate KeepsIgnored(t: Task, before: Obj, after: Obj) {
    forall k :: k in t.ignored ==> Lookup(after, k) == Lookup(before, k)
  }

  /** The requests so far are served, by their servers or by new objects. */
  ghost predicate ServedSoFar(t: Task, s: Slots, T0: Table, T: Table, results: seq<Obj>)
    requires |t.reqs| == |s.found| == |s.patchable|
  {
    && |results| <= |t.reqs|
    && (forall j :: 0 <= j < |results| ==>
          IdAt(results[j]) in T && T[IdAt(results[j])] == results[j] && Equal(t, results[j], t.reqs[j]))
    && (forall j :: 0 <= j < |results| ==>
          if Server(s, j).Some? then IdAt(results[j]) == IdAt(Server(s, j).value) else IdAt(results[j]) !in T0)
    && (forall j :: 0 <= j < |results| && s.found[j].Some? ==> results[j] == s.found[j].value)
    && (forall j :: 0 <= j < |results| && Server(s, j).Some? ==> KeepsIgnored(t, Server(s, j).value, results[j]))
    && (forall j, k :: 0 <= j < k < |results| ==> IdAt(results[j]) != IdAt(results[k]))
  }

  /** What serves no request is as it was. */
  ghost predicate RestKept(T0: Table, T: Table, results: seq<Obj>) {
    && (forall id :: id in T0 && !Serves(results, id) ==> id in T && T[id] == T0[id])
    && (forall id :: id in T && id !in T0 ==> Serves(results, id))
  }

  /** Where the loop over the requests stands after |results| of them. T0 is the table it started from. */
  ghost predicate Underway(t: Task, s: Slots, T0: Table, T: Table, results: seq<Obj>)
    requires |t.reqs| == |s.found| == |s.patchable|
  {
    ServedSoFar(t, s, T0, T, results) && RestKept(T0, T, results)
  }

  /** What the slots owe to the table the loop starts from. */
  ghost predicate Startable(t: Task, s: Slots, T0: Table) {
    && |t.reqs| == |s.found| == |s.patchable| && Apart(s)
    && (forall j :: 0 <= j < |s.found| && s.found[j].Some? ==> s.patchable[j].None? && Equal(t, s.found[j].value, t.reqs[j]))
    && (forall j :: 0 <= j < |s.found| && Server(s, j).Some? ==>
          var o := Server(s, j).value; IdAt(o) != "" && IdAt(o) in T0 && T0[IdAt(o)] == o)
  }

  lemma ServersApart(t: Task, s: Slots, T0: Table, i: nat, j: nat)
    requires Startable(t, s, T0) && i < |s.found| && j < |s.found| && i != j && Server(s, i).Some? && Server(s, j).Some?
    ensures IdAt(Server(s, i).value) != IdAt(Server(s, j).value)
  {
    hide Equal, IdAt;
  }

  /** The server of the next request is still as it was. */
  lemma ServerUnserved(t: Task, s: Slots, T0: Table, T: Table, results: seq<Obj>)
    requires Startable(t, s, T0) && Underway(t, s, T0, T, results) && |results| < |t.reqs| && Server(s, |results|).Some?
    ensures var o := Server(s, |results|).value; !Serves(results, IdAt(o)) && IdAt(o) in T && T[IdAt(o)] == o
  {
    hide Equal, Apart, IdAt;
    var o := Server(s, |results|).value;
    forall j | 0 <= j < |results| ensures IdAt(results[j]) != IdAt(o) {
      if Server(s, j).Some? { ServersApart(t, s, T0, |results|, j); }
    }
  }

  /** Nothing disappears while the requests are served. */
  lemma NothingLost(t: Task, s: Slots, T0: Table, T: Table, results: seq<Obj>)
    requires |t.reqs| == |s.found| == |s.patchable| && Underway(t, s, T0, T, results)
    ensures T0.Keys <= T.Keys && forall id :: Serves(results, id) ==> id in T
  {
    hide Equal, Server, IdAt;
  }

  lemma RestKeptNext(T0: Table, T: Table, results: seq<Obj>, o: Obj)
    requires RestKept(T0, T, results)
    ensures RestKept(T0, T[IdAt(o) := o], results + [o])
  {
    hide Serves;
    forall x ensures Serves(results + [o], x) <==> Serves(results, x) || x == IdAt(o) {
      ServesNext(results, o, x);
    }
  }

  lemma ServedNext(t: Task, s: Slots, T0: Table, T: Table, results: seq<Obj>, o: Obj)
    requires |t.reqs| == |s.found| == |s.patchable| && ServedSoFar(t, s, T0, T, results)
    requires |results| < |t.reqs| && Equal(t, o, t.reqs[|results|]) && !Serves(results, IdAt(o))
    requires if Server(s, |results|).Some? then IdAt(o) == IdAt(Server(s, |results|).value) else IdAt(o) !in T0
    requires s.found[|results|].Some? ==> o == s.found[|results|].value
    requires Server(s, |results|).Some? ==> KeepsIgnored(t, Server(s, |results|).value, o)
    ensures ServedSoFar(t, s, T0, T[IdAt(o) := o], results + [o])
  {
    hide Equal, IdAt, Server, KeepsIgnored;
  }

  /** One round: the next request is served by `o`, which is its server's new content or a new object. */
  lemma UnderwayNext(t: Task, s: Slots, T0: Table, T: Table, results: seq<Obj>, o: Obj)
    requires |t.reqs| == |s.found| == |s.patchable|
    requires Startable(t, s, T0) && Underway(t, s, T0, T, results) && |results| < |t.reqs|
    requires ServedBy(t, |results|, s.found[|results|], s.patchable[|results|], T, o)
    ensures Underway(t, s, T0, T[IdAt(o) := o], results + [o])
  {
    hide Equal, Startable, ServedSoFar, RestKept, Serves, IdAt;
    NothingLost(t, s, T0, T, results);
    if Server(s, |results|).Some? { ServerUnserved(t, s, T0, T, results); }
    ServedNext(t, s, T0, T, results, o);
    RestKeptNext(T0, T, results, o);
  }

  lemma ServesNext(results: seq<Obj>, o: Obj, x: string)
    ensures Serves(results + [o], x) <==> Serves(results, x) || x == IdAt(o)
  {
    hide IdAt;
    var results' := results + [o];
    if j :| 0 <= j < |results| && IdAt(results[j]) == x { assert IdAt(results'[j]) == x; }
    assert results'[|results|] == o;
  }

  /** A request served by what is already there, by a patch, or by a new object. */
  ghost predicate ServedBy(t: Task, i: nat, found: Option<Obj>, patchable: Option<Obj>, T: Table, o: Obj)
    requires i < |t.reqs|
  {
    && Equal(t, o, t.reqs[i])
    && if found.Some? then o == found.value
       else if patchable.Some? then IdAt(o) == IdAt(patchable.value) && KeepsIgnored(t, patchable.value, o)
       else IdAt(o) !in T
  }

  ghost predicate IsThere(T: Table, o: Option<Obj>) {
    o.Some? ==> IdAt(o.value) != "" && IdAt(o.value) in T && T[IdAt(o.value)] == o.value
  }

  /** One round of the loop over the requests. */
  method ServeRequest(r: RouterOS, path: string, t: Task, i: nat, found: Option<Obj>, patchable: Option<Obj>)
    returns (ok: bool, o: Obj)
    requires r.Valid() && i < |t.reqs| && ID in t.ignored
    requires IsThere(r.At(path), found) && IsThere(r.At(path), patchable)
    requires found.Some? ==> Equal(t, found.value, t.reqs[i])
    modifies r
    ensures r.Valid() && OnlyPath(old(r.resources), r.resources, path)
    ensures !ok ==> r.At(path) == old(r.At(path))
    ensures r.failures >= old(r.failures) && (ok <==> r.failures == old(r.failures))
    ensures ok ==> ServedBy(t, i, found, patchable, old(r.At(path)), o) && r.At(path) == old(r.At(path))[IdAt(o) := o]
    ensures found.Some? ==> r.At(path) == old(r.At(path))
    ensures r.nextID >= old(r.nextID) && (ok && found.None? && patchable.None? ==> !HandedOut(IdAt(o), old(r.nextID)))
    ensures r.requests == old(r.requests) + ServeCalls(path, found, patchable)
  {
    hide RouterOS.Valid, Patched, HandedOut;
    if found.None? {
      if patchable.Some? {
        var id := Get(patchable.value, ID);
        if id != "" {
          var patchReq := GeneratePatchRequest(patchable.value, t.reqs[i], t.ignored);
          PatchReaches(patchable.value, t.reqs[i], t.ignored);
          assert Lookup(Patched(patchable.value, patchReq), ID) == Lookup(patchable.value, ID);
          ok, o := r.HandlePatch(path, id, patchReq);
          return;
        }
      }
      ok, o := r.HandlePut(path, t.reqs[i]);
      PutServes(t, t.reqs[i], IdAt(o));
    } else {
      ok, o := true, found.value;
    }
  }

  lemma PutServes(t: Task, req: Obj, id: string)
    requires ID in t.ignored
    ensures Equal(t, req[ID := id], req)
  {
    VisibleEqual(req[ID := id], req, t.ignored);
  }

  lemma NothingUnderway(t: Task, s: Slots, T0: Table)
    requires |t.reqs| == |s.found| == |s.patchable|
    ensures Underway(t, s, T0, T0, [])
  {
  }

  /** What the next round may rely on. */
  lemma RoundReady(t: Task, s: Slots, T0: Table, T: Table, results: seq<Obj>)
    requires Startable(t, s, T0) && Underway(t, s, T0, T, results) && |results| < |t.reqs|
    ensures IsThere(T, s.found[|results|]) && IsThere(T, s.patchable[|results|])
    ensures s.found[|results|].Some? ==> Equal(t, s.found[|results|].value, t.reqs[|results|])
  {
    hide Equal, Apart, Underway;
    if Server(s, |results|).Some? { ServerUnserved(t, s, T0, T, results); }
  }

  lemma NoServeCalls(path: string, found: Option<Obj>, patchable: Option<Obj>)
    ensures ServeCalls(path, found, patchable) == [] <==> found.Some?
  {
  }

  /** Requests without a server are served by objects with new ids. */
  ghost predicate NewOnes(s: Slots, results: seq<Obj>, next: nat)
    requires |results| <= |s.found| == |s.patchable|
  {
    forall j :: 0 <= j < |results| && Server(s, j).None? ==> !HandedOut(IdAt(results[j]), next)
  }

  lemma NewOnesNext(s: Slots, results: seq<Obj>, o: Obj, next: nat, now: nat)
    requires |results| < |s.found| == |s.patchable| && NewOnes(s, results, next) && next <= now
    requires Server(s, |results|).None? ==> !HandedOut(IdAt(o), now)
    ensures NewOnes(s, results + [o], next)
  {
    hide IdAt, Server;
  }

  lemma NoNewOnes(s: Slots, next: nat)
    requires |s.found| == |s.patchable|
    ensures NewOnes(s, [], next)
  {
  }

  method ApplyRequests(r: RouterOS, path: string, t: Task, found: array<Option<Obj>>, patchable: array<Option<Obj>>,
                       ghost s: Slots)
    returns (ok: bool, results: seq<Obj>, ghost calls: seq<Call>)
    requires r.Valid() && found[..] == s.found && patchable[..] == s.patchable && Startable(t, s, r.At(path))
    requires t.reqs == [] || ID in t.ignored
    modifies r
    ensures r.Valid() && OnlyPath(old(r.resources), r.resources, path)
    ensures |t.reqs| == |s.found| == |s.patchable| && Underway(t, s, old(r.At(path)), r.At(path), results)
    ensures |results| <= |t.reqs| && NewOnes(s, results, old(r.nextID))
    ensures r.requests == old(r.requests) + calls && calls <= AllServeCalls(path, s, |t.reqs|)
    ensures calls == [] ==> r.At(path) == old(r.At(path))
    ensures ok ==> |results| == |t.reqs| && calls == AllServeCalls(path, s, |t.reqs|)
    ensures r.failures >= old(r.failures) && (ok <==> r.failures == old(r.failures))
  {
    hide RouterOS.Valid, Equal, Apart, Underway, ServeCalls, ServedBy, IsThere, NewOnes, HandedOut;
    ghost var T0 := r.At(path);
    results, calls := [], [];
    NothingUnderway(t, s, T0);
    NoNewOnes(s, r.nextID);
    while |results| < |t.reqs|
      invariant |results| <= |t.reqs| && found[..] == s.found && patchable[..] == s.patchable
      invariant r.Valid() && OnlyPath(old(r.resources), r.resources, path) && r.failures == old(r.failures)
      invariant Underway(t, s, T0, r.At(path), results)
      invariant r.nextID >= old(r.nextID) && NewOnes(s, results, old(r.nextID))
      invariant r.requests == old(r.requests) + calls && calls == AllServeCalls(path, s, |results|)
      invariant calls == [] ==> r.At(path) == T0
      decreases |t.reqs| - |results|
    {
      var i := |results|;
      ghost var T, now := r.At(path), r.nextID;
      RoundReady(t, s, T0, T, results);
      assert found[i] == s.found[i] && patchable[i] == s.patchable[i];
      var o;
      ok, o := ServeRequest(r, path, t, i, found[i], patchable[i]);
      calls := calls + ServeCalls(path, s.found[i], s.patchable[i]);
      NoServeCalls(path, s.found[i], s.patchable[i]);
      ServeCallsPrefix(path, s, i + 1, |t.reqs|);
      if !ok {
        return;
      }
      UnderwayNext(t, s, T0, T, results, o);
      NewOnesNext(s, results, o, old(r.nextID), now);
      results := results + [o];
    }
    ok := true;
  }

  // ---------- Sync ----------

  /** The slots Sync acts on. */
  function Plan(t: Task, seen: seq<Obj>): (s: Slots)
    ensures |t.reqs| == |s.found| == |s.patchable|
  {
    DemoteFrom(MatchAll(t, seen), 0)
  }

  lemma PlanMatched(t: Task, seen: seq<Obj>)
    requires DistinctIds(seen)
    ensures Matched(t, seen, Plan(t, seen))
    ensures forall j :: 0 <= j < |t.reqs| ==> Plan(t, seen).found[j].None? || Plan(t, seen).patchable[j].None?
  {
    hide Matched, MatchAll, DemoteFrom, LeftoversFit;
    MatchAllMatched(t, seen);
    DemoteMatched(t, seen, MatchAll(t, seen), 0);
  }

  /** An exactly matched object is never patched or deleted. */
  lemma FoundIsUntouched(t: Task, seen: seq<Obj>, path: string, j: nat)
    requires DistinctIds(seen) && j < |t.reqs| && Plan(t, seen).found[j].Some?
    ensures var o := Plan(t, seen).found[j].value;
            && o in seen && Equal(t, o, t.reqs[j])
            && PatchCall(path, IdAt(o)) !in PlannedCalls(path, Plan(t, seen))
            && DeleteCall(path, IdAt(o)) !in PlannedCalls(path, Plan(t, seen))
  {
    hide Plan, Equal, SameId, IdAt, DeleteCalls, AllServeCalls;
    PlanMatched(t, seen);
    PlacedIds(t, seen, Plan(t, seen));
    var s := Plan(t, seen);
    forall c | c in PlannedCalls(path, s) ensures c != PatchCall(path, IdAt(s.found[j].value)) && c != DeleteCall(path, IdAt(s.found[j].value)) {
      if c in DeleteCalls(path, s.conflicts) {
        DeleteCallsOnly(path, s.conflicts, c);
      } else {
        ServeCallsOnly(path, s, |s.found|, c);
      }
    }
  }

  /** The slots hold the objects of the table that are in scope. */
  ghost predicate HoldsScope(t: Task, s: Slots, B: Table) {
    && (forall id :: id in B ==> IdAt(B[id]) == id && id != "")
    && (forall id :: id in B ==> (InScope(t, B[id]) <==> Placed(s, B[id])))
    && (forall o :: Placed(s, o) ==> IdAt(o) in B && B[IdAt(o)] == o)
  }

  lemma PlanHoldsScope(t: Task, seen: seq<Obj>, B: Table, next: nat)
    requires TableOk(B, next) && Shown(B, t.query, seen)
    ensures DistinctIds(seen) && HoldsScope(t, Plan(t, seen), B)
  {
    hide Plan, Placed, Apart, FitsAll, MatchesQuery, HandedOut;
    PlanMatched(t, seen);
    var s := Plan(t, seen);
    forall o | Placed(s, o) ensures IdAt(o) in B && B[IdAt(o)] == o && InScope(t, o) {
      var i :| 0 <= i < |seen| && seen[i] == o;
    }
    forall id | id in B && InScope(t, B[id]) ensures Placed(s, B[id]) {
      assert B[id] in seen;
    }
  }

  /** The first `done` leftovers are gone. */
  ghost predicate Cleared(s: Slots, B: Table, T0: Table, done: nat) {
    done <= |s.conflicts| && T0 == B - (Ids(s.conflicts[..done]) - {""})
  }

  lemma ClearedOnlyLeftovers(t: Task, s: Slots, B: Table, T0: Table, done: nat, id: string)
    requires HoldsScope(t, s, B) && Cleared(s, B, T0, done) && id in B
    ensures id in T0 ==> T0[id] == B[id]
    ensures id !in T0 ==> InScope(t, B[id]) && B[id] in s.conflicts
    ensures done == |s.conflicts| && B[id] in s.conflicts ==> id !in T0
  {
    hide InScope, IdAt;
    if id !in T0 {
      var k :| 0 <= k < done && IdAt(s.conflicts[..done][k]) == id;
      assert Placed(s, s.conflicts[k]);
    }
    if done == |s.conflicts| && B[id] in s.conflicts {
      var k :| 0 <= k < |s.conflicts| && s.conflicts[k] == B[id];
      assert IdAt(s.conflicts[..done][k]) == id;
    }
  }

  lemma ServerPlaced(s: Slots, j: nat)
    requires j < |s.found| == |s.patchable| && Server(s, j).Some?
    ensures Placed(s, Server(s, j).value)
  {
  }

  lemma ServerNotLeftover(s: Slots, j: nat)
    requires j < |s.found| == |s.patchable| && Server(s, j).Some? && Apart(s)
    ensures Server(s, j).value !in s.conflicts
  {
  }

  lemma ClearedStartable(t: Task, seen: seq<Obj>, B: Table, T0: Table, done: nat)
    requires DistinctIds(seen) && HoldsScope(t, Plan(t, seen), B) && Cleared(Plan(t, seen), B, T0, done)
    ensures Startable(t, Plan(t, seen), T0)
  {
    hide Plan, Apart, Equal, SameId, HoldsScope, Cleared, Placed;
    PlanMatched(t, seen);
    var s := Plan(t, seen);
    forall j | 0 <= j < |s.found| && Server(s, j).Some?
      ensures var o := Server(s, j).value; IdAt(o) != "" && IdAt(o) in T0 && T0[IdAt(o)] == o {
      var o := Server(s, j).value;
      ServerPlaced(s, j);
      ServerNotLeftover(s, j);
      assert IdAt(o) in B && B[IdAt(o)] == o && IdAt(o) != "" by { HeldIds(t, s, B, o); }
      ClearedOnlyLeftovers(t, s, B, T0, done, IdAt(o));
    }
  }

  lemma HeldIds(t: Task, s: Slots, B: Table, o: Obj)
    requires HoldsScope(t, s, B) && Placed(s, o)
    ensures IdAt(o) in B && B[IdAt(o)] == o && IdAt(o) != "" && InScope(t, o)
  {
    hide Placed, InScope, IdAt;
  }

  /** Only scoped objects and new ones ever serve a request. */
  lemma ServesInScope(t: Task, s: Slots, B: Table, T0: Table, done: nat, T: Table, results: seq<Obj>, id: string)
    requires |t.reqs| == |s.found| == |s.patchable| && HoldsScope(t, s, B) && Cleared(s, B, T0, done)
    requires ServedSoFar(t, s, T0, T, results) && Serves(results, id) && id in B
    ensures InScope(t, B[id])
  {
    hide HoldsScope, Cleared, InScope, IdAt, Placed, Equal;
    var j :| 0 <= j < |results| && IdAt(results[j]) == id;
    if Server(s, j).Some? {
      ServerPlaced(s, j);
      HeldIds(t, s, B, Server(s, j).value);
    } else {
      ClearedOnlyLeftovers(t, s, B, T0, done, id);
    }
  }

  lemma OutOfScopeKept(t: Task, s: Slots, B: Table, T0: Table, done: nat, T: Table, results: seq<Obj>)
    requires |t.reqs| == |s.found| == |s.patchable| && HoldsScope(t, s, B) && Cleared(s, B, T0, done)
    requires Underway(t, s, T0, T, results)
    ensures forall id :: id in B && !InScope(t, B[id]) ==> id in T && T[id] == B[id] && !Serves(results, id)
  {
    hide HoldsScope, Cleared, InScope, Serves, ServedSoFar;
    forall id | id in B && !InScope(t, B[id]) ensures id in T && T[id] == B[id] && !Serves(results, id) {
      ClearedOnlyLeftovers(t, s, B, T0, done, id);
      if Serves(results, id) { ServesInScope(t, s, B, T0, done, T, results, id); }
    }
  }

  lemma ServesEqual(t: Task, s: Slots, T0: Table, T: Table, results: seq<Obj>, id: string)
    requires |t.reqs| == |s.found| == |s.patchable| && ServedSoFar(t, s, T0, T, results) && Serves(results, id)
    ensures id in T && EqualsSome(t, T[id])
  {
    hide Equal, IdAt;
  }

  /** Wherever the calls stop, the scope's outside is untouched. */
  lemma PartwayInterrupted(t: Task, s: Slots, B: Table, T0: Table, done: nat, T: Table, results: seq<Obj>)
    requires |t.reqs| == |s.found| == |s.patchable| && HoldsScope(t, s, B) && Cleared(s, B, T0, done)
    requires Underway(t, s, T0, T, results)
    ensures Interrupted(B, T, t)
  {
    hide HoldsScope, InScope, Serves, ServedSoFar, EqualsSome, Ids;
    OutOfScopeKept(t, s, B, T0, done, T, results);
    forall id | id in T
      ensures (id in B && T[id] == B[id]) || (EqualsSome(t, T[id]) && (id in B ==> InScope(t, B[id]))) {
      if Serves(results, id) {
        ServesEqual(t, s, T0, T, results, id);
        if id in B { ServesInScope(t, s, B, T0, done, T, results, id); }
      }
    }
  }

  /** What was in scope and serves no request was a leftover. */
  lemma UnservedIsLeftover(t: Task, s: Slots, T0: Table, T: Table, results: seq<Obj>, o: Obj)
    requires Startable(t, s, T0) && ServedSoFar(t, s, T0, T, results) && |results| == |t.reqs|
    requires Placed(s, o) && !Serves(results, IdAt(o))
    ensures o in s.conflicts
  {
    hide Equal, Apart, IdAt;
    forall j | 0 <= j < |s.found| ensures s.found[j] != Some(o) && s.patchable[j] != Some(o) {
      assert Server(s, j) != Some(o) by { assert IdAt(results[j]) != IdAt(o); }
    }
  }

  lemma FinallyConverged(t: Task, s: Slots, B: Table, T0: Table, T: Table, results: seq<Obj>)
    requires |t.reqs| == |s.found| == |s.patchable| && HoldsScope(t, s, B) && Cleared(s, B, T0, |s.conflicts|)
    requires Startable(t, s, T0) && Underway(t, s, T0, T, results) && |results| == |t.reqs|
    ensures Converged(B, T, t, results)
  {
    hide HoldsScope, InScope, Serves, Startable, Equal, IdAt, Ids, Placed;
    OutOfScopeKept(t, s, B, T0, |s.conflicts|, T, results);
    forall id | id in T && !Serves(results, id) ensures id in B && !InScope(t, B[id]) {
      if InScope(t, B[id]) {
        HeldBack(t, s, B, id);
        UnservedIsLeftover(t, s, T0, T, results, B[id]);
        ClearedOnlyLeftovers(t, s, B, T0, |s.conflicts|, id);
      }
    }
  }

  lemma HeldBack(t: Task, s: Slots, B: Table, id: string)
    requires HoldsScope(t, s, B) && id in B && InScope(t, B[id])
    ensures Placed(s, B[id]) && IdAt(B[id]) == id
  {
    hide Placed, InScope, IdAt;
  }

  lemma NothingInterrupted(t: Task, B: Table)
    ensures Interrupted(B, B, t)
  {
  }

  // ---------- which calls, and for what ----------

  /** The requests are in their own scope, and the scope and the ids depend on visible fields only. */
  ghost predicate OwnScope(t: Task) {
    && (forall j :: 0 <= j < |t.reqs| ==> InScope(t, t.reqs[j]))
    && t.query.Keys !! t.ignored
    && (forall a, b :: Visible(a, t.ignored) == Visible(b, t.ignored) ==> t.filter(a) == t.filter(b) && SameId(t, a, b))
  }

  /** The requests have different ids; so without an id function there is at most one. */
  ghost predicate DistinctRequests(t: Task) {
    forall i, j :: 0 <= i < j < |t.reqs| ==> !SameId(t, t.reqs[i], t.reqs[j])
  }

  /** Two requests that an object fits are the same request. */
  lemma OnlyOneFits(t: Task, o: Obj, i: nat, j: nat)
    requires OwnScope(t) && DistinctRequests(t) && i < |t.reqs| && j < |t.reqs|
    requires Equal(t, o, t.reqs[i]) && SameId(t, o, t.reqs[j])
    ensures i == j
  {
    hide InScope;
    assert SameId(t, o, t.reqs[i]);
    assert SameId(t, t.reqs[i], t.reqs[j]) && SameId(t, t.reqs[j], t.reqs[i]);
  }

  lemma FoundIsSameId(t: Task, s: Slots, j: nat)
    requires OwnScope(t) && FitsAll(t, s) && j < |t.reqs| && s.found[j].Some?
    ensures SameId(t, s.found[j].value, t.reqs[j])
  {
    hide InScope, SameId;
  }

  /** Some listed object in scope has the id of request j. */
  ghost predicate HasId(t: Task, seen: seq<Obj>, j: nat)
    requires j < |t.reqs|
  {
    exists o :: o in seen && t.filter(o) && SameId(t, o, t.reqs[j])
  }

  /** Some listed object in scope is request j already. */
  ghost predicate HasExact(t: Task, seen: seq<Obj>, j: nat)
    requires j < |t.reqs|
  {
    exists o :: o in seen && t.filter(o) && Equal(t, o, t.reqs[j])
  }

  /** How many of the first n requests have an id that no listed object has. */
  ghost function Missing(t: Task, seen: seq<Obj>, n: nat): nat
    requires n <= |t.reqs|
  {
    if n == 0 then 0 else Missing(t, seen, n - 1) + if HasId(t, seen, n - 1) then 0 else 1
  }

  /** Request j is served by an object that was listed with its id, with its ignored fields, and unchanged if one
      was right already; or, if none has its id, by a new one. */
  ghost predicate Reuses(t: Task, before: Table, seen: seq<Obj>, results: seq<Obj>, j: nat)
    requires j < |results| == |t.reqs|
  {
    var id := IdAt(results[j]);
    if HasId(t, seen, j) then
      && id in before && before[id] in seen && t.filter(before[id]) && SameId(t, before[id], t.reqs[j])
      && KeepsIgnored(t, before[id], results[j])
      && (HasExact(t, seen, j) ==> results[j] == before[id])
    else id !in before
  }

  ghost predicate ToPatch(t: Task, seen: seq<Obj>, results: seq<Obj>, j: nat, id: string)
    requires j < |results| == |t.reqs|
  {
    HasId(t, seen, j) && !HasExact(t, seen, j) && IdAt(results[j]) == id
  }

  ghost predicate ToDelete(t: Task, seen: seq<Obj>, results: seq<Obj>, id: string) {
    exists o :: o in seen && t.filter(o) && IdAt(o) == id && !Serves(results, id)
  }

  /** Nothing is sent that need not be: a request whose id is listed is served by reuse, patched once if it must be;
      only the others are created; and what is deleted, once and before anything else is sent, serves no request. */
  ghost predicate Economical(path: string, t: Task, before: Table, seen: seq<Obj>, calls: seq<Call>, results: seq<Obj>) {
    && |results| == |t.reqs|
    && (forall j :: 0 <= j < |results| ==> Reuses(t, before, seen, results, j))
    && (forall id :: multiset(calls)[PatchCall(path, id)] ==
          if exists j :: 0 <= j < |results| && ToPatch(t, seen, results, j, id) then 1 else 0)
    && (forall id :: multiset(calls)[DeleteCall(path, id)] == if ToDelete(t, seen, results, id) then 1 else 0)
    && multiset(calls)[PutCall(path)] == Missing(t, seen, |t.reqs|)
    && (forall c :: c in calls ==> c == PutCall(path) || exists id :: c == PatchCall(path, id) || c == DeleteCall(path, id))
    && (forall i, j :: 0 <= i < j < |calls| && calls[j].DeleteCall? ==> calls[i].DeleteCall?)
  }

  /** With different ids, the slots say which requests have a listed object. */
  lemma SlotsSay(t: Task, seen: seq<Obj>, j: nat)
    requires OwnScope(t) && DistinctRequests(t) && DistinctIds(seen) && j < |t.reqs|
    ensures MatchAll(t, seen).found[j].Some? <==> HasExact(t, seen, j)
    ensures MatchAll(t, seen).found[j].Some? || MatchAll(t, seen).patchable[j].Some? <==> HasId(t, seen, j)
  {
    hide OwnScope, DistinctRequests, DistinctIds, Equal, SameId, MatchAll, Apart;
    var s := MatchAll(t, seen);
    MatchAllMatched(t, seen);
    PlacedIds(t, seen, s);
    if s.found[j].Some? {
      assert Placed(s, s.found[j].value);
      FoundIsSameId(t, s, j);
    }
    if s.patchable[j].Some? {
      assert Placed(s, s.patchable[j].value);
    }
    forall o | o in seen && t.filter(o) && SameId(t, o, t.reqs[j])
      ensures s.found[j].Some? || s.patchable[j].Some?
      ensures Equal(t, o, t.reqs[j]) ==> s.found[j].Some? {
      TakenUp(t, seen, s, o, j);
    }
    forall o | o in seen && t.filter(o) && Equal(t, o, t.reqs[j]) ensures s.found[j].Some? {
      EqualIsSameId(t, o, j);
    }
  }

  lemma EqualIsSameId(t: Task, o: Obj, j: nat)
    requires OwnScope(t) && j < |t.reqs| && Equal(t, o, t.reqs[j])
    ensures SameId(t, o, t.reqs[j])
  {
    hide InScope, SameId;
  }

  /** An object with a request's id fills a slot of that request or finds it filled. */
  lemma TakenUp(t: Task, seen: seq<Obj>, s: Slots, o: Obj, j: nat)
    requires OwnScope(t) && DistinctRequests(t) && Matched(t, seen, s) && LeftoversFit(t, s)
    requires j < |t.reqs| && o in seen && t.filter(o) && SameId(t, o, t.reqs[j])
    ensures s.found[j].Some? || s.patchable[j].Some?
    ensures Equal(t, o, t.reqs[j]) ==> s.found[j].Some?
  {
    hide OwnScope, DistinctRequests, Equal, SameId, Apart;
    assert Placed(s, o);
    if k :| 0 <= k < |s.found| && s.found[k] == Some(o) {
      FoundIsSameId(t, s, k);
      OneId(t, o, j, k);
    } else if k :| 0 <= k < |s.patchable| && s.patchable[k] == Some(o) {
      OneId(t, o, j, k);
    }
  }

  /** Two requests whose ids an object has are the same request. */
  lemma OneId(t: Task, o: Obj, i: nat, j: nat)
    requires DistinctRequests(t) && i < |t.reqs| && j < |t.reqs|
    requires SameId(t, o, t.reqs[i]) && SameId(t, o, t.reqs[j])
    ensures i == j
  {
    assert SameId(t, t.reqs[i], t.reqs[j]) && SameId(t, t.reqs[j], t.reqs[i]);
  }

  lemma {:induction false} DemotedAt(s: Slots, i: nat, j: nat)
    requires i <= |s.found| == |s.patchable| && j < |s.found|
    ensures DemoteFrom(s, i).patchable[j] == if j >= i && s.found[j].Some? then None else s.patchable[j]
    decreases |s.found| - i
  {
    if i < |s.found| {
      if s.found[i].Some? && s.patchable[i].Some? {
        DemotedAt(Slots(s.found, s.patchable[i := None], s.conflicts + [s.patchable[i].value]), i + 1, j);
      } else {
        DemotedAt(s, i + 1, j);
      }
    }
  }

  lemma PlanSays(t: Task, seen: seq<Obj>, j: nat)
    requires OwnScope(t) && DistinctRequests(t) && DistinctIds(seen) && j < |t.reqs|
    ensures Plan(t, seen).found[j].Some? <==> HasExact(t, seen, j)
    ensures Server(Plan(t, seen), j).Some? <==> HasId(t, seen, j)
  {
    hide OwnScope, DistinctRequests, DistinctIds, MatchAll, HasExact, HasId;
    SlotsSay(t, seen, j);
    DemotedAt(MatchAll(t, seen), 0, j);
  }

  ghost predicate HasIdIn(os: seq<Obj>, id: string) {
    exists i :: 0 <= i < |os| && IdAt(os[i]) == id
  }

  lemma {:induction false} DeleteCallsCount(path: string, conflicts: seq<Obj>, id: string)
    requires DistinctIds(conflicts) && forall i :: 0 <= i < |conflicts| ==> IdAt(conflicts[i]) != ""
    ensures multiset(DeleteCalls(path, conflicts))[DeleteCall(path, id)] == if HasIdIn(conflicts, id) then 1 else 0
    ensures multiset(DeleteCalls(path, conflicts))[PatchCall(path, id)] == 0
    ensures multiset(DeleteCalls(path, conflicts))[PutCall(path)] == 0
  {
    hide IdAt;
    if conflicts != [] {
      var n := |conflicts| - 1;
      DeleteCallsCount(path, conflicts[..n], id);
      HasIdInLast(conflicts, id);
    }
  }

  lemma HasIdInLast(os: seq<Obj>, id: string)
    requires os != []
    ensures HasIdIn(os, id) <==> HasIdIn(os[..|os| - 1], id) || IdAt(os[|os| - 1]) == id
  {
    hide IdAt;
    var n := |os| - 1;
    if i :| 0 <= i < |os| && IdAt(os[i]) == id && i < n { assert os[..n][i] == os[i]; }
    if i :| 0 <= i < n && IdAt(os[..n][i]) == id { assert os[i] == os[..n][i]; }
  }

  ghost predicate Patches(s: Slots, n: nat, id: string)
    requires n <= |s.found| == |s.patchable|
  {
    exists j :: 0 <= j < n && s.found[j].None? && s.patchable[j].Some? && IdAt(s.patchable[j].value) == id
  }

  ghost function Unserved(s: Slots, n: nat): nat
    requires n <= |s.found| == |s.patchable|
  {
    if n == 0 then 0 else Unserved(s, n - 1) + if Server(s, n - 1).Some? then 0 else 1
  }

  lemma {:induction false} ServeCallsCount(path: string, s: Slots, n: nat, id: string)
    requires n <= |s.found| == |s.patchable| && Apart(s)
    ensures multiset(AllServeCalls(path, s, n))[DeleteCall(path, id)] == 0
    ensures multiset(AllServeCalls(path, s, n))[PatchCall(path, id)] == if Patches(s, n, id) then 1 else 0
    ensures multiset(AllServeCalls(path, s, n))[PutCall(path)] == Unserved(s, n)
  {
    hide IdAt;
    if n > 0 {
      ServeCallsCount(path, s, n - 1, id);
      PatchesLast(s, n, id);
    }
  }

  lemma PatchesLast(s: Slots, n: nat, id: string)
    requires 0 < n <= |s.found| == |s.patchable| && Apart(s)
    ensures var last := s.found[n - 1].None? && s.patchable[n - 1].Some? && IdAt(s.patchable[n - 1].value) == id;
            && (Patches(s, n, id) <==> Patches(s, n - 1, id) || last)
            && !(Patches(s, n - 1, id) && last)
  {
    hide IdAt;
  }

  lemma {:induction false} UnservedAreMissing(t: Task, seen: seq<Obj>, n: nat)
    requires OwnScope(t) && DistinctRequests(t) && DistinctIds(seen) && n <= |t.reqs|
    ensures Unserved(Plan(t, seen), n) == Missing(t, seen, n)
  {
    hide OwnScope, DistinctRequests, DistinctIds, Plan, HasExact, HasId;
    if n > 0 {
      UnservedAreMissing(t, seen, n - 1);
      PlanSays(t, seen, n - 1);
    }
  }

  /** The results of a Sync that acted on its plan. */
  ghost predicate ActedOn(t: Task, seen: seq<Obj>, B: Table, next: nat, T0: Table, T: Table, results: seq<Obj>) {
    && OwnScope(t) && DistinctRequests(t) && TableOk(B, next) && Shown(B, t.query, seen) && |results| == |t.reqs|
    && ServedSoFar(t, Plan(t, seen), T0, T, results) && NewOnes(Plan(t, seen), results, next)
  }

  lemma ServerListed(t: Task, seen: seq<Obj>, B: Table, next: nat, j: nat)
    requires OwnScope(t) && TableOk(B, next) && Shown(B, t.query, seen) && j < |t.reqs| && Server(Plan(t, seen), j).Some?
    ensures var o := Server(Plan(t, seen), j).value;
            && IdAt(o) in B && B[IdAt(o)] == o && o in seen && t.filter(o) && SameId(t, o, t.reqs[j])
  {
    hide OwnScope, TableOk, Shown, DistinctIds, HoldsScope, Equal, SameId, Apart, Placed, Plan, IdAt;
    var s := Plan(t, seen);
    PlanHoldsScope(t, seen, B, next);
    PlanMatched(t, seen);
    ServerPlaced(s, j);
    HeldIds(t, s, B, Server(s, j).value);
    if s.found[j].Some? { FoundIsSameId(t, s, j); }
  }

  lemma ReusesAt(t: Task, seen: seq<Obj>, B: Table, next: nat, T0: Table, T: Table, results: seq<Obj>, j: nat)
    requires ActedOn(t, seen, B, next, T0, T, results) && j < |t.reqs|
    ensures Reuses(t, B, seen, results, j)
  {
    hide OwnScope, DistinctRequests, Shown, HandedOut, DistinctIds, Equal, SameId, Plan, IdAt, KeepsIgnored, HasId, HasExact;
    PlanHoldsScope(t, seen, B, next);
    PlanSays(t, seen, j);
    if Server(Plan(t, seen), j).Some? {
      ServerListed(t, seen, B, next, j);
    } else {
      assert IdAt(results[j]) !in B by { NeverHandedOut(B, next, IdAt(results[j])); }
    }
  }

  lemma NeverHandedOut(B: Table, next: nat, id: string)
    requires TableOk(B, next) && !HandedOut(id, next)
    ensures id !in B
  {
    hide HandedOut;
  }

  lemma PatchesAre(t: Task, seen: seq<Obj>, B: Table, next: nat, T0: Table, T: Table, results: seq<Obj>, id: string)
    requires ActedOn(t, seen, B, next, T0, T, results)
    ensures Patches(Plan(t, seen), |t.reqs|, id) <==> exists j :: 0 <= j < |results| && ToPatch(t, seen, results, j, id)
  {
    hide OwnScope, DistinctRequests, Shown, TableOk, DistinctIds, Equal, SameId, Plan, IdAt, KeepsIgnored, HasId, HasExact, NewOnes;
    var s := Plan(t, seen);
    PlanHoldsScope(t, seen, B, next);
    forall j | 0 <= j < |results|
      ensures ToPatch(t, seen, results, j, id) <==> s.found[j].None? && s.patchable[j].Some? && IdAt(s.patchable[j].value) == id {
      PlanSays(t, seen, j);
    }
    if j :| 0 <= j < |results| && s.found[j].None? && s.patchable[j].Some? && IdAt(s.patchable[j].value) == id {
      assert ToPatch(t, seen, results, j, id);
    }
  }

  lemma DeletesAre(t: Task, seen: seq<Obj>, B: Table, next: nat, T0: Table, T: Table, results: seq<Obj>, id: string)
    requires ActedOn(t, seen, B, next, T0, T, results)
    ensures HasIdIn(Plan(t, seen).conflicts, id) <==> ToDelete(t, seen, results, id)
  {
    hide OwnScope, DistinctRequests, Shown, TableOk, DistinctIds, Equal, SameId, Plan, IdAt, HoldsScope, Placed, ServedSoFar, NewOnes, Apart;
    var s := Plan(t, seen);
    PlanHoldsScope(t, seen, B, next);
    PlanMatched(t, seen);
    if i :| 0 <= i < |s.conflicts| && IdAt(s.conflicts[i]) == id {
      LeftoverPlaced(s, i);
      HeldIds(t, s, B, s.conflicts[i]);
      LeftoverServesNothing(t, seen, B, next, T0, T, results, i);
    }
    if o :| o in seen && t.filter(o) && IdAt(o) == id && !Serves(results, id) {
      assert Placed(s, o);
      UnservedIsConflict(t, s, T0, T, results, o);
      var i :| 0 <= i < |s.conflicts| && s.conflicts[i] == o;
    }
  }

  lemma UnservedIsConflict(t: Task, s: Slots, T0: Table, T: Table, results: seq<Obj>, o: Obj)
    requires |t.reqs| == |s.found| == |s.patchable| == |results| && ServedSoFar(t, s, T0, T, results)
    requires forall j :: 0 <= j < |s.found| ==> s.found[j].None? || s.patchable[j].None?
    requires Placed(s, o) && !Serves(results, IdAt(o))
    ensures o in s.conflicts
  {
    hide Equal, IdAt, KeepsIgnored;
    forall j | 0 <= j < |s.found| ensures s.found[j] != Some(o) && s.patchable[j] != Some(o) {
      assert IdAt(results[j]) != IdAt(o);
    }
  }

  lemma LeftoverServesNothing(t: Task, seen: seq<Obj>, B: Table, next: nat, T0: Table, T: Table, results: seq<Obj>, i: nat)
    requires ActedOn(t, seen, B, next, T0, T, results) && i < |Plan(t, seen).conflicts|
    ensures !Serves(results, IdAt(Plan(t, seen).conflicts[i]))
  {
    hide OwnScope, DistinctRequests, Shown, TableOk, DistinctIds, Equal, SameId, Plan, IdAt, HoldsScope, Placed, HandedOut, KeepsIgnored;
    var s := Plan(t, seen);
    PlanHoldsScope(t, seen, B, next);
    PlanMatched(t, seen);
    LeftoverPlaced(s, i);
    HeldIds(t, s, B, s.conflicts[i]);
    forall j | 0 <= j < |results| ensures IdAt(results[j]) != IdAt(s.conflicts[i]) {
      if Server(s, j).None? { NeverHandedOut(B, next, IdAt(results[j])); }
    }
  }

  lemma PlanIsEconomical(path: string, t: Task, seen: seq<Obj>, B: Table, next: nat, T0: Table, T: Table, results: seq<Obj>)
    requires ActedOn(t, seen, B, next, T0, T, results)
    ensures Economical(path, t, B, seen, PlannedCalls(path, Plan(t, seen)), results)
  {
    hide ActedOn, Plan, Reuses, ToPatch, ToDelete, DeleteCalls, AllServeCalls, Missing, Unserved, Patches, HasIdIn, Apart, DistinctIds, IdAt;
    var s, n := Plan(t, seen), |t.reqs|;
    var a, b := DeleteCalls(path, s.conflicts), AllServeCalls(path, s, n);
    assert |results| == n && Apart(s) && DistinctIds(s.conflicts) && forall i :: 0 <= i < |s.conflicts| ==> IdAt(s.conflicts[i]) != "" by {
      PlanApart(t, seen, B, next, T0, T, results);
    }
    assert multiset(a + b) == multiset(a) + multiset(b);
    forall j | 0 <= j < |results| ensures Reuses(t, B, seen, results, j) { ReusesAt(t, seen, B, next, T0, T, results, j); }
    forall id ensures multiset(a + b)[PatchCall(path, id)] == if exists j :: 0 <= j < |results| && ToPatch(t, seen, results, j, id) then 1 else 0 {
      DeleteCallsCount(path, s.conflicts, id);
      ServeCallsCount(path, s, n, id);
      PatchesAre(t, seen, B, next, T0, T, results, id);
    }
    forall id ensures multiset(a + b)[DeleteCall(path, id)] == if ToDelete(t, seen, results, id) then 1 else 0 {
      DeleteCallsCount(path, s.conflicts, id);
      ServeCallsCount(path, s, n, id);
      DeletesAre(t, seen, B, next, T0, T, results, id);
    }
    assert multiset(a + b)[PutCall(path)] == Missing(t, seen, n) by {
      DeleteCallsCount(path, s.conflicts, "");
      ServeCallsCount(path, s, n, "");
      MissingAre(t, seen, B, next, T0, T, results);
    }
    forall c | c in a + b ensures c == PutCall(path) || exists id :: c == PatchCall(path, id) || c == DeleteCall(path, id) {
      if c in a { DeleteCallsOnly(path, s.conflicts, c); } else { ServeCallsOnly(path, s, n, c); }
    }
    DeletesFirst(path, s);
  }

  lemma DeletesFirst(path: string, s: Slots)
    requires |s.found| == |s.patchable|
    ensures var calls := PlannedCalls(path, s);
            forall i, j :: 0 <= i < j < |calls| && calls[j].DeleteCall? ==> calls[i].DeleteCall?
  {
    hide DeleteCalls, AllServeCalls, IdAt;
    var a, b := DeleteCalls(path, s.conflicts), AllServeCalls(path, s, |s.found|);
    forall i | 0 <= i < |a| ensures a[i].DeleteCall? { DeleteCallsOnly(path, s.conflicts, a[i]); }
    forall i | 0 <= i < |b| ensures !b[i].DeleteCall? { ServeCallsOnly(path, s, |s.found|, b[i]); }
  }

  lemma PlanApart(t: Task, seen: seq<Obj>, B: Table, next: nat, T0: Table, T: Table, results: seq<Obj>)
    requires ActedOn(t, seen, B, next, T0, T, results)
    ensures var s := Plan(t, seen);
            |results| == |t.reqs| && Apart(s) && DistinctIds(s.conflicts) && forall i :: 0 <= i < |s.conflicts| ==> IdAt(s.conflicts[i]) != ""
  {
    hide Plan, HoldsScope, TableOk, Shown, IdAt, Placed, ServedSoFar, NewOnes, OwnScope;
    PlanHoldsScope(t, seen, B, next);
    PlanMatched(t, seen);
    LeftoverIds(t, seen, B, next);
  }

  lemma MissingAre(t: Task, seen: seq<Obj>, B: Table, next: nat, T0: Table, T: Table, results: seq<Obj>)
    requires ActedOn(t, seen, B, next, T0, T, results)
    ensures Unserved(Plan(t, seen), |t.reqs|) == Missing(t, seen, |t.reqs|)
  {
    hide Plan, TableOk, Shown, ServedSoFar, NewOnes, OwnScope;
    PlanHoldsScope(t, seen, B, next);
    UnservedAreMissing(t, seen, |t.reqs|);
  }

  lemma DoneEconomically(path: string, t: Task, seen: seq<Obj>, B: Table, next: nat, T0: Table, T: Table, results: seq<Obj>)
    requires TableOk(B, next) && Shown(B, t.query, seen) && |results| == |t.reqs|
    requires Underway(t, Plan(t, seen), T0, T, results) && NewOnes(Plan(t, seen), results, next)
    ensures OwnScope(t) && DistinctRequests(t) ==> Economical(path, t, B, seen, PlannedCalls(path, Plan(t, seen)), results)
  {
    hide TableOk, Shown, Plan, NewOnes, ServedSoFar, OwnScope, DistinctRequests, Economical;
    if OwnScope(t) && DistinctRequests(t) {
      PlanIsEconomical(path, t, seen, B, next, T0, T, results);
    }
  }

  method Sync(r: RouterOS, path: string, t: Task)
    returns (ok: bool, results: seq<Obj>, seen: seq<Obj>, ghost calls: seq<Call>)
    requires r.Valid() && (t.reqs == [] || ID in t.ignored)
    modifies r
    ensures r.Valid() && OnlyPath(old(r.resources), r.resources, path)
    ensures ok ==> Converged(old(r.At(path)), r.At(path), t, results)
    ensures !ok ==> Interrupted(old(r.At(path)), r.At(path), t)
    ensures r.requests == old(r.requests) + [GetCall(path)] + calls
    ensures ok || calls != [] ==> Shown(old(r.At(path)), t.query, seen)
    ensures calls == [] ==> r.At(path) == old(r.At(path))
    ensures calls <= PlannedCalls(path, Plan(t, seen)) && (ok ==> calls == PlannedCalls(path, Plan(t, seen)))
    ensures ok && OwnScope(t) && DistinctRequests(t) ==> Economical(path, t, old(r.At(path)), seen, calls, results)
    ensures r.failures >= old(r.failures) && (ok <==> r.failures == old(r.failures))
  {
    hide RouterOS.Valid, Shown, Converged, Interrupted, Startable, Underway, HoldsScope, MatchAll, DemoteFrom, DeleteCalls, AllServeCalls, Ids, OwnScope, DistinctRequests, Economical, NewOnes, TableOk, IdAt;
    ghost var B, next := r.At(path), r.nextID;
    results, seen, calls := [], [], [];
    NothingInterrupted(t, B);
    var objs;
    ok, objs := r.HandleGet(path, t.query);
    if !ok {
      return;
    }
    seen := objs;
    ListedOk(r, path);
    ghost var s := Plan(t, seen);
    PlanHoldsScope(t, seen, B, r.nextID);
    var found, patchable, conflicts := MatchObjects(t, objs);
    conflicts := Demote(found, patchable, conflicts);
    LeftoversThere(t, seen, B);
    ghost var deletes, done;
    ok, deletes, done := DeleteConflicts(r, path, conflicts);
    ghost var T0 := r.At(path);
    NothingUnderway(t, s, T0);
    calls := deletes;
    if !ok {
      PartwayInterrupted(t, s, B, T0, done, T0, []);
      return;
    }
    ClearedStartable(t, seen, B, T0, done);
    ghost var rest;
    ok, results, rest := ApplyRequests(r, path, t, found, patchable, s);
    calls := deletes + rest;
    if ok {
      FinallyConverged(t, s, B, T0, r.At(path), results);
      DoneEconomically(path, t, seen, B, next, T0, r.At(path), results);
    } else {
      PartwayInterrupted(t, s, B, T0, done, r.At(path), results);
    }
  }

  lemma LeftoversThere(t: Task, seen: seq<Obj>, B: Table)
    requires DistinctIds(seen) && HoldsScope(t, Plan(t, seen), B)
    ensures DistinctIds(Plan(t, seen).conflicts)
    ensures forall i :: 0 <= i < |Plan(t, seen).conflicts| ==> IdAt(Plan(t, seen).conflicts[i]) in B
  {
    hide Plan, HoldsScope, IdAt, Placed, Equal, SameId;
    PlanMatched(t, seen);
    var s := Plan(t, seen);
    forall i | 0 <= i < |s.conflicts| ensures IdAt(s.conflicts[i]) in B {
      assert Placed(s, s.conflicts[i]) by { LeftoverPlaced(s, i); }
      HeldIds(t, s, B, s.conflicts[i]);
    }
  }

  lemma LeftoverPlaced(s: Slots, i: nat)
    requires i < |s.conflicts|
    ensures Placed(s, s.conflicts[i])
  {
  }

  lemma ListedOk(r: RouterOS, path: string)
    requires r.Valid()
    ensures TableOk(r.At(path), r.nextID)
  {
  }

  /** No planned call is a listing. */
  lemma PlannedWrites(path: string, s: Slots, c: Call)
    requires |s.found| == |s.patchable| && c in PlannedCalls(path, s)
    ensures !c.GetCall?
  {
    hide DeleteCalls, AllServeCalls;
    if c in DeleteCalls(path, s.conflicts) {
      DeleteCallsOnly(path, s.conflicts, c);
    } else {
      ServeCallsOnly(path, s, |s.found|, c);
    }
  }

  // ---------- Sync again ----------

  lemma ScopeIsVisible(t: Task, a: Obj, b: Obj)
    requires OwnScope(t) && Equal(t, a, b)
    ensures InScope(t, a) <==> InScope(t, b)
  {
    VisibleEqual(a, b, t.ignored);
    forall k | k in t.query ensures Get(a, k) == Get(b, k) {
      assert Lookup(a, k) == Lookup(b, k);
    }
  }

  /** After a Sync, what is listed in scope is what serves the requests. */
  lemma ListedServes(t: Task, before: Table, after: Table, results: seq<Obj>, seen: seq<Obj>, o: Obj)
    returns (j: nat)
    requires Converged(before, after, t, results) && Shown(after, t.query, seen) && o in seen && t.filter(o)
    ensures j < |results| && results[j] == o && Equal(t, o, t.reqs[j])
  {
    hide MatchesQuery, Equal;
    var i :| 0 <= i < |seen| && seen[i] == o;
    assert InScope(t, after[IdAt(o)]);
    assert Serves(results, IdAt(o));
    j :| 0 <= j < |results| && IdAt(results[j]) == IdAt(o);
  }

  lemma ServingIsListed(t: Task, before: Table, after: Table, results: seq<Obj>, seen: seq<Obj>, j: nat)
    requires Converged(before, after, t, results) && Shown(after, t.query, seen) && OwnScope(t) && j < |results|
    ensures results[j] in seen && t.filter(results[j])
  {
    ScopeIsVisible(t, results[j], t.reqs[j]);
  }

  /** Matching again finds every request served and nothing else. */
  lemma AllFound(t: Task, before: Table, after: Table, results: seq<Obj>, seen: seq<Obj>, s: Slots, j: nat)
    requires Converged(before, after, t, results) && Shown(after, t.query, seen) && OwnScope(t) && DistinctRequests(t) && DistinctIds(seen)
    requires Matched(t, seen, s) && LeftoversFit(t, s) && j < |t.reqs|
    ensures s.found[j] == Some(results[j])
  {
    hide Shown, OwnScope, Equal, SameId, Apart, Serves;
    ServingIsListed(t, before, after, results, seen, j);
    var o := results[j];
    assert Placed(s, o);
    if k :| 0 <= k < |s.found| && s.found[k] == Some(o) {
      FoundIsSameId(t, s, k);
      OnlyOneFits(t, o, j, k);
    } else {
      if k :| 0 <= k < |s.patchable| && s.patchable[k] == Some(o) {
        OnlyOneFits(t, o, j, k);
      }
      assert s.found[j].Some?;
      var x := s.found[j].value;
      assert Placed(s, x);
      var m := ListedServes(t, before, after, results, seen, x);
      FoundIsSameId(t, s, j);
      OnlyOneFits(t, x, m, j);
      assert false;
    }
  }

  lemma NothingElse(t: Task, before: Table, after: Table, results: seq<Obj>, seen: seq<Obj>, s: Slots)
    requires Converged(before, after, t, results) && Shown(after, t.query, seen) && OwnScope(t) && DistinctRequests(t) && DistinctIds(seen)
    requires Matched(t, seen, s) && LeftoversFit(t, s)
    ensures forall j :: 0 <= j < |t.reqs| ==> s.found[j].Some? && s.patchable[j].None?
    ensures s.conflicts == []
  {
    hide Shown, OwnScope, Equal, SameId, Serves, LeftoversFit;
    forall j | 0 <= j < |t.reqs| ensures s.found[j] == Some(results[j]) {
      AllFound(t, before, after, results, seen, s, j);
    }
    forall j | 0 <= j < |t.reqs| ensures s.patchable[j].None? {
      if s.patchable[j].Some? {
        assert Placed(s, s.patchable[j].value);
        var m := ListedServes(t, before, after, results, seen, s.patchable[j].value);
        assert false;
      }
    }
    if s.conflicts != [] {
      assert Placed(s, s.conflicts[0]);
      var m := ListedServes(t, before, after, results, seen, s.conflicts[0]);
      assert false;
    }
  }

  lemma {:induction false} NothingDemoted(s: Slots, i: nat)
    requires i <= |s.found| == |s.patchable| && forall j :: i <= j < |s.found| ==> s.patchable[j].None?
    ensures DemoteFrom(s, i) == s
    decreases |s.found| - i
  {
    if i < |s.found| { NothingDemoted(s, i + 1); }
  }

  /** When an object is an exact match of a later request, every earlier request with its id already has
      something to patch. */
  ghost predicate PassedOver(t: Task, s: Slots)
    requires |t.reqs| == |s.found| == |s.patchable|
  {
    forall i, j :: 0 <= i < j < |t.reqs| && s.found[j].Some? && SameId(t, s.found[j].value, t.reqs[i]) ==> s.patchable[i].Some?
  }

  lemma PassedOverNext(t: Task, s: Slots, o: Obj)
    requires |t.reqs| == |s.found| == |s.patchable| && PassedOver(t, s)
    ensures PassedOver(t, NextSlots(t, s, o))
  {
    hide Equal, SameId;
    var s' := NextSlots(t, s, o);
    forall i, j | 0 <= i < j < |t.reqs| && s'.found[j].Some? && SameId(t, s'.found[j].value, t.reqs[i])
      ensures s'.patchable[i].Some? {
      if s.found[j].None? { assert !FindsPlace(t, s, o, i); }
    }
  }

  lemma {:induction false} MatchAllPassesOver(t: Task, seen: seq<Obj>)
    ensures PassedOver(t, MatchAll(t, seen))
  {
    hide NextSlots, SameId, PassedOver;
    if seen == [] {
      assert PassedOver(t, MatchAll(t, [])) by { NothingPassedOver(t); }
    } else {
      var n := |seen| - 1;
      MatchAllPassesOver(t, seen[..n]);
      PassedOverNext(t, MatchAll(t, seen[..n]), seen[n]);
    }
  }

  lemma NothingPassedOver(t: Task)
    ensures PassedOver(t, MatchAll(t, []))
  {
  }

  /** Demoting something leaves something to delete. */
  lemma {:induction false} DemotedIsLeftover(s: Slots, i: nat)
    requires i <= |s.found| == |s.patchable|
    ensures |DemoteFrom(s, i).conflicts| >= |s.conflicts|
    ensures forall j :: i <= j < |s.found| && s.found[j].Some? && s.patchable[j].Some? ==> |DemoteFrom(s, i).conflicts| > |s.conflicts|
    decreases |s.found| - i
  {
    if i < |s.found| {
      if s.found[i].Some? && s.patchable[i].Some? {
        DemotedIsLeftover(Slots(s.found, s.patchable[i := None], s.conflicts + [s.patchable[i].value]), i + 1);
      } else {
        DemotedIsLeftover(s, i + 1);
      }
    }
  }

  /** Two requests with one id: whatever the router holds, Sync has something to do. */
  lemma SharedIdsNeverSettle(t: Task, seen: seq<Obj>, i: nat, j: nat)
    requires OwnScope(t) && i < j < |t.reqs| && SameId(t, t.reqs[i], t.reqs[j]) && DistinctIds(seen)
    ensures Plan(t, seen).conflicts != [] || Plan(t, seen).found[i].None? || Plan(t, seen).found[j].None?
  {
    hide InScope, SameId, MatchAll, DemoteFrom, LeftoversFit;
    var s := MatchAll(t, seen);
    MatchAllMatched(t, seen);
    MatchAllPassesOver(t, seen);
    DemotedIsLeftover(s, 0);
    if s.found[i].Some? && s.found[j].Some? {
      FoundIsSameId(t, s, j);
      SameIdTogether(t, s.found[j].value, t.reqs[j], t.reqs[i]);
    }
  }

  lemma SameIdTogether(t: Task, a: Obj, b: Obj, c: Obj)
    requires SameId(t, a, b) && SameId(t, c, b)
    ensures SameId(t, a, c)
  {
  }

  lemma SomethingToDelete(path: string, conflicts: seq<Obj>)
    requires conflicts != [] && forall i :: 0 <= i < |conflicts| ==> IdAt(conflicts[i]) != ""
    ensures DeleteCalls(path, conflicts) != []
  {
    hide IdAt;
  }

  /** Sync is a fixpoint exactly if the requests' ids differ: after one Sync, whatever the order of the listing, the
      next one sends nothing but its listing; otherwise every Sync deletes or creates something again. */
  lemma SecondSyncIsSilentIff(t: Task, before: Table, after: Table, results: seq<Obj>, seen: seq<Obj>, next: nat, path: string)
    requires Converged(before, after, t, results) && OwnScope(t) && TableOk(after, next) && Shown(after, t.query, seen)
    ensures PlannedCalls(path, Plan(t, seen)) == [] <==> DistinctRequests(t)
  {
    hide Converged, OwnScope, MatchAll, DemoteFrom, Matched, LeftoversFit, SameId, TableOk;
    var s := MatchAll(t, seen);
    MatchAllMatched(t, seen);
    NothingPlanned(path, Plan(t, seen), |t.reqs|);
    if DistinctRequests(t) {
      NothingElse(t, before, after, results, seen, s);
      NothingDemoted(s, 0);
    } else {
      var i, j :| 0 <= i < j < |t.reqs| && SameId(t, t.reqs[i], t.reqs[j]);
      SharedIdsNeverSettle(t, seen, i, j);
      LeftoverIds(t, seen, after, next);
      if Plan(t, seen).conflicts != [] { SomethingToDelete(path, Plan(t, seen).conflicts); }
    }
  }

  lemma LeftoverIds(t: Task, seen: seq<Obj>, B: Table, next: nat)
    requires TableOk(B, next) && Shown(B, t.query, seen)
    ensures forall i :: 0 <= i < |Plan(t, seen).conflicts| ==> IdAt(Plan(t, seen).conflicts[i]) != ""
  {
    hide Plan, TableOk, Shown, HoldsScope, IdAt;
    PlanHoldsScope(t, seen, B, next);
    var s := Plan(t, seen);
    forall i | 0 <= i < |s.conflicts| ensures IdAt(s.conflicts[i]) != "" {
      assert Placed(s, s.conflicts[i]);
      HeldIds(t, s, B, s.conflicts[i]);
    }
  }

  /** Any number of Syncs that stop part-way, each with its own failures, and a last one that succeeds reach what
      a single successful one reaches: the requests, and what was out of scope at the start. */
  lemma {:induction false} RetriesConverge(t: Task, tables: seq<Table>, after: Table, results: seq<Obj>)
    requires OwnScope(t) && tables != []
    requires forall i :: 0 < i < |tables| ==> Interrupted(tables[i - 1], tables[i], t)
    requires Converged(tables[|tables| - 1], after, t, results)
    ensures Converged(tables[0], after, t, results)
  {
    hide OwnScope, Interrupted, Converged;
    var n := |tables| - 1;
    if n > 0 {
      RetryConverges(t, tables[n - 1], tables[n], after, results);
      RetriesConverge(t, tables[..n], after, results);
    }
  }

  lemma RetryConverges(t: Task, before: Table, middle: Table, after: Table, results: seq<Obj>)
    requires OwnScope(t) && Interrupted(before, middle, t) && Converged(middle, after, t, results)
    ensures Converged(before, after, t, results)
  {
    hide OwnScope, InScope, Equal, IdAt, Serves;
    forall id | id in middle && EqualsSome(t, middle[id]) ensures InScope(t, middle[id]) {
      var j :| 0 <= j < |t.reqs| && Equal(t, middle[id], t.reqs[j]);
      ScopeIsVisible(t, middle[id], t.reqs[j]);
      assert InScope(t, t.reqs[j]) by { RequestInScope(t, j); }
    }
  }

  lemma RequestInScope(t: Task, j: nat)
    requires OwnScope(t) && j < |t.reqs|
    ensures InScope(t, t.reqs[j])
  {
  }
}
