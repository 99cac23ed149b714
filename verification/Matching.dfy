/** How Sync compares objects and matches them to requests. */
module Matching {
  import opened Net
  import opened Router

  /** The arguments of one Sync call; a nil filter is one that accepts everything. */
  datatype Task = Task(reqs: seq<Obj>, query: Query, filter: Obj -> bool, idFunc: Option<Obj -> string>, ignored: set<string>)

  /** The part of an object that Sync looks at. */
  function Visible(o: Obj, ignored: set<string>): Obj {
    o - ignored
  }

  /** The objects a Sync may touch. */
  predicate InScope(t: Task, o: Obj) {
    MatchesQuery(o, t.query) && t.filter(o)
  }

  predicate SameId(t: Task, o: Obj, req: Obj) {
    t.idFunc.None? || t.idFunc.value(o) == t.idFunc.value(req)
  }

  predicate Equal(t: Task, o: Obj, req: Obj) {
    Visible(o, t.ignored) == Visible(req, t.ignored)
  }

  // ---------- comparing and patching ----------

  lemma VisibleEqual(a: Obj, b: Obj, ignored: set<string>)
    ensures Visible(a, ignored) == Visible(b, ignored) <==> forall k :: k !in ignored ==> Lookup(a, k) == Lookup(b, k)
  {
    var va, vb := Visible(a, ignored), Visible(b, ignored);
    if va == vb {
      forall k | k !in ignored ensures Lookup(a, k) == Lookup(b, k) {
        assert Lookup(va, k) == Lookup(a, k) && Lookup(vb, k) == Lookup(b, k);
      }
    }
    if forall k :: k !in ignored ==> Lookup(a, k) == Lookup(b, k) {
      forall k ensures Lookup(va, k) == Lookup(vb, k) {
        assert k !in ignored ==> Lookup(a, k) == Lookup(b, k);
      }
      SameLookup(va, vb);
    }
  }

  method CompareObjs(a: Obj, b: Obj, ignored: set<string>) returns (same: bool)
    ensures same <==> Visible(a, ignored) == Visible(b, ignored)
  {
    hide Visible;
    VisibleEqual(a, b, ignored);
    var todo := a.Keys;
    while todo != {}
      invariant todo <= a.Keys
      invariant forall k :: k in a && k !in todo && k !in ignored ==> Lookup(a, k) == Lookup(b, k)
      decreases |todo|
    {
      var key :| key in todo;
      todo := todo - {key};
      if key in ignored {
        continue;
      }
      if key !in b || b[key] != a[key] {
        assert Lookup(a, key) != Lookup(b, key);
        return false;
      }
    }
    todo := b.Keys;
    while todo != {}
      invariant todo <= b.Keys
      invariant forall k :: k in b && k !in todo && k !in ignored ==> k in a
      decreases |todo|
    {
      var key :| key in todo;
      todo := todo - {key};
      if key in ignored {
        continue;
      }
      if key !in a {
        assert Lookup(a, key) != Lookup(b, key);
        return false;
      }
    }
    return true;
  }

  function PatchFor(current: Obj, desired: Obj, ignored: set<string>): PatchBody {
    map k | k in (current.Keys + desired.Keys) - ignored :: if k in desired then Some(desired[k]) else None
  }

  /** The first loop sets every visible field of the desired object. */
  method SetDesired(desired: Obj, ignored: set<string>) returns (body: PatchBody)
    ensures forall k :: Lookup(body, k) == if k in desired && k !in ignored then Some(Some(desired[k])) else None
  {
    body := map[];
    var todo := desired.Keys;
    while todo != {}
      invariant todo <= desired.Keys
      invariant forall k :: Lookup(body, k) == if k in desired && k !in todo && k !in ignored then Some(Some(desired[k])) else None
      decreases |todo|
    {
      var key :| key in todo;
      todo := todo - {key};
      if key in ignored {
        continue;
      }
      body := body[key := Some(desired[key])];
    }
  }

  /** The second loop drops every visible field that is not desired. */
  method DropOthers(current: Obj, desired: Obj, ignored: set<string>, base: PatchBody) returns (body: PatchBody)
    ensures forall k :: Lookup(body, k) == if k in current && k !in ignored && k !in desired then Some(None) else Lookup(base, k)
  {
    body := base;
    var todo := current.Keys;
    while todo != {}
      invariant todo <= current.Keys
      invariant forall k :: Lookup(body, k) ==
                  if k in current && k !in todo && k !in ignored && k !in desired then Some(None) else Lookup(base, k)
      decreases |todo|
    {
      var key :| key in todo;
      todo := todo - {key};
      if key in ignored {
        continue;
      }
      if key !in desired {
        body := body[key := None];
      }
    }
  }

  method GeneratePatchRequest(current: Obj, desired: Obj, ignored: set<string>) returns (body: PatchBody)
    ensures body == PatchFor(current, desired, ignored)
  {
    var first := SetDesired(desired, ignored);
    body := DropOthers(current, desired, ignored, first);
    forall k ensures Lookup(body, k) == Lookup(PatchFor(current, desired, ignored), k) {
      PatchForAt(current, desired, ignored, k);
    }
    SameLookup(body, PatchFor(current, desired, ignored));
  }

  lemma PatchForAt(current: Obj, desired: Obj, ignored: set<string>, k: string)
    ensures Lookup(PatchFor(current, desired, ignored), k) ==
            if k in ignored then None
            else if k in desired then Some(Some(desired[k]))
            else if k in current then Some(None)
            else None
  {
  }

  /** A generated patch turns the object into the desired one, and leaves the ignored fields alone. */
  lemma PatchReaches(current: Obj, desired: Obj, ignored: set<string>)
    ensures var o := Patched(current, PatchFor(current, desired, ignored));
            && Visible(o, ignored) == Visible(desired, ignored)
            && forall k :: k in ignored ==> Lookup(o, k) == Lookup(current, k)
  {
    var o := Patched(current, PatchFor(current, desired, ignored));
    VisibleEqual(o, desired, ignored);
  }

  // ---------- the greedy matcher ----------

  /** The slots filled so far: an exact match and a patchable object per request, and the leftovers. */
  datatype Slots = Slots(found: seq<Option<Obj>>, patchable: seq<Option<Obj>>, conflicts: seq<Obj>)

  predicate FindsPlace(t: Task, s: Slots, o: Obj, j: nat)
    requires j < |t.reqs| == |s.found| == |s.patchable|
  {
    || (s.found[j].None? && Equal(t, o, t.reqs[j]))
    || (s.patchable[j].None? && SameId(t, o, t.reqs[j]))
  }

  /** The first request from j on that has a place for the object, or the number of requests. */
  function FirstPlace(t: Task, s: Slots, o: Obj, j: nat): (k: nat)
    requires j <= |t.reqs| == |s.found| == |s.patchable|
    ensures j <= k <= |t.reqs|
    ensures k < |t.reqs| ==> FindsPlace(t, s, o, k)
    ensures forall i :: j <= i < k ==> !FindsPlace(t, s, o, i)
    decreases |t.reqs| - j
  {
    if j == |t.reqs| || FindsPlace(t, s, o, j) then j else FirstPlace(t, s, o, j + 1)
  }

  function NextSlots(t: Task, s: Slots, o: Obj): (s': Slots)
    requires |t.reqs| == |s.found| == |s.patchable|
    ensures |t.reqs| == |s'.found| == |s'.patchable|
  {
    if !t.filter(o) then s
    else
      var j := FirstPlace(t, s, o, 0);
      if j == |t.reqs| then s.(conflicts := s.conflicts + [o])
      else if s.found[j].None? && Equal(t, o, t.reqs[j]) then s.(found := s.found[j := Some(o)])
      else s.(patchable := s.patchable[j := Some(o)])
  }

  function Nones(n: nat): (s: seq<Option<Obj>>)
    ensures |s| == n && forall i :: 0 <= i < n ==> s[i] == None
  {
    seq(n, _ => None)
  }

  function MatchAll(t: Task, seen: seq<Obj>): (s: Slots)
    ensures |t.reqs| == |s.found| == |s.patchable|
  {
    if seen == [] then Slots(Nones(|t.reqs|), Nones(|t.reqs|), [])
    else NextSlots(t, MatchAll(t, seen[..|seen| - 1]), seen[|seen| - 1])
  }

  /** A patchable object is of no use to a request with an exact match. */
  function DemoteFrom(s: Slots, i: nat): (s': Slots)
    requires i <= |s.found| == |s.patchable|
    ensures |s'.found| == |s'.patchable| == |s.found| && s'.found == s.found
    decreases |s.found| - i
  {
    if i == |s.found| then s
    else if s.found[i].Some? && s.patchable[i].Some? then
      DemoteFrom(Slots(s.found, s.patchable[i := None], s.conflicts + [s.patchable[i].value]), i + 1)
    else DemoteFrom(s, i + 1)
  }

  // ---------- what matching guarantees ----------

  function IdAt(o: Obj): string {
    Get(o, ID)
  }

  /** The object sits in some slot. */
  ghost predicate Placed(s: Slots, o: Obj) {
    || (exists j :: 0 <= j < |s.found| && s.found[j] == Some(o))
    || (exists j :: 0 <= j < |s.patchable| && s.patchable[j] == Some(o))
    || o in s.conflicts
  }

  /** Objects in different slots have different ids. */
  ghost predicate Apart(s: Slots) {
    && (forall i, j :: 0 <= i < j < |s.found| && s.found[i].Some? && s.found[j].Some? ==> IdAt(s.found[i].value) != IdAt(s.found[j].value))
    && (forall i, j :: 0 <= i < j < |s.patchable| && s.patchable[i].Some? && s.patchable[j].Some? ==>
          IdAt(s.patchable[i].value) != IdAt(s.patchable[j].value))
    && (forall i, j :: 0 <= i < |s.found| && 0 <= j < |s.patchable| && s.found[i].Some? && s.patchable[j].Some? ==>
          IdAt(s.found[i].value) != IdAt(s.patchable[j].value))
    && (forall i, j :: 0 <= i < |s.found| && 0 <= j < |s.conflicts| && s.found[i].Some? ==> IdAt(s.found[i].value) != IdAt(s.conflicts[j]))
    && (forall i, j :: 0 <= i < |s.patchable| && 0 <= j < |s.conflicts| && s.patchable[i].Some? ==>
          IdAt(s.patchable[i].value) != IdAt(s.conflicts[j]))
    && (forall i, j :: 0 <= i < j < |s.conflicts| ==> IdAt(s.conflicts[i]) != IdAt(s.conflicts[j]))
  }

  /** The slots hold exactly the scoped objects of `seen`. */
  ghost predicate PlacesAll(t: Task, seen: seq<Obj>, s: Slots) {
    forall o :: Placed(s, o) <==> o in seen && t.filter(o)
  }

  /** Every object fits its slot, and an exact match goes to `found` before anything else. */
  ghost predicate FitsAll(t: Task, s: Slots) {
    && |t.reqs| == |s.found| == |s.patchable|
    && (forall j :: 0 <= j < |s.found| && s.found[j].Some? ==> Equal(t, s.found[j].value, t.reqs[j]))
    && (forall j :: 0 <= j < |s.patchable| && s.patchable[j].Some? ==>
          SameId(t, s.patchable[j].value, t.reqs[j]) && (Equal(t, s.patchable[j].value, t.reqs[j]) ==> s.found[j].Some?))
  }

  /** Before anything is demoted, leftovers equal no request without an exact match, and have the id of none without
      something to patch. */
  ghost predicate LeftoversFit(t: Task, s: Slots)
    requires |t.reqs| == |s.found| == |s.patchable|
  {
    && (forall o, j :: o in s.conflicts && 0 <= j < |s.found| && Equal(t, o, t.reqs[j]) ==> s.found[j].Some?)
    && (forall o, j :: o in s.conflicts && 0 <= j < |s.patchable| && SameId(t, o, t.reqs[j]) ==> s.patchable[j].Some?)
  }

  ghost predicate Matched(t: Task, seen: seq<Obj>, s: Slots) {
    PlacesAll(t, seen, s) && Apart(s) && FitsAll(t, s)
  }

  ghost predicate DistinctIds(seen: seq<Obj>) {
    forall i, j :: 0 <= i < j < |seen| ==> IdAt(seen[i]) != IdAt(seen[j])
  }

  lemma NextSlotsMatched(t: Task, seen: seq<Obj>, s: Slots, o: Obj)
    requires Matched(t, seen, s) && DistinctIds(seen + [o])
    ensures Matched(t, seen + [o], NextSlots(t, s, o))
  {
    hide Apart, NextSlots, Placed, Equal, SameId;
    var s' := NextSlots(t, s, o);
    var seen' := seen + [o];
    assert seen'[|seen|] == o;
    forall x | x in seen ensures IdAt(x) != IdAt(o) {
      var i :| 0 <= i < |seen| && seen[i] == x;
      assert seen'[i] == x;
    }
    if t.filter(o) {
      PlacedIds(t, seen, s);
      ApartNext(t, s, o);
      FitsNext(t, s, o);
      forall x ensures Placed(s', x) <==> x in seen' && t.filter(x) {
        PlacedNext(t, s, o, x);
        assert Placed(s, x) <==> x in seen && t.filter(x);
      }
    } else {
      SkippedNext(t, s, o);
      forall x ensures Placed(s', x) <==> x in seen' && t.filter(x) {
        assert Placed(s, x) <==> x in seen && t.filter(x);
      }
    }
  }

  lemma SkippedNext(t: Task, s: Slots, o: Obj)
    requires |t.reqs| == |s.found| == |s.patchable| && !t.filter(o)
    ensures NextSlots(t, s, o) == s
  {
  }

  lemma FitsNext(t: Task, s: Slots, o: Obj)
    requires FitsAll(t, s)
    ensures FitsAll(t, NextSlots(t, s, o))
  {
    hide Equal, SameId;
  }

  lemma LeftoversNext(t: Task, s: Slots, o: Obj)
    requires |t.reqs| == |s.found| == |s.patchable| && LeftoversFit(t, s)
    ensures LeftoversFit(t, NextSlots(t, s, o))
  {
    hide Equal, SameId;
    var s' := NextSlots(t, s, o);
    forall x, j | x in s'.conflicts && 0 <= j < |s'.found| && Equal(t, x, t.reqs[j]) ensures s'.found[j].Some? {
      if x in s.conflicts {
        assert s.found[j].Some?;
      } else {
        assert !FindsPlace(t, s, o, j);
      }
    }
    forall x, j | x in s'.conflicts && 0 <= j < |s'.patchable| && SameId(t, x, t.reqs[j]) ensures s'.patchable[j].Some? {
      if x in s.conflicts {
        assert s.patchable[j].Some?;
      } else {
        assert !FindsPlace(t, s, o, j);
      }
    }
  }

  /** Everything placed was seen. */
  lemma PlacedIds(t: Task, seen: seq<Obj>, s: Slots)
    requires Matched(t, seen, s)
    ensures forall j :: 0 <= j < |s.found| && s.found[j].Some? ==> s.found[j].value in seen
    ensures forall j :: 0 <= j < |s.patchable| && s.patchable[j].Some? ==> s.patchable[j].value in seen
    ensures forall j :: 0 <= j < |s.conflicts| ==> s.conflicts[j] in seen
  {
    hide Equal, SameId, Apart;
    forall j | 0 <= j < |s.found| && s.found[j].Some? ensures s.found[j].value in seen { assert Placed(s, s.found[j].value); }
    forall j | 0 <= j < |s.patchable| && s.patchable[j].Some? ensures s.patchable[j].value in seen {
      assert Placed(s, s.patchable[j].value);
    }
    forall j | 0 <= j < |s.conflicts| ensures s.conflicts[j] in seen { assert Placed(s, s.conflicts[j]); }
  }

  lemma PlacedNext(t: Task, s: Slots, o: Obj, x: Obj)
    requires |t.reqs| == |s.found| == |s.patchable| && t.filter(o)
    ensures Placed(NextSlots(t, s, o), x) <==> Placed(s, x) || x == o
  {
    hide Equal, SameId;
    var s' := NextSlots(t, s, o);
    var j := FirstPlace(t, s, o, 0);
    if i :| 0 <= i < |s.found| && s.found[i] == Some(x) { assert s'.found[i] == Some(x); }
    if i :| 0 <= i < |s.patchable| && s.patchable[i] == Some(x) { assert s'.patchable[i] == Some(x); }
    if j < |t.reqs| { assert s'.found[j] == Some(o) || s'.patchable[j] == Some(o); }
  }

  lemma ApartNext(t: Task, s: Slots, o: Obj)
    requires |t.reqs| == |s.found| == |s.patchable| && Apart(s)
    requires forall j :: 0 <= j < |s.found| && s.found[j].Some? ==> IdAt(s.found[j].value) != IdAt(o)
    requires forall j :: 0 <= j < |s.patchable| && s.patchable[j].Some? ==> IdAt(s.patchable[j].value) != IdAt(o)
    requires forall j :: 0 <= j < |s.conflicts| ==> IdAt(s.conflicts[j]) != IdAt(o)
    ensures Apart(NextSlots(t, s, o))
  {
    hide Equal, SameId, IdAt;
  }

  lemma NoneMatched(t: Task)
    ensures Matched(t, [], MatchAll(t, [])) && LeftoversFit(t, MatchAll(t, []))
  {
  }

  lemma {:induction false} MatchAllMatched(t: Task, seen: seq<Obj>)
    requires DistinctIds(seen)
    ensures Matched(t, seen, MatchAll(t, seen)) && LeftoversFit(t, MatchAll(t, seen))
  {
    hide Matched, LeftoversFit, NextSlots, Equal, SameId;
    if seen == [] {
      NoneMatched(t);
    } else {
      var n := |seen| - 1;
      MatchAllMatched(t, seen[..n]);
      assert seen == seen[..n] + [seen[n]];
      NextSlotsMatched(t, seen[..n], MatchAll(t, seen[..n]), seen[n]);
      LeftoversNext(t, MatchAll(t, seen[..n]), seen[n]);
    }
  }

  /** Demoting keeps all of this, and leaves no request with two objects. */
  lemma {:induction false} DemoteMatched(t: Task, seen: seq<Obj>, s: Slots, i: nat)
    requires Matched(t, seen, s) && i <= |s.found|
    requires forall j :: 0 <= j < i ==> s.found[j].None? || s.patchable[j].None?
    ensures Matched(t, seen, DemoteFrom(s, i))
    ensures forall j :: 0 <= j < |s.found| ==> s.found[j].None? || DemoteFrom(s, i).patchable[j].None?
    decreases |s.found| - i
  {
    hide Equal, SameId;
    if i < |s.found| {
      if s.found[i].Some? && s.patchable[i].Some? {
        var s' := Slots(s.found, s.patchable[i := None], s.conflicts + [s.patchable[i].value]);
        DemoteOne(t, seen, s, i);
        DemoteMatched(t, seen, s', i + 1);
      } else {
        DemoteMatched(t, seen, s, i + 1);
      }
    }
  }

  lemma DemoteOne(t: Task, seen: seq<Obj>, s: Slots, i: nat)
    requires Matched(t, seen, s) && i < |s.found| && s.found[i].Some? && s.patchable[i].Some?
    ensures Matched(t, seen, Slots(s.found, s.patchable[i := None], s.conflicts + [s.patchable[i].value]))
  {
    hide Apart, Equal, SameId;
    var o := s.patchable[i].value;
    var s' := Slots(s.found, s.patchable[i := None], s.conflicts + [o]);
    DemotedApart(s, i);
    forall x ensures Placed(s', x) <==> Placed(s, x) {
      if j :| 0 <= j < |s.patchable| && s.patchable[j] == Some(x) {
        if j == i { assert s'.conflicts[|s.conflicts|] == x; } else { assert s'.patchable[j] == Some(x); }
      }
      if x in s'.conflicts && x !in s.conflicts { assert s.patchable[i] == Some(x); }
    }
  }

  lemma DemotedApart(s: Slots, i: nat)
    requires Apart(s) && i < |s.patchable| && s.patchable[i].Some?
    ensures Apart(Slots(s.found, s.patchable[i := None], s.conflicts + [s.patchable[i].value]))
  {
    hide IdAt;
  }
}
