/** The router's resource store, after the in-repository mock: PUT creates, PATCH sets or removes fields,
    DELETE removes, and any call may fail without effect. */
module Router {
  import opened Net

  /** An object as the API shows it: field names to values. */
  type Obj = map<string, string>

  /** The body of a PATCH; None is JSON null. */
  type PatchBody = map<string, Option<string>>

  type Query = map<string, string>

  const ID := ".id"

  /** gjson's Get(key).String(): the empty string for a missing field. */
  function Get(o: Obj, key: string): string {
    if key in o then o[key] else ""
  }

  // ---------- ids ----------

  function Digit(d: nat): char
    requires d < 10
  {
    ['0', '1', '2', '3', '4', '5', '6', '7', '8', '9'][d]
  }

  /** The decimal numeral of n. */
  function Decimal(n: nat): (s: string)
    ensures s != ""
  {
    if n < 10 then [Digit(n)] else Decimal(n / 10) + [Digit(n % 10)]
  }

  predicate IsDigit(c: char) {
    '0' as int <= c as int <= '9' as int
  }

  function DigitValue(c: char): nat
    requires IsDigit(c)
  {
    c as int - '0' as int
  }

  /** The number a numeral stands for. */
  function NumeralValue(s: string): nat
    requires forall i :: 0 <= i < |s| ==> IsDigit(s[i])
  {
    if s == "" then 0 else 10 * NumeralValue(s[..|s| - 1]) + DigitValue(s[|s| - 1])
  }

  /** How anyone reads a number; None for other text. */
  function ReadNumber(s: string): Option<nat> {
    if s != "" && forall i :: 0 <= i < |s| ==> IsDigit(s[i]) then Some(NumeralValue(s)) else None
  }

  lemma DigitReads(d: nat)
    requires d < 10
    ensures IsDigit(Digit(d)) && DigitValue(Digit(d)) == d
  {
  }

  lemma {:induction false} DecimalReads(n: nat)
    ensures ReadNumber(Decimal(n)) == Some(n)
  {
    DigitReads(n % 10);
    var s := Decimal(n);
    if n < 10 {
      assert s == [Digit(n)] && s[..|s| - 1] == "" && NumeralValue("") == 0;
    } else {
      DecimalReads(n / 10);
      var front := Decimal(n / 10);
      assert s == front + [Digit(n % 10)] && s[..|s| - 1] == front;
      assert forall i :: 0 <= i < |s| ==> IsDigit(s[i]);
    }
  }

  lemma DecimalInjective(m: nat, n: nat)
    requires Decimal(m) == Decimal(n)
    ensures m == n
  {
    DecimalReads(m);
    DecimalReads(n);
  }

  function IdOf(n: nat): string {
    "*" + Decimal(n)
  }

  lemma IdInjective(m: nat, n: nat)
    requires IdOf(m) == IdOf(n)
    ensures m == n
  {
    assert IdOf(m)[1..] == Decimal(m) && IdOf(n)[1..] == Decimal(n);
    DecimalInjective(m, n);
  }

  // ---------- the objects of one path ----------

  /** The objects of a path by their ids. */
  type Table = map<string, Obj>

  ghost predicate HandedOut(id: string, next: nat) {
    exists k: nat :: k < next && IdOf(k) == id
  }

  /** Every object shows its id, which was handed out before `next`. */
  ghost predicate TableOk(t: Table, next: nat) {
    forall id :: id in t ==> Get(t[id], ID) == id && id != "" && HandedOut(id, next)
  }

  predicate MatchesQuery(o: Obj, query: Query) {
    forall k :: k in query ==> Get(o, k) == query[k]
  }

  function Patched(o: Obj, body: PatchBody): Obj {
    map k | k in o.Keys + body.Keys && !(k in body && body[k].None?) :: if k in body then body[k].value else o[k]
  }

  lemma PatchKeepsId(o: Obj, body: PatchBody)
    requires ID !in body
    ensures Get(Patched(o, body), ID) == Get(o, ID)
  {
  }

  /** A listing shows each matching object once, in some order. */
  ghost predicate Shown(t: Table, query: Query, objs: seq<Obj>) {
    && (forall i, j :: 0 <= i < j < |objs| ==> Get(objs[i], ID) != Get(objs[j], ID))
    && (forall i :: 0 <= i < |objs| ==>
          Get(objs[i], ID) in t && t[Get(objs[i], ID)] == objs[i] && MatchesQuery(objs[i], query))
    && (forall id :: id in t && MatchesQuery(t[id], query) ==> t[id] in objs)
  }

  lemma NothingShown(query: Query)
    ensures Shown(map[], query, [])
  {
  }

  lemma ShownMore(t: Table, query: Query, objs: seq<Obj>, id: string, o: Obj)
    requires Shown(t, query, objs) && id !in t && Get(o, ID) == id
    ensures Shown(t[id := o], query, if MatchesQuery(o, query) then objs + [o] else objs)
  {
    hide MatchesQuery, Get;
    var t' := t[id := o];
    if MatchesQuery(o, query) {
      var objs' := objs + [o];
      assert objs'[|objs|] == o;
      forall x | x in t' && MatchesQuery(t'[x], query) ensures t'[x] in objs' {
        if x != id { assert t[x] in objs; }
      }
    }
  }

  method FilterByQuery(t: Table, query: Query, ghost next: nat) returns (objs: seq<Obj>)
    requires TableOk(t, next)
    ensures Shown(t, query, objs)
  {
    hide Shown, MatchesQuery, HandedOut;
    objs := [];
    ghost var done: Table := map[];
    NothingShown(query);
    var todo := t.Keys;
    while todo != {}
      invariant todo <= t.Keys && done.Keys == t.Keys - todo
      invariant forall id :: id in done ==> done[id] == t[id]
      invariant Shown(done, query, objs)
      decreases |todo|
    {
      var id :| id in todo;
      todo := todo - {id};
      ShownMore(done, query, objs, id, t[id]);
      done := done[id := t[id]];
      if MatchesQuery(t[id], query) {
        objs := objs + [t[id]];
      }
    }
    assert done == t;
  }

  lemma LaterOk(t: Table, next: nat)
    requires TableOk(t, next)
    ensures TableOk(t, next + 1)
  {
    forall id | id in t ensures HandedOut(id, next + 1) {
      assert HandedOut(id, next);
      var k: nat :| k < next && IdOf(k) == id;
    }
  }

  /** A new id is new. */
  lemma FreshId(t: Table, next: nat)
    requires TableOk(t, next)
    ensures IdOf(next) !in t && HandedOut(IdOf(next), next + 1) && !HandedOut(IdOf(next), next)
  {
    if HandedOut(IdOf(next), next) {
      var k: nat :| k < next && IdOf(k) == IdOf(next);
      IdInjective(k, next);
    }
  }

  lemma PutOk(t: Table, next: nat, o: Obj)
    requires TableOk(t, next) && Get(o, ID) == IdOf(next)
    ensures TableOk(t[IdOf(next) := o], next + 1)
  {
    hide HandedOut;
    LaterOk(t, next);
    FreshId(t, next);
  }

  lemma NothingOk(next: nat)
    ensures TableOk(map[], next)
  {
  }

  // ---------- the store as an object ----------

  /** The objects at a path. */
  function TableOf(resources: map<string, Table>, path: string): Table {
    if path in resources then resources[path] else map[]
  }

  /** Only one path has changed. */
  ghost predicate OnlyPath(before: map<string, Table>, after: map<string, Table>, path: string) {
    forall p :: p != path ==> TableOf(before, p) == TableOf(after, p)
  }

  datatype Call = GetCall(path: string) | PutCall(path: string) | PatchCall(path: string, id: string) | DeleteCall(path: string, id: string)

  class RouterOS {
    var resources: map<string, Table>
    var nextID: nat
    var requests: seq<Call>
    /** How many calls the router has refused although it could have served them. */
    ghost var failures: nat

    function At(path: string): Table
      reads this
    {
      TableOf(resources, path)
    }

    ghost predicate Valid()
      reads this
    {
      forall path :: path in resources ==> TableOk(resources[path], nextID)
    }

    constructor ()
      ensures Valid() && resources == map[] && requests == [] && failures == 0
    {
      resources := map[];
      nextID := 1;
      requests := [];
      failures := 0;
    }

    method HandleGet(path: string, query: Query) returns (ok: bool, objs: seq<Obj>)
      requires Valid()
      modifies this`requests, this`failures
      ensures Valid()
      ensures requests == old(requests) + [GetCall(path)]
      ensures ok ==> Shown(At(path), query, objs)
      ensures failures == old(failures) + (if ok then 0 else 1)
    {
      requests := requests + [GetCall(path)];
      if * {
        failures := failures + 1;
        return false, [];
      }
      objs := FilterByQuery(At(path), query, nextID);
      ok := true;
    }

    method HandlePut(path: string, body: Obj) returns (ok: bool, obj: Obj)
      requires Valid()
      modifies this
      ensures Valid()
      ensures requests == old(requests) + [PutCall(path)]
      ensures failures == old(failures) + (if ok then 0 else 1)
      ensures !ok ==> resources == old(resources) && nextID == old(nextID)
      ensures ok ==> nextID >= old(nextID) && !HandedOut(Get(obj, ID), old(nextID))
      ensures ok ==> var id := Get(obj, ID);
                     && obj == body[ID := id] && id != "" && id !in old(At(path))
                     && At(path) == old(At(path))[id := obj] && OnlyPath(old(resources), resources, path)
    {
      hide HandedOut, TableOk;
      requests := requests + [PutCall(path)];
      if * {
        failures := failures + 1;
        return false, map[];
      }
      var id := IdOf(nextID);
      obj := body[ID := id];
      NothingOk(nextID);
      FreshId(At(path), nextID);
      forall p | p in resources ensures TableOk(resources[p], nextID + 1) {
        LaterOk(resources[p], nextID);
      }
      PutOk(At(path), nextID, obj);
      resources := resources[path := At(path)[id := obj]];
      nextID := nextID + 1;
      ok := true;
    }

    method HandlePatch(path: string, id: string, body: PatchBody) returns (ok: bool, obj: Obj)
      requires Valid() && ID !in body
      modifies this`resources, this`requests, this`failures
      ensures Valid()
      ensures requests == old(requests) + [PatchCall(path, id)]
      ensures failures == old(failures) + (if ok || id !in old(At(path)) then 0 else 1)
      ensures !ok ==> resources == old(resources)
      ensures ok ==> && id in old(At(path)) && obj == Patched(old(At(path))[id], body)
                     && At(path) == old(At(path))[id := obj] && OnlyPath(old(resources), resources, path)
    {
      hide HandedOut, Patched;
      requests := requests + [PatchCall(path, id)];
      if id !in At(path) {
        return false, map[];
      }
      if * {
        failures := failures + 1;
        return false, map[];
      }
      PatchKeepsId(At(path)[id], body);
      obj := Patched(At(path)[id], body);
      resources := resources[path := At(path)[id := obj]];
      ok := true;
    }

    method HandleDelete(path: string, id: string) returns (ok: bool)
      requires Valid()
      modifies this`resources, this`requests, this`failures
      ensures Valid()
      ensures requests == old(requests) + [DeleteCall(path, id)]
      ensures failures == old(failures) + (if ok || id !in old(At(path)) then 0 else 1)
      ensures !ok ==> resources == old(resources)
      ensures ok ==> id in old(At(path)) && At(path) == old(At(path)) - {id} && OnlyPath(old(resources), resources, path)
    {
      requests := requests + [DeleteCall(path, id)];
      if id !in At(path) {
        return false;
      }
      if * {
        failures := failures + 1;
        return false;
      }
      resources := resources[path := At(path) - {id}];
      ok := true;
    }
  }
}
