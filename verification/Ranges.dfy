/** Sorted lists of address ranges as sets of numbers: what merge, subtract and intersection mean. */
module Ranges {
  import opened Net

  // ---------- denotation and normal form ----------

  predicate In(rs: seq<IPRange>, x: int) {
    rs != [] && (Inside(rs[0], x) || In(rs[1..], x))
  }

  ghost predicate AllWellFormed(f: Family, rs: seq<IPRange>) {
    forall i :: 0 <= i < |rs| ==> WellFormed(f, rs[i])
  }

  /** Sorted, disjoint and no two ranges adjacent. */
  ghost predicate NormalForm(f: Family, rs: seq<IPRange>) {
    rs == [] ||
    (WellFormed(f, rs[0]) && (|rs| > 1 ==> Hi(rs[0]) + 1 < Lo(rs[1])) && NormalForm(f, rs[1..]))
  }

  ghost predicate SameSet(a: seq<IPRange>, b: seq<IPRange>) {
    forall x :: In(a, x) <==> In(b, x)
  }

  lemma {:induction false} InAtLeastHead(f: Family, a: seq<IPRange>, x: int)
    requires NormalForm(f, a) && In(a, x)
    ensures Lo(a[0]) <= x
    ensures In(a[1..], x) <==> Hi(a[0]) < x
    ensures In(a[1..], x) ==> Hi(a[0]) + 1 < x
  {
    if In(a[1..], x) { InAtLeastHead(f, a[1..], x); }
  }

  /** A normal form is determined by the set it denotes. */
  lemma {:induction false} NormalFormUnique(f: Family, a: seq<IPRange>, b: seq<IPRange>)
    requires NormalForm(f, a) && NormalForm(f, b) && SameSet(a, b)
    ensures a == b
  {
    if a != [] && b != [] {
      HeadAtMost(f, a, b);
      HeadAtMost(f, b, a);
      forall x ensures In(a[1..], x) <==> In(b[1..], x) {
        InTail(f, a, x);
        InTail(f, b, x);
      }
      NormalFormUnique(f, a[1..], b[1..]);
      assert a == [a[0]] + a[1..] && b == [b[0]] + b[1..];
    } else if a != [] {
      assert In(a, Lo(a[0]));
      assert false;
    } else if b != [] {
      assert In(b, Lo(b[0]));
      assert false;
    }
  }

  lemma InTail(f: Family, a: seq<IPRange>, x: int)
    requires NormalForm(f, a) && a != []
    ensures In(a[1..], x) <==> In(a, x) && Hi(a[0]) < x
  {
    if In(a, x) { InAtLeastHead(f, a, x); }
  }

  /** Equal sets force the first ranges to start together and, by symmetry, to end together. */
  lemma HeadAtMost(f: Family, a: seq<IPRange>, b: seq<IPRange>)
    requires NormalForm(f, a) && NormalForm(f, b) && SameSet(a, b) && a != [] && b != []
    ensures Lo(a[0]) <= Lo(b[0]) && (Lo(a[0]) == Lo(b[0]) ==> Hi(a[0]) <= Hi(b[0]))
  {
    assert In(b, Lo(b[0])) && In(a, Lo(b[0]));
    InAtLeastHead(f, a, Lo(b[0]));
    if Lo(a[0]) == Lo(b[0]) && Hi(b[0]) < Hi(a[0]) {
      assert In(a, Hi(b[0]) + 1);
      InAtLeastHead(f, b, Hi(b[0]) + 1);
      assert false;
    }
  }

  // ---------- union ----------

  function Hull(r: IPRange, s: IPRange): IPRange {
    IPRange(if Lo(r) <= Lo(s) then r.start else s.start, if Hi(r) <= Hi(s) then s.end else r.end)
  }

  /** Adds one range to a normal form, absorbing every range it touches. */
  function Insert(r: IPRange, n: seq<IPRange>): seq<IPRange>
    decreases |n|
  {
    if n == [] then [r]
    else if Hi(r) + 1 < Lo(n[0]) then [r] + n
    else if Hi(n[0]) + 1 < Lo(r) then [n[0]] + Insert(r, n[1..])
    else Insert(Hull(r, n[0]), n[1..])
  }

  /** The reference form of merge: insert the ranges one at a time. */
  function Merged(rs: seq<IPRange>): seq<IPRange> {
    if rs == [] then [] else Insert(rs[0], Merged(rs[1..]))
  }

  lemma {:induction false} InsertNormal(f: Family, r: IPRange, n: seq<IPRange>)
    requires WellFormed(f, r) && NormalForm(f, n)
    ensures NormalForm(f, Insert(r, n)) && Insert(r, n) != []
    ensures Lo(Insert(r, n)[0]) == if n != [] && Lo(n[0]) < Lo(r) then Lo(n[0]) else Lo(r)
    decreases |n|
  {
    if n != [] && Lo(n[0]) <= Hi(r) + 1 {
      if Hi(n[0]) + 1 < Lo(r) {
        InsertNormal(f, r, n[1..]);
      } else {
        InsertNormal(f, Hull(r, n[0]), n[1..]);
      }
    }
  }

  lemma {:induction false} InsertDenotes(f: Family, r: IPRange, n: seq<IPRange>, x: int)
    requires WellFormed(f, r) && NormalForm(f, n)
    ensures In(Insert(r, n), x) <==> Inside(r, x) || In(n, x)
    decreases |n|
  {
    if n != [] && Lo(n[0]) <= Hi(r) + 1 {
      if Hi(n[0]) + 1 < Lo(r) {
        InsertDenotes(f, r, n[1..], x);
      } else {
        InsertDenotes(f, Hull(r, n[0]), n[1..], x);
      }
    }
  }

  lemma {:induction false} MergedCorrect(f: Family, rs: seq<IPRange>)
    requires AllWellFormed(f, rs)
    ensures NormalForm(f, Merged(rs)) && SameSet(Merged(rs), rs)
  {
    if rs != [] {
      MergedCorrect(f, rs[1..]);
      InsertNormal(f, rs[0], Merged(rs[1..]));
      forall x ensures In(Merged(rs), x) <==> In(rs, x) { InsertDenotes(f, rs[0], Merged(rs[1..]), x); }
    }
  }

  /** Merge depends only on the set its inputs denote: not on order, duplicates or splitting. */
  lemma MergedDependsOnSetOnly(f: Family, a: seq<IPRange>, b: seq<IPRange>)
    requires AllWellFormed(f, a) && AllWellFormed(f, b)
    ensures Merged(a) == Merged(b) <==> SameSet(a, b)
  {
    MergedCorrect(f, a);
    MergedCorrect(f, b);
    if SameSet(a, b) { NormalFormUnique(f, Merged(a), Merged(b)); }
  }

  // ---------- difference ----------

  /** The part of `cur` that one step of the sweep emits. */
  function Kept(cur: IPRange, sub: IPRange): seq<IPRange> {
    if Less(cur.end, sub.start) then [cur]
    else if Less(cur.start, sub.start) then [IPRange(cur.start, Prev(sub.start))]
    else []
  }

  /** What is left to cut: the next range, or the same one cut to start after `sub`. */
  function CutRest(rs1: seq<IPRange>, sub: IPRange): seq<IPRange>
    requires rs1 != []
  {
    if Compare(rs1[0].end, sub.end) <= 0 then rs1[1..] else [IPRange(Next(sub.end), rs1[0].end)] + rs1[1..]
  }

  function CutterRest(rs2: seq<IPRange>, cur: IPRange): seq<IPRange>
    requires rs2 != []
  {
    if Compare(rs2[0].end, cur.end) <= 0 then rs2[1..] else rs2
  }

  /** What subtract computes: rs1[0] is the range being cut, rs2[0] the range cutting it. */
  function Subtracted(rs1: seq<IPRange>, rs2: seq<IPRange>): seq<IPRange>
    decreases |rs1| + |rs2|
  {
    if rs1 == [] || rs2 == [] then rs1
    else Kept(rs1[0], rs2[0]) + Subtracted(CutRest(rs1, rs2[0]), CutterRest(rs2, rs1[0]))
  }

  /** Some range of rs2 ends strictly between `floor` and x. */
  predicate EndsBetween(rs2: seq<IPRange>, floor: int, x: int) {
    rs2 != [] && (floor < Hi(rs2[0]) < x || EndsBetween(rs2[1..], floor, x))
  }

  /** x lies in a gap below some rs1 range and above the end of an rs2 range that ends in that gap;
      `floor` is the end of the rs1 range before rs1[0]. */
  predicate Resurrected(floor: int, rs1: seq<IPRange>, rs2: seq<IPRange>, x: int)
    decreases rs1
  {
    rs1 != [] &&
    ((x < Lo(rs1[0]) && EndsBetween(rs2, floor, x)) || Resurrected(Hi(rs1[0]), rs1[1..], rs2, x))
  }

  predicate SubtractMeaning(rs1: seq<IPRange>, rs2: seq<IPRange>, x: int) {
    !In(rs2, x) && (In(rs1, x) || Resurrected(-1, rs1, rs2, x))
  }

  lemma {:induction false} EndsAfterHead(f: Family, rs2: seq<IPRange>, floor: int, x: int)
    requires NormalForm(f, rs2) && EndsBetween(rs2, floor, x)
    ensures Hi(rs2[0]) < x
  {
    if EndsBetween(rs2[1..], floor, x) { EndsAfterHead(f, rs2[1..], floor, x); }
  }

  /** Ends at or below the floor do not matter. */
  lemma {:induction false} ResurrectedDropSub(f: Family, floor: int, rs1: seq<IPRange>, rs2: seq<IPRange>, x: int)
    requires NormalForm(f, rs1) && rs2 != [] && Hi(rs2[0]) <= floor && (rs1 != [] ==> floor < Hi(rs1[0]))
    ensures Resurrected(floor, rs1, rs2, x) <==> Resurrected(floor, rs1, rs2[1..], x)
    decreases rs1
  {
    if rs1 != [] {
      ResurrectedDropSub(f, Hi(rs1[0]), rs1[1..], rs2, x);
    }
  }

  lemma {:induction false} EndsBetweenAnyFloor(f: Family, rs2: seq<IPRange>, floor: int, x: int)
    requires NormalForm(f, rs2) && -1 <= floor && (rs2 != [] ==> floor < Hi(rs2[0]))
    ensures EndsBetween(rs2, floor, x) <==> EndsBetween(rs2, -1, x)
  {
    if rs2 != [] { EndsBetweenAnyFloor(f, rs2[1..], floor, x); }
  }

  /** When every remaining rs2 range ends above the floor, the floor does not matter. */
  lemma ResurrectedAnyFloor(f: Family, floor: int, rs1: seq<IPRange>, rs2: seq<IPRange>, x: int)
    requires NormalForm(f, rs2) && -1 <= floor && (rs2 != [] ==> floor < Hi(rs2[0]))
    ensures Resurrected(floor, rs1, rs2, x) <==> Resurrected(-1, rs1, rs2, x)
  {
    EndsBetweenAnyFloor(f, rs2, floor, x);
  }

  lemma {:induction false} InAppend(a: seq<IPRange>, b: seq<IPRange>, x: int)
    ensures In(a + b, x) <==> In(a, x) || In(b, x)
  {
    if a == [] {
      assert a + b == b;
    } else {
      assert (a + b)[1..] == a[1..] + b;
      InAppend(a[1..], b, x);
    }
  }

  lemma PrependNormal(f: Family, r: IPRange, rest: seq<IPRange>)
    requires WellFormed(f, r) && NormalForm(f, rest) && (rest != [] ==> Hi(r) + 1 < Lo(rest[0]))
    ensures NormalForm(f, [r] + rest)
  {
    assert ([r] + rest)[1..] == rest;
  }

  lemma CutRestNormal(f: Family, rs1: seq<IPRange>, sub: IPRange)
    requires NormalForm(f, rs1) && rs1 != [] && WellFormed(f, sub)
    ensures NormalForm(f, CutRest(rs1, sub))
    ensures CutRest(rs1, sub) != [] ==>
              var lo := Lo(CutRest(rs1, sub)[0]);
              if Hi(rs1[0]) <= Hi(sub) then Hi(rs1[0]) + 1 < lo else lo == Hi(sub) + 1
  {
    if Hi(sub) < Hi(rs1[0]) {
      PrependNormal(f, IPRange(Next(sub.end), rs1[0].end), rs1[1..]);
    }
  }

  lemma KeptNormal(f: Family, cur: IPRange, sub: IPRange, rest: seq<IPRange>)
    requires WellFormed(f, cur) && WellFormed(f, sub) && NormalForm(f, rest)
    requires rest != [] ==> Hi(cur) + 1 < Lo(rest[0]) || Hi(sub) < Lo(rest[0])
    ensures NormalForm(f, Kept(cur, sub) + rest)
    ensures var out := Kept(cur, sub) + rest; out != [] ==> Lo(cur) <= Lo(out[0]) || Hi(sub) < Lo(out[0])
  {
    if Lo(cur) < Lo(sub) {
      assert Kept(cur, sub) == [Kept(cur, sub)[0]];
      PrependNormal(f, Kept(cur, sub)[0], rest);
    } else {
      assert Kept(cur, sub) + rest == rest;
    }
  }

  /** The result of subtract is a normal form starting no lower than the first cut range or cutter end. */
  lemma {:induction false} SubtractedNormal(f: Family, rs1: seq<IPRange>, rs2: seq<IPRange>)
    requires NormalForm(f, rs1) && NormalForm(f, rs2)
    ensures var out := Subtracted(rs1, rs2);
            && NormalForm(f, out)
            && (out != [] ==> rs1 != [] && (Lo(rs1[0]) <= Lo(out[0]) || (rs2 != [] && Hi(rs2[0]) < Lo(out[0]))))
    decreases |rs1| + |rs2|
  {
    if rs1 != [] && rs2 != [] {
      var cut, cutter := CutRest(rs1, rs2[0]), CutterRest(rs2, rs1[0]);
      CutRestNormal(f, rs1, rs2[0]);
      assert NormalForm(f, cutter);
      assert cutter != [] && Hi(rs2[0]) <= Hi(rs1[0]) ==> Hi(rs2[0]) < Hi(cutter[0]);
      SubtractedNormal(f, cut, cutter);
      KeptNormal(f, rs1[0], rs2[0], Subtracted(cut, cutter));
    }
  }

  lemma {:induction false} SubtractedExact(f: Family, rs1: seq<IPRange>, rs2: seq<IPRange>, x: int)
    requires NormalForm(f, rs1) && NormalForm(f, rs2)
    ensures In(Subtracted(rs1, rs2), x) <==> SubtractMeaning(rs1, rs2, x)
    decreases |rs1| + |rs2|
  {
    if rs1 == [] {
    } else if rs2 == [] {
      NothingEnds(rs1, x);
    } else {
      var cur, sub := rs1[0], rs2[0];
      assert In(Kept(cur, sub), x) <==> Inside(cur, x) && x < Lo(sub);
      InAppend(Kept(cur, sub), Subtracted(CutRest(rs1, sub), CutterRest(rs2, cur)), x);
      CutRestNormal(f, rs1, sub);
      SubtractedExact(f, CutRest(rs1, sub), CutterRest(rs2, cur), x);
      if Hi(cur) <= Hi(sub) { NextCur(f, rs1, rs2, x); } else { NextSub(f, rs1, rs2, x); }
    }
  }

  lemma NothingEnds(rs1: seq<IPRange>, x: int)
    ensures forall floor :: !Resurrected(floor, rs1, [], x)
  {
    if rs1 != [] { NothingEnds(rs1[1..], x); }
  }

  /** One step of the sweep that leaves rs1[0] behind. */
  lemma NextCur(f: Family, rs1: seq<IPRange>, rs2: seq<IPRange>, x: int)
    requires NormalForm(f, rs1) && NormalForm(f, rs2) && rs1 != [] && rs2 != [] && Hi(rs1[0]) <= Hi(rs2[0])
    ensures var rs2' := if Hi(rs2[0]) <= Hi(rs1[0]) then rs2[1..] else rs2;
            SubtractMeaning(rs1, rs2, x) <==>
            (Inside(rs1[0], x) && x < Lo(rs2[0])) || SubtractMeaning(rs1[1..], rs2', x)
  {
    var cur, sub := rs1[0], rs2[0];
    if In(rs2, x) { InAtLeastHead(f, rs2, x); }
    if EndsBetween(rs2, -1, x) { EndsAfterHead(f, rs2, -1, x); }
    if In(rs1[1..], x) { InAtLeastHead(f, rs1, x); }
    if Hi(sub) == Hi(cur) {
      ResurrectedDropSub(f, Hi(cur), rs1[1..], rs2, x);
      ResurrectedAnyFloor(f, Hi(cur), rs1[1..], rs2[1..], x);
      if Resurrected(-1, rs1[1..], rs2[1..], x) { ResurrectedAbove(f, -1, rs1[1..], rs2[1..], x); }
    } else {
      ResurrectedAnyFloor(f, Hi(cur), rs1[1..], rs2, x);
      if Resurrected(-1, rs1[1..], rs2, x) { ResurrectedAbove(f, -1, rs1[1..], rs2, x); }
    }
  }

  lemma {:induction false} ResurrectedAbove(f: Family, floor: int, rs1: seq<IPRange>, rs2: seq<IPRange>, x: int)
    requires NormalForm(f, rs2) && Resurrected(floor, rs1, rs2, x)
    ensures rs2 != [] && Hi(rs2[0]) < x
    decreases rs1
  {
    if x < Lo(rs1[0]) && EndsBetween(rs2, floor, x) {
      EndsAfterHead(f, rs2, floor, x);
    } else {
      ResurrectedAbove(f, Hi(rs1[0]), rs1[1..], rs2, x);
    }
  }

  /** One step of the sweep that leaves rs2[0] behind and cuts rs1[0] to start after it. */
  lemma NextSub(f: Family, rs1: seq<IPRange>, rs2: seq<IPRange>, x: int)
    requires NormalForm(f, rs1) && NormalForm(f, rs2) && rs1 != [] && rs2 != [] && Hi(rs2[0]) < Hi(rs1[0])
    ensures SubtractMeaning(rs1, rs2, x) <==>
            || (Inside(rs1[0], x) && x < Lo(rs2[0]))
            || SubtractMeaning([IPRange(Next(rs2[0].end), rs1[0].end)] + rs1[1..], rs2[1..], x)
  {
    var cur, sub := rs1[0], rs2[0];
    var cur' := IPRange(Next(sub.end), cur.end);
    var rs1' := [cur'] + rs1[1..];
    assert rs1'[1..] == rs1[1..];
    if In(rs2, x) { InAtLeastHead(f, rs2, x); }
    if In(rs1, x) { InAtLeastHead(f, rs1, x); }
    ResurrectedDropSub(f, Hi(cur), rs1[1..], rs2, x);
    if EndsBetween(rs2[1..], -1, x) { EndsAfterHead(f, rs2[1..], -1, x); }
    if Resurrected(-1, rs1', rs2[1..], x) { ResurrectedAbove(f, -1, rs1', rs2[1..], x); }
  }

  // ---------- the meaning of subtract, by position ----------

  /** The last number before the gap below rs[i], `floor` standing for the end before rs[0]. */
  function GapFloor(floor: int, rs: seq<IPRange>, i: nat): int
    requires i < |rs|
  {
    if i == 0 then floor else Hi(rs[i - 1])
  }

  /** e ends in the gap below rs1[i], and x lies in the same gap above e. */
  predicate EndsInGap(floor: int, rs1: seq<IPRange>, i: nat, e: int, x: int)
    requires i < |rs1|
  {
    GapFloor(floor, rs1, i) < e < x < Lo(rs1[i])
  }

  ghost predicate ResurrectedAt(floor: int, rs1: seq<IPRange>, rs2: seq<IPRange>, x: int) {
    exists i, j :: 0 <= i < |rs1| && 0 <= j < |rs2| && EndsInGap(floor, rs1, i, Hi(rs2[j]), x)
  }

  lemma {:induction false} EndsBetweenAt(rs2: seq<IPRange>, floor: int, x: int)
    ensures EndsBetween(rs2, floor, x) <==> exists j :: 0 <= j < |rs2| && floor < Hi(rs2[j]) < x
  {
    if rs2 != [] {
      EndsBetweenAt(rs2[1..], floor, x);
      if j :| 0 <= j < |rs2| && floor < Hi(rs2[j]) < x {
        assert j > 0 ==> rs2[1..][j - 1] == rs2[j];
      }
    }
  }

  lemma {:induction false} ResurrectedIsAt(floor: int, rs1: seq<IPRange>, rs2: seq<IPRange>, x: int)
    ensures Resurrected(floor, rs1, rs2, x) <==> ResurrectedAt(floor, rs1, rs2, x)
    decreases rs1
  {
    if rs1 != [] {
      var tail := rs1[1..];
      EndsBetweenAt(rs2, floor, x);
      ResurrectedIsAt(Hi(rs1[0]), tail, rs2, x);
      if ResurrectedAt(Hi(rs1[0]), tail, rs2, x) {
        var i, j :| 0 <= i < |tail| && 0 <= j < |rs2| && EndsInGap(Hi(rs1[0]), tail, i, Hi(rs2[j]), x);
        assert EndsInGap(floor, rs1, i + 1, Hi(rs2[j]), x);
      }
      if x < Lo(rs1[0]) && EndsBetween(rs2, floor, x) {
        var j :| 0 <= j < |rs2| && floor < Hi(rs2[j]) < x;
        assert EndsInGap(floor, rs1, 0, Hi(rs2[j]), x);
      }
      if ResurrectedAt(floor, rs1, rs2, x) {
        var i, j :| 0 <= i < |rs1| && 0 <= j < |rs2| && EndsInGap(floor, rs1, i, Hi(rs2[j]), x);
        if i > 0 { assert EndsInGap(Hi(rs1[0]), tail, i - 1, Hi(rs2[j]), x); }
      }
    }
  }

  lemma {:induction false} InAt(rs: seq<IPRange>, x: int)
    ensures In(rs, x) <==> exists i :: 0 <= i < |rs| && Inside(rs[i], x)
  {
    if rs != [] {
      InAt(rs[1..], x);
      if i :| 0 <= i < |rs| && Inside(rs[i], x) {
        assert i > 0 ==> rs[1..][i - 1] == rs[i];
      }
    }
  }

  lemma {:induction false} NormalFormPairwise(f: Family, rs: seq<IPRange>)
    requires NormalForm(f, rs)
    ensures forall i :: 0 <= i < |rs| ==> WellFormed(f, rs[i])
    ensures forall i, j :: 0 <= i < j < |rs| ==> Hi(rs[i]) + 1 < Lo(rs[j])
  {
    if |rs| > 1 {
      NormalFormPairwise(f, rs[1..]);
      assert forall i :: 1 <= i < |rs| ==> rs[i] == rs[1..][i - 1];
    }
  }

  /** Exactly what the result of subtract contains: an address outside rs2 that is in rs1, or that
      lies in a gap below some rs1 range, above the end of an rs2 range that ends in the same gap. */
  lemma SubtractContains(f: Family, rs1: seq<IPRange>, rs2: seq<IPRange>, x: int)
    requires NormalForm(f, rs1) && NormalForm(f, rs2)
    ensures NormalForm(f, Subtracted(rs1, rs2))
    ensures In(Subtracted(rs1, rs2), x) <==> !In(rs2, x) && (In(rs1, x) || ResurrectedAt(-1, rs1, rs2, x))
  {
    SubtractedNormal(f, rs1, rs2);
    SubtractedExact(f, rs1, rs2, x);
    ResurrectedIsAt(-1, rs1, rs2, x);
  }

  /** An rs2 end that subtract handles as set difference would: inside rs1, directly before an rs1
      range, or above all of rs1. */
  ghost predicate CleanCut(rs1: seq<IPRange>, e: int) {
    || In(rs1, e)
    || (exists i :: 0 <= i < |rs1| && e + 1 == Lo(rs1[i]))
    || (forall i :: 0 <= i < |rs1| ==> Hi(rs1[i]) < e)
  }

  ghost predicate IsDifference(out: seq<IPRange>, rs1: seq<IPRange>, rs2: seq<IPRange>) {
    forall x :: In(out, x) <==> In(rs1, x) && !In(rs2, x)
  }

  /** subtract computes set difference exactly when every rs2 range ends in a clean place. */
  lemma SubtractIsDifferenceIff(f: Family, rs1: seq<IPRange>, rs2: seq<IPRange>)
    requires NormalForm(f, rs1) && NormalForm(f, rs2)
    ensures IsDifference(Subtracted(rs1, rs2), rs1, rs2) <==>
            forall j :: 0 <= j < |rs2| ==> CleanCut(rs1, Hi(rs2[j]))
  {
    hide In, NormalForm, Subtracted, CleanCut;
    if forall j :: 0 <= j < |rs2| ==> CleanCut(rs1, Hi(rs2[j])) {
      forall x ensures In(Subtracted(rs1, rs2), x) <==> In(rs1, x) && !In(rs2, x) {
        SubtractContains(f, rs1, rs2, x);
        if i, j :| 0 <= i < |rs1| && 0 <= j < |rs2| && EndsInGap(-1, rs1, i, Hi(rs2[j]), x) {
          DirtyCut(f, rs1, i, Hi(rs2[j]));
          assert false;
        }
      }
    }
    if j :| 0 <= j < |rs2| && !CleanCut(rs1, Hi(rs2[j])) {
      DirtyCutAdds(f, rs1, rs2, j);
    }
  }

  /** The address after an end that is not clean is added by subtract. */
  lemma DirtyCutAdds(f: Family, rs1: seq<IPRange>, rs2: seq<IPRange>, j: nat)
    requires NormalForm(f, rs1) && NormalForm(f, rs2) && j < |rs2| && !CleanCut(rs1, Hi(rs2[j]))
    ensures In(Subtracted(rs1, rs2), Hi(rs2[j]) + 1) && !In(rs1, Hi(rs2[j]) + 1)
  {
    hide In, NormalForm, Subtracted;
    var e := Hi(rs2[j]);
    AfterEnd(f, rs2, j);
    var i := FirstEndingAtOrAfter(f, rs1, e);
    GapIsEmpty(f, rs1, i, e + 1);
    SubtractContains(f, rs1, rs2, e + 1);
    assert EndsInGap(-1, rs1, i, Hi(rs2[j]), e + 1);
  }

  lemma AfterEnd(f: Family, rs: seq<IPRange>, j: nat)
    requires NormalForm(f, rs) && j < |rs|
    ensures 0 <= Hi(rs[j]) && !In(rs, Hi(rs[j]) + 1)
  {
    NormalFormPairwise(f, rs);
    InAt(rs, Hi(rs[j]) + 1);
    assert WellFormed(f, rs[j]);
  }

  lemma GapIsEmpty(f: Family, rs: seq<IPRange>, i: nat, x: int)
    requires NormalForm(f, rs) && i < |rs| && GapFloor(-1, rs, i) < x < Lo(rs[i])
    ensures !In(rs, x)
  {
    NormalFormPairwise(f, rs);
    InAt(rs, x);
    forall k | 0 <= k < |rs| ensures !Inside(rs[k], x) {
      assert WellFormed(f, rs[k]);
      assert k < i ==> Hi(rs[k]) <= GapFloor(-1, rs, i);
    }
  }

  /** An end strictly inside a gap, with room before the next range, is not clean. */
  lemma DirtyCut(f: Family, rs1: seq<IPRange>, i: nat, e: int)
    requires NormalForm(f, rs1) && i < |rs1| && GapFloor(-1, rs1, i) < e && e + 1 < Lo(rs1[i])
    ensures !CleanCut(rs1, e)
  {
    NormalFormPairwise(f, rs1);
    InAt(rs1, e);
    assert WellFormed(f, rs1[i]);
    forall k | 0 <= k < |rs1| ensures !Inside(rs1[k], e) && e + 1 != Lo(rs1[k]) {
      assert k < i ==> Hi(rs1[k]) <= GapFloor(-1, rs1, i);
      assert WellFormed(f, rs1[k]);
    }
  }

  lemma FirstEndingAtOrAfter(f: Family, rs1: seq<IPRange>, e: int) returns (i: nat)
    requires NormalForm(f, rs1) && !CleanCut(rs1, e) && 0 <= e
    ensures i < |rs1| && GapFloor(-1, rs1, i) < e && e + 1 < Lo(rs1[i])
  {
    InAt(rs1, e);
    var k :| 0 <= k < |rs1| && e <= Hi(rs1[k]);
    i := k;
    while i > 0 && e <= Hi(rs1[i - 1])
      invariant i < |rs1| && e <= Hi(rs1[i])
    {
      i := i - 1;
    }
    assert !Inside(rs1[i], e) && e + 1 != Lo(rs1[i]);
  }

  /** What subtract always guarantees: disjoint from rs2 and at least the set difference. */
  lemma SubtractBounds(f: Family, rs1: seq<IPRange>, rs2: seq<IPRange>, x: int)
    requires NormalForm(f, rs1) && NormalForm(f, rs2)
    ensures In(Subtracted(rs1, rs2), x) ==> !In(rs2, x)
    ensures In(rs1, x) && !In(rs2, x) ==> In(Subtracted(rs1, rs2), x)
  {
    SubtractContains(f, rs1, rs2, x);
  }

  /** The smallest way subtract goes wrong: cutting 0-1 out of 4-5 adds 2 and 3. */
  lemma SubtractAddsAddresses()
    ensures var base := [IPRange(Addr(V4, 4), Addr(V4, 5))];
            var cut := [IPRange(Addr(V4, 0), Addr(V4, 1))];
            && NormalForm(V4, base) && NormalForm(V4, cut)
            && !In(base, 3) && In(Subtracted(base, cut), 3)
  {
    var base := [IPRange(Addr(V4, 4), Addr(V4, 5))];
    var cut := [IPRange(Addr(V4, 0), Addr(V4, 1))];
    SubtractContains(V4, base, cut, 3);
    assert EndsInGap(-1, base, 0, Hi(cut[0]), 3);
    assert !In(cut, 3) && !In(base, 3);
  }

  // ---------- intersection ----------

  /** The addresses two ranges share, as a list of at most one range. */
  function Overlap(r1: IPRange, r2: IPRange): seq<IPRange> {
    if Less(r1.end, r2.start) || Less(r2.end, r1.start) then []
    else
      var start := if Compare(r2.start, r1.start) > 0 then r2.start else r1.start;
      var end := if Compare(r2.end, r1.end) < 0 then r2.end else r1.end;
      if Compare(start, end) <= 0 then [IPRange(start, end)] else []
  }

  /** Whether the sweep moves on in the first list. */
  predicate FirstEndsFirst(r1: IPRange, r2: IPRange) {
    Less(r1.end, r2.start) || (!Less(r2.end, r1.start) && Compare(r1.end, r2.end) <= 0)
  }

  function Intersected(rs1: seq<IPRange>, rs2: seq<IPRange>): seq<IPRange>
    decreases |rs1| + |rs2|
  {
    if rs1 == [] || rs2 == [] then []
    else Overlap(rs1[0], rs2[0]) +
         if FirstEndsFirst(rs1[0], rs2[0]) then Intersected(rs1[1..], rs2) else Intersected(rs1, rs2[1..])
  }

  lemma OverlapNormal(f: Family, r1: IPRange, r2: IPRange, rest: seq<IPRange>)
    requires WellFormed(f, r1) && WellFormed(f, r2) && NormalForm(f, rest)
    requires rest != [] ==> (Hi(r1) + 1 < Lo(rest[0]) || Hi(r2) + 1 < Lo(rest[0])) && Lo(r1) <= Lo(rest[0]) && Lo(r2) <= Lo(rest[0])
    ensures var out := Overlap(r1, r2) + rest;
            NormalForm(f, out) && (out != [] ==> Lo(r1) <= Lo(out[0]) && Lo(r2) <= Lo(out[0]))
  {
    if Overlap(r1, r2) == [] {
      assert Overlap(r1, r2) + rest == rest;
    } else {
      PrependNormal(f, Overlap(r1, r2)[0], rest);
      assert Overlap(r1, r2) == [Overlap(r1, r2)[0]];
    }
  }

  lemma {:induction false} IntersectedNormal(f: Family, rs1: seq<IPRange>, rs2: seq<IPRange>)
    requires NormalForm(f, rs1) && NormalForm(f, rs2)
    ensures var out := Intersected(rs1, rs2);
            && NormalForm(f, out)
            && (out != [] ==> rs1 != [] && rs2 != [] && Lo(rs1[0]) <= Lo(out[0]) && Lo(rs2[0]) <= Lo(out[0]))
    decreases |rs1| + |rs2|
  {
    if rs1 != [] && rs2 != [] {
      var (a, b) := if FirstEndsFirst(rs1[0], rs2[0]) then (rs1[1..], rs2) else (rs1, rs2[1..]);
      var rest := Intersected(a, b);
      IntersectedNormal(f, a, b);
      OverlapNormal(f, rs1[0], rs2[0], rest);
    }
  }

  lemma {:induction false} IntersectedDenotes(f: Family, rs1: seq<IPRange>, rs2: seq<IPRange>, x: int)
    requires NormalForm(f, rs1) && NormalForm(f, rs2)
    ensures In(Intersected(rs1, rs2), x) <==> In(rs1, x) && In(rs2, x)
    decreases |rs1| + |rs2|
  {
    if rs1 != [] && rs2 != [] {
      if In(rs1, x) { InAtLeastHead(f, rs1, x); }
      if In(rs2, x) { InAtLeastHead(f, rs2, x); }
      assert In(Overlap(rs1[0], rs2[0]), x) <==> Inside(rs1[0], x) && Inside(rs2[0], x);
      var (a, b) := if FirstEndsFirst(rs1[0], rs2[0]) then (rs1[1..], rs2) else (rs1, rs2[1..]);
      InAppend(Overlap(rs1[0], rs2[0]), Intersected(a, b), x);
      IntersectedDenotes(f, a, b, x);
    }
  }

  /** intersection is exactly set intersection, in normal form, and commutes as a list. */
  lemma IntersectionExact(f: Family, rs1: seq<IPRange>, rs2: seq<IPRange>)
    requires NormalForm(f, rs1) && NormalForm(f, rs2)
    ensures NormalForm(f, Intersected(rs1, rs2))
    ensures forall x :: In(Intersected(rs1, rs2), x) <==> In(rs1, x) && In(rs2, x)
    ensures Intersected(rs1, rs2) == Intersected(rs2, rs1)
  {
    IntersectedNormal(f, rs1, rs2);
    IntersectedNormal(f, rs2, rs1);
    forall x
      ensures In(Intersected(rs1, rs2), x) <==> In(rs1, x) && In(rs2, x)
      ensures In(Intersected(rs2, rs1), x) <==> In(rs1, x) && In(rs2, x)
    {
      IntersectedDenotes(f, rs1, rs2, x);
      IntersectedDenotes(f, rs2, rs1, x);
    }
    NormalFormUnique(f, Intersected(rs1, rs2), Intersected(rs2, rs1));
  }

  // ---------- counting ----------

  function CountRanges(rs: seq<IPRange>): int {
    if rs == [] then 0 else RangeCount(rs[0]) + CountRanges(rs[1..])
  }

  ghost function Interval(lo: int, hi: int): (s: set<int>)
    requires lo <= hi + 1
    ensures forall x :: x in s <==> lo <= x <= hi
    ensures |s| == hi - lo + 1
    decreases hi + 1 - lo
  {
    if lo > hi then {} else Interval(lo, hi - 1) + {hi}
  }

  /** The addresses of a normal form as a set. */
  ghost function Denoted(f: Family, rs: seq<IPRange>): (s: set<int>)
    requires NormalForm(f, rs)
    ensures forall x :: x in s <==> In(rs, x)
  {
    if rs == [] then {} else Interval(Lo(rs[0]), Hi(rs[0])) + Denoted(f, rs[1..])
  }

  /** Count is the number of addresses of the set. */
  lemma {:induction false} CountIsCardinality(f: Family, rs: seq<IPRange>)
    requires NormalForm(f, rs)
    ensures CountRanges(rs) == |Denoted(f, rs)|
  {
    if rs != [] {
      CountIsCardinality(f, rs[1..]);
      forall x | x in Denoted(f, rs[1..]) ensures Hi(rs[0]) < x {
        InAtLeastHead(f, rs, x);
      }
      assert Interval(Lo(rs[0]), Hi(rs[0])) !! Denoted(f, rs[1..]);
    }
  }

  /** Counts obey inclusion and exclusion across merge and intersection. */
  lemma CountInclusionExclusion(f: Family, a: seq<IPRange>, b: seq<IPRange>)
    requires NormalForm(f, a) && NormalForm(f, b)
    ensures CountRanges(a) + CountRanges(b) == CountRanges(Merged(a + b)) + CountRanges(Intersected(a, b))
  {
    var either, both := Merged(a + b), Intersected(a, b);
    AppendDenotes(f, a, b);
    IntersectionExact(f, a, b);
    assert |Denoted(f, a)| + |Denoted(f, b)| == |Denoted(f, either)| + |Denoted(f, both)| by {
      DenotedEqual(f, either, Denoted(f, a) + Denoted(f, b));
      DenotedEqual(f, both, Denoted(f, a) * Denoted(f, b));
    }
    CountIsCardinality(f, a);
    CountIsCardinality(f, b);
    CountIsCardinality(f, either);
    CountIsCardinality(f, both);
  }

  lemma DenotedEqual(f: Family, a: seq<IPRange>, s: set<int>)
    requires NormalForm(f, a) && forall x :: In(a, x) <==> x in s
    ensures Denoted(f, a) == s
  {
    forall x ensures x in Denoted(f, a) <==> x in s { assert In(a, x) <==> x in s; }
  }

  lemma AppendDenotes(f: Family, a: seq<IPRange>, b: seq<IPRange>)
    requires NormalForm(f, a) && NormalForm(f, b)
    ensures NormalForm(f, Merged(a + b))
    ensures forall x :: In(Merged(a + b), x) <==> In(a, x) || In(b, x)
  {
    NormalFormPairwise(f, a);
    NormalFormPairwise(f, b);
    MergedCorrect(f, a + b);
    forall x ensures In(Merged(a + b), x) <==> In(a, x) || In(b, x) { InAppend(a, b, x); }
  }
}
