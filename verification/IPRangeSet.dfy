/** The two-pointer sweeps of internal/core/ip_range_set.go, proved against the functions of Ranges. */
module IPRangeSets {
  import opened Net
  import opened Ranges

  // ---------- facts about lists built at the end ----------

  lemma {:induction false} AppendNormal(f: Family, a: seq<IPRange>, r: IPRange)
    requires NormalForm(f, a) && WellFormed(f, r) && (a != [] ==> Hi(a[|a| - 1]) + 1 < Lo(r))
    ensures NormalForm(f, a + [r])
  {
    if a != [] {
      AppendNormal(f, a[1..], r);
      assert (a + [r])[1..] == a[1..] + [r];
    }
  }

  lemma MergedNormalForm(f: Family, a: seq<IPRange>)
    requires NormalForm(f, a)
    ensures Merged(a) == a
  {
    NormalFormPairwise(f, a);
    MergedCorrect(f, a);
    NormalFormUnique(f, Merged(a), a);
  }

  /** Any list in normal form that denotes the union of its inputs is what Merged computes. */
  lemma MergedCharacterised(f: Family, rs: seq<IPRange>, out: seq<IPRange>)
    requires AllWellFormed(f, rs) && NormalForm(f, out) && SameSet(out, rs)
    ensures out == Merged(rs)
  {
    MergedCorrect(f, rs);
    NormalFormUnique(f, out, Merged(rs));
  }

  lemma PermutationSameSet(a: seq<IPRange>, b: seq<IPRange>)
    requires multiset(a) == multiset(b)
    ensures SameSet(a, b)
  {
    forall x ensures In(a, x) <==> In(b, x) {
      InAt(a, x);
      InAt(b, x);
      forall i | 0 <= i < |a| ensures exists j :: 0 <= j < |b| && b[j] == a[i] { assert a[i] in multiset(b); }
      forall i | 0 <= i < |b| ensures exists j :: 0 <= j < |a| && a[j] == b[i] { assert b[i] in multiset(a); }
    }
  }

  // ---------- merge, subtract, intersection ----------

  ghost predicate SortedByStart(rs: seq<IPRange>) {
    forall i, j :: 0 <= i < j < |rs| ==> Lo(rs[i]) <= Lo(rs[j])
  }

  function InsertByStart(r: IPRange, s: seq<IPRange>): (out: seq<IPRange>)
    requires SortedByStart(s)
    ensures SortedByStart(out) && multiset(out) == multiset{r} + multiset(s)
    ensures |out| > 0 && (Lo(out[0]) == Lo(r) || (s != [] && out[0] == s[0]))
  {
    if s == [] || Lo(r) <= Lo(s[0]) then [r] + s
    else
      assert s == [s[0]] + s[1..];
      var rest := InsertByStart(r, s[1..]);
      [s[0]] + rest
  }

  /** slices.SortFunc by start: the sweep relies on the order and on nothing else about the sort. */
  function SortByStart(rs: seq<IPRange>): (out: seq<IPRange>)
    ensures SortedByStart(out) && multiset(out) == multiset(rs)
  {
    if rs == [] then []
    else
      assert rs == [rs[0]] + rs[1..];
      InsertByStart(rs[0], SortByStart(rs[1..]))
  }

  lemma PermutationWellFormed(f: Family, a: seq<IPRange>, b: seq<IPRange>)
    requires multiset(a) == multiset(b) && AllWellFormed(f, a)
    ensures AllWellFormed(f, b)
  {
    forall i | 0 <= i < |b| ensures WellFormed(f, b[i]) {
      assert b[i] in multiset(a);
    }
  }

  /** What the merge sweep knows after the ranges `done`: `merged` is final and `current` still open. */
  ghost predicate MergeState(f: Family, done: seq<IPRange>, merged: seq<IPRange>, current: IPRange) {
    && NormalForm(f, merged) && WellFormed(f, current)
    && (merged != [] ==> Hi(merged[|merged| - 1]) + 1 < Lo(current))
    && SameSet(done, merged + [current])
  }

  /** Ranges that overlap or touch `current` extend it. */
  lemma MergeExtend(f: Family, s: seq<IPRange>, i: nat, merged: seq<IPRange>, current: IPRange)
    requires i < |s| && MergeState(f, s[..i], merged, current) && WellFormed(f, s[i])
    requires Lo(current) <= Lo(s[i]) <= Hi(current) + 1
    ensures MergeState(f, s[..i + 1], merged, if Hi(current) < Hi(s[i]) then IPRange(current.start, s[i].end) else current)
  {
    var current' := if Hi(current) < Hi(s[i]) then IPRange(current.start, s[i].end) else current;
    assert s[..i + 1] == s[..i] + [s[i]];
    forall x ensures In(s[..i + 1], x) <==> In(merged + [current'], x) {
      InAppend(s[..i], [s[i]], x);
      InAppend(merged, [current], x);
      InAppend(merged, [current'], x);
    }
  }

  /** A range past the gap closes `current`. */
  lemma MergeClose(f: Family, s: seq<IPRange>, i: nat, merged: seq<IPRange>, current: IPRange)
    requires i < |s| && MergeState(f, s[..i], merged, current) && WellFormed(f, s[i]) && Hi(current) + 1 < Lo(s[i])
    ensures MergeState(f, s[..i + 1], merged + [current], s[i])
  {
    AppendNormal(f, merged, current);
    assert s[..i + 1] == s[..i] + [s[i]];
    forall x ensures In(s[..i + 1], x) <==> In(merged + [current] + [s[i]], x) {
      InAppend(s[..i], [s[i]], x);
      InAppend(merged + [current], [s[i]], x);
    }
  }

  /** One round of the merge loop: the next `merged` and `current`. */
  function MergeNext(merged: seq<IPRange>, current: IPRange, next: IPRange): (seq<IPRange>, IPRange) {
    if Compare(next.start, current.end) <= 0 || next.start == Next(current.end) then
      (merged, if Compare(current.end, next.end) < 0 then IPRange(current.start, next.end) else current)
    else (merged + [current], next)
  }

  lemma MergeRound(f: Family, s: seq<IPRange>, i: nat, merged: seq<IPRange>, current: IPRange)
    requires i < |s| && MergeState(f, s[..i], merged, current) && WellFormed(f, s[i]) && Lo(current) <= Lo(s[i])
    ensures var (merged', current') := MergeNext(merged, current, s[i]);
            MergeState(f, s[..i + 1], merged', current') && Lo(current') <= Lo(s[i])
  {
    if Lo(s[i]) <= Hi(current) + 1 {
      MergeExtend(f, s, i, merged, current);
    } else {
      MergeClose(f, s, i, merged, current);
    }
  }

  lemma MergeStart(f: Family, s: seq<IPRange>)
    requires s != [] && WellFormed(f, s[0])
    ensures MergeState(f, s[..1], [], s[0])
  {
    assert s[..1] == [] + [s[0]];
  }

  lemma MergeDone(f: Family, rs: seq<IPRange>, sorted: seq<IPRange>, merged: seq<IPRange>, current: IPRange)
    requires AllWellFormed(f, rs) && multiset(sorted) == multiset(rs)
    requires MergeState(f, sorted[..|sorted|], merged, current)
    ensures merged + [current] == Merged(rs)
  {
    assert sorted[..|sorted|] == sorted;
    AppendNormal(f, merged, current);
    PermutationSameSet(sorted, rs);
    MergedCharacterised(f, rs, merged + [current]);
  }

  lemma MergedEmpty()
    ensures Merged([]) == []
  {
  }

  method MergeRanges(f: Family, rs: seq<IPRange>) returns (out: seq<IPRange>)
    requires AllWellFormed(f, rs)
    ensures out == Merged(rs)
  {
    hide Merged, MergeState, NormalForm, In;
    MergedEmpty();
    if |rs| == 0 {
      return [];
    }
    var s := SortByStart(rs);
    PermutationWellFormed(f, rs, s);
    assert |multiset(s)| == |multiset(rs)|;
    var merged, current := MergeSweep(f, s);
    MergeDone(f, rs, s, merged, current);
    return merged + [current];
  }

  /** The loop of merge over the sorted ranges. */
  method MergeSweep(f: Family, s: seq<IPRange>) returns (merged: seq<IPRange>, current: IPRange)
    requires s != [] && AllWellFormed(f, s) && SortedByStart(s)
    ensures MergeState(f, s[..|s|], merged, current)
  {
    hide MergeState;
    merged := [];
    current := s[0];
    MergeStart(f, s);
    var i := 1;
    while i < |s|
      invariant 1 <= i <= |s|
      invariant MergeState(f, s[..i], merged, current)
      invariant Lo(current) <= Lo(s[i - 1])
    {
      var next := s[i];
      ghost var after := MergeNext(merged, current, next);
      MergeRound(f, s, i, merged, current);
      if Compare(next.start, current.end) <= 0 || next.start == Next(current.end) {
        if Compare(current.end, next.end) < 0 {
          current := IPRange(current.start, next.end);
        }
      } else {
        merged := merged + [current];
        current := next;
      }
      assert (merged, current) == after;
      i := i + 1;
    }
  }

  lemma Regroup(a: seq<IPRange>, b: seq<IPRange>, c: seq<IPRange>)
    ensures a + (b + c) == (a + b) + c
  {
  }

  /** What is left to cut when the sweep has reached range i, reduced to `current`. */
  function Left(current: IPRange, rs1: seq<IPRange>, i: nat): seq<IPRange>
    requires i <= |rs1|
  {
    if i < |rs1| then [current] + rs1[i + 1..] else []
  }

  /** One round of the subtract loop: the next `current`, i and j. */
  function SubtractNext(current: IPRange, rs1: seq<IPRange>, i: nat, rs2: seq<IPRange>, j: nat): (r: (IPRange, nat, nat))
    requires i < |rs1| && j < |rs2|
    ensures r.1 <= |rs1| && r.2 <= |rs2| && r.1 + r.2 > i + j
  {
    var sub := rs2[j];
    var j' := if Compare(sub.end, current.end) <= 0 then j + 1 else j;
    if Compare(current.end, sub.end) <= 0 then (if i + 1 < |rs1| then rs1[i + 1] else current, i + 1, j')
    else (IPRange(Next(sub.end), current.end), i, j + 1)
  }

  lemma SubtractRound(done: seq<IPRange>, current: IPRange, rs1: seq<IPRange>, i: nat, rs2: seq<IPRange>, j: nat)
    requires i < |rs1| && j < |rs2|
    ensures var (current', i', j') := SubtractNext(current, rs1, i, rs2, j);
            (done + Kept(current, rs2[j])) + Subtracted(Left(current', rs1, i'), rs2[j'..]) ==
            done + Subtracted(Left(current, rs1, i), rs2[j..])
  {
    var (current', i', j') := SubtractNext(current, rs1, i, rs2, j);
    assert Left(current, rs1, i)[1..] == rs1[i + 1..] && rs2[j..][1..] == rs2[j + 1..];
    assert CutRest(Left(current, rs1, i), rs2[j]) == Left(current', rs1, i');
    assert CutterRest(rs2[j..], current) == rs2[j'..];
    Regroup(done, Kept(current, rs2[j]), Subtracted(Left(current', rs1, i'), rs2[j'..]));
  }

  lemma SubtractStart(rs1: seq<IPRange>, rs2: seq<IPRange>)
    requires rs1 != []
    ensures [] + Subtracted(Left(rs1[0], rs1, 0), rs2[0..]) == Subtracted(rs1, rs2)
  {
    assert Left(rs1[0], rs1, 0) == rs1 && rs2[0..] == rs2;
  }

  lemma SubtractEnd(done: seq<IPRange>, current: IPRange, rs1: seq<IPRange>, i: nat, rs2: seq<IPRange>, j: nat)
    requires i <= |rs1| && j <= |rs2| && (i == |rs1| || j == |rs2|)
    ensures done + Subtracted(Left(current, rs1, i), rs2[j..]) ==
            if i < |rs1| then (done + [current]) + rs1[i + 1..] else done
  {
    if i < |rs1| { Regroup(done, [current], rs1[i + 1..]); }
  }

  lemma CompareTotal(a: Addr, b: Addr)
    ensures Compare(a, b) <= 0 || Compare(b, a) <= 0
  {
  }

  lemma SubtractTrivial(rs1: seq<IPRange>, rs2: seq<IPRange>)
    ensures rs1 == [] || rs2 == [] ==> Subtracted(rs1, rs2) == rs1
  {
  }

  method SubtractRanges(rs1: seq<IPRange>, rs2: seq<IPRange>) returns (final: seq<IPRange>)
    ensures final == Subtracted(rs1, rs2)
  {
    hide Subtracted, Less, Compare, Next, Prev, Left;
    SubtractTrivial(rs1, rs2);
    if |rs1| == 0 {
      return [];
    }
    if |rs2| == 0 {
      return rs1;
    }
    final := [];
    var i, j := 0, 0;
    var current := rs1[0];
    SubtractStart(rs1, rs2);
    while i < |rs1| && j < |rs2|
      invariant 0 <= i <= |rs1| && 0 <= j <= |rs2|
      invariant final + Subtracted(Left(current, rs1, i), rs2[j..]) == Subtracted(rs1, rs2)
      decreases |rs1| - i + |rs2| - j
    {
      var sub := rs2[j];
      ghost var kept, next := final + Kept(current, sub), SubtractNext(current, rs1, i, rs2, j);
      SubtractRound(final, current, rs1, i, rs2, j);
      CompareTotal(current.end, sub.end);
      if Less(current.end, sub.start) {
        final := final + [current];
      } else if Less(current.start, sub.start) {
        final := final + [IPRange(current.start, Prev(sub.start))];
      }
      assert final == kept;
      if Compare(sub.end, current.end) <= 0 {
        j := j + 1;
      }
      if Compare(current.end, sub.end) <= 0 {
        i := i + 1;
        if i < |rs1| {
          current := rs1[i];
        }
      } else {
        current := IPRange(Next(sub.end), current.end);
      }
      assert (current, i, j) == next;
    }
    SubtractEnd(final, current, rs1, i, rs2, j);
    if i < |rs1| {
      final := final + [current];
      final := final + rs1[i + 1..];
    }
  }

  /** One round of the intersection loop. */
  lemma IntersectRound(done: seq<IPRange>, rs1: seq<IPRange>, i: nat, rs2: seq<IPRange>, j: nat)
    requires i < |rs1| && j < |rs2|
    ensures var rest := if FirstEndsFirst(rs1[i], rs2[j]) then Intersected(rs1[i + 1..], rs2[j..])
                        else Intersected(rs1[i..], rs2[j + 1..]);
            (done + Overlap(rs1[i], rs2[j])) + rest == done + Intersected(rs1[i..], rs2[j..])
  {
    assert rs1[i..][1..] == rs1[i + 1..] && rs2[j..][1..] == rs2[j + 1..];
    var rest := if FirstEndsFirst(rs1[i], rs2[j]) then Intersected(rs1[i + 1..], rs2[j..])
                else Intersected(rs1[i..], rs2[j + 1..]);
    Regroup(done, Overlap(rs1[i], rs2[j]), rest);
  }

  method IntersectRanges(rs1: seq<IPRange>, rs2: seq<IPRange>) returns (out: seq<IPRange>)
    ensures out == Intersected(rs1, rs2)
  {
    if |rs1| == 0 || |rs2| == 0 {
      return [];
    }
    out := [];
    var i, j := 0, 0;
    assert rs1[0..] == rs1 && rs2[0..] == rs2;
    while i < |rs1| && j < |rs2|
      invariant 0 <= i <= |rs1| && 0 <= j <= |rs2|
      invariant out + Intersected(rs1[i..], rs2[j..]) == Intersected(rs1, rs2)
      decreases |rs1| - i + |rs2| - j
    {
      var r1, r2 := rs1[i], rs2[j];
      ghost var done, first := out, FirstEndsFirst(r1, r2);
      IntersectRound(out, rs1, i, rs2, j);
      if Less(r1.end, r2.start) {
        i := i + 1;
      } else if Less(r2.end, r1.start) {
        j := j + 1;
      } else {
        var start := r1.start;
        if Compare(r2.start, start) > 0 {
          start := r2.start;
        }
        var end := r1.end;
        if Compare(r2.end, end) < 0 {
          end := r2.end;
        }
        if Compare(start, end) <= 0 {
          out := out + [IPRange(start, end)];
        }
        if Compare(r1.end, r2.end) <= 0 {
          i := i + 1;
        } else {
          j := j + 1;
        }
      }
      assert out == done + Overlap(r1, r2);
    }
  }

  // ---------- the set of both families ----------

  /** A range as NewIPRange makes it. */
  predicate IsRange(r: IPRange) {
    r.start.Addr? && WellFormed(r.start.family, r)
  }

  function OfFamily(rs: seq<IPRange>, f: Family): seq<IPRange> {
    if rs == [] then []
    else OfFamily(rs[..|rs| - 1], f) +
         if rs[|rs| - 1].start.Addr? && rs[|rs| - 1].start.family == f then [rs[|rs| - 1]] else []
  }

  lemma {:induction false} OfFamilyWellFormed(rs: seq<IPRange>, f: Family)
    requires forall r :: r in rs ==> IsRange(r)
    ensures AllWellFormed(f, OfFamily(rs, f))
    ensures forall r :: r in OfFamily(rs, f) <==> r in rs && r.start.Addr? && r.start.family == f
  {
    if rs != [] {
      OfFamilyWellFormed(rs[..|rs| - 1], f);
      assert forall r :: r in rs[..|rs| - 1] ==> r in rs;
      assert IsRange(rs[|rs| - 1]);
      assert rs == rs[..|rs| - 1] + [rs[|rs| - 1]];
    }
  }

  method SplitByFamily(rs: seq<IPRange>) returns (rs4: seq<IPRange>, rs6: seq<IPRange>)
    requires forall r :: r in rs ==> IsRange(r)
    ensures rs4 == OfFamily(rs, V4) && rs6 == OfFamily(rs, V6)
  {
    rs4, rs6 := [], [];
    for n := 0 to |rs|
      invariant rs4 == OfFamily(rs[..n], V4) && rs6 == OfFamily(rs[..n], V6)
    {
      assert rs[..n + 1][..n] == rs[..n];
      assert IsRange(rs[n]);
      match rs[n].start.family
      case V4 => rs4 := rs4 + [rs[n]];
      case V6 => rs6 := rs6 + [rs[n]];
    }
    assert rs[..|rs|] == rs;
  }

  /** a lies in a range that does not end at the all-ones address. */
  ghost predicate InBelowTop(rs: seq<IPRange>, a: Addr)
    requires a.Addr?
  {
    exists k :: 0 <= k < |rs| && Inside(rs[k], a.value) && Hi(rs[k]) != Top(a.family)
  }

  class IPRangeSet {
    var ranges4: seq<IPRange>
    var ranges6: seq<IPRange>

    ghost predicate Valid()
      reads this
    {
      NormalForm(V4, ranges4) && NormalForm(V6, ranges6)
    }

    function RangesForFamily(f: Family): seq<IPRange>
      reads this
    {
      match f
      case V4 => ranges4
      case V6 => ranges6
    }

    constructor (rs: seq<IPRange>)
      requires forall r :: r in rs ==> IsRange(r)
      ensures Valid()
      ensures ranges4 == Merged(OfFamily(rs, V4)) && ranges6 == Merged(OfFamily(rs, V6))
    {
      ranges4, ranges6 := [], [];
      new;
      Merge(rs);
      assert [] + OfFamily(rs, V4) == OfFamily(rs, V4) && [] + OfFamily(rs, V6) == OfFamily(rs, V6);
    }

    method Merge(rs: seq<IPRange>)
      requires Valid() && forall r :: r in rs ==> IsRange(r)
      modifies this
      ensures Valid()
      ensures ranges4 == Merged(old(ranges4) + OfFamily(rs, V4))
      ensures ranges6 == Merged(old(ranges6) + OfFamily(rs, V6))
    {
      if |rs| == 0 {
        assert ranges4 + OfFamily(rs, V4) == ranges4 && ranges6 + OfFamily(rs, V6) == ranges6;
        MergedNormalForm(V4, ranges4);
        MergedNormalForm(V6, ranges6);
        return;
      }
      var rs4, rs6 := SplitByFamily(rs);
      NormalFormPairwise(V4, ranges4);
      NormalFormPairwise(V6, ranges6);
      OfFamilyWellFormed(rs, V4);
      OfFamilyWellFormed(rs, V6);
      MergedCorrect(V4, ranges4 + rs4);
      MergedCorrect(V6, ranges6 + rs6);
      ranges4 := MergeRanges(V4, ranges4 + rs4);
      ranges6 := MergeRanges(V6, ranges6 + rs6);
    }

    method Subtract(rs: seq<IPRange>)
      requires Valid() && forall r :: r in rs ==> IsRange(r)
      modifies this
      ensures Valid()
      ensures ranges4 == Subtracted(old(ranges4), Merged(OfFamily(rs, V4)))
      ensures ranges6 == Subtracted(old(ranges6), Merged(OfFamily(rs, V6)))
    {
      if |rs| == 0 {
        return;
      }
      var rs4, rs6 := SplitByFamily(rs);
      OfFamilyWellFormed(rs, V4);
      OfFamilyWellFormed(rs, V6);
      MergedCorrect(V4, rs4);
      MergedCorrect(V6, rs6);
      SubtractedNormal(V4, ranges4, Merged(rs4));
      SubtractedNormal(V6, ranges6, Merged(rs6));
      var m4 := MergeRanges(V4, rs4);
      ranges4 := SubtractRanges(ranges4, m4);
      var m6 := MergeRanges(V6, rs6);
      ranges6 := SubtractRanges(ranges6, m6);
    }

    method Intersections(rs: IPRangeSet) returns (out: IPRangeSet)
      requires Valid() && rs.Valid()
      ensures fresh(out) && out.Valid()
      ensures out.ranges4 == Intersected(ranges4, rs.ranges4) && out.ranges6 == Intersected(ranges6, rs.ranges6)
    {
      var i4 := IntersectRanges(ranges4, rs.ranges4);
      var i6 := IntersectRanges(ranges6, rs.ranges6);
      IntersectedNormal(V4, ranges4, rs.ranges4);
      IntersectedNormal(V6, ranges6, rs.ranges6);
      out := new IPRangeSet([]);
      out.ranges4, out.ranges6 := i4, i6;
    }

    method Count(f: Family) returns (total: int)
      requires Valid()
      ensures total == |Denoted(f, RangesForFamily(f))|
    {
      total := 0;
      var rs := RangesForFamily(f);
      for n := 0 to |rs|
        invariant total + CountRanges(rs[n..]) == CountRanges(rs)
      {
        assert rs[n..][1..] == rs[n + 1..];
        total := total + RangeCount(rs[n]);
      }
      CountIsCardinality(f, rs);
    }

    /** Contains is membership, except in a range that ends at the all-ones address. */
    method Contains(a: Addr) returns (found: bool)
      requires Valid() && (a.NoAddr? || IsValid(a))
      ensures found <==> a.Addr? && InBelowTop(RangesForFamily(a.family), a)
    {
      if a.NoAddr? {
        return false;
      }
      var rs := RangesForFamily(a.family);
      NormalFormPairwise(a.family, rs);
      for n := 0 to |rs|
        invariant forall k :: 0 <= k < n ==> !(Inside(rs[k], a.value) && Hi(rs[k]) != Top(a.family))
      {
        assert WellFormed(a.family, rs[n]);
        RangeContainsExactly(a.family, rs[n], a);
        if RangeContains(rs[n], a) {
          assert Inside(rs[n], a.value);
          return true;
        }
      }
      return false;
    }
  }
}
