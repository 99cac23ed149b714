/** IPRange.Iter of internal/core/ip_range.go: the order in which a range is probed. */
module Probe {
  import opened Net

  /** Position of the k-th address probed. */
  function Slot(r: IPRange, hash: nat, k: nat): (v: int)
    requires Lo(r) <= Hi(r)
    ensures Inside(r, v)
  {
    var n := RangeCount(r);
    var v := hash % n + k;
    Lo(r) + (v % n)
  }

  /** The whole probe order: the range from the hashed position on, then from its start. */
  function ProbeOrder(f: Family, r: IPRange, hash: nat): (s: seq<Addr>)
    requires WellFormed(f, r)
    ensures |s| == RangeCount(r)
    ensures forall k :: 0 <= k < |s| ==> s[k] == Addr(f, Slot(r, hash, k))
  {
    seq(RangeCount(r), k requires k >= 0 => Addr(f, Slot(r, hash, k)))
  }

  /** The modular form in terms of the start alone: hash mod Count, plus k, wrapping at most once. */
  lemma SlotWraps(r: IPRange, hash: nat, k: nat)
    requires Lo(r) <= Hi(r) && k < RangeCount(r)
    ensures var n, o := RangeCount(r), hash % RangeCount(r);
            Slot(r, hash, k) == if o + k < n then Lo(r) + o + k else Lo(r) + o + k - n
  {
    WrapOnce(hash % RangeCount(r) + k, RangeCount(r));
  }

  lemma WrapOnce(v: nat, n: nat)
    requires v < 2 * n
    ensures v % n == if v < n then v else v - n
  {
  }

  /** Every address of the range is probed exactly once. */
  lemma ProbesEachOnce(f: Family, r: IPRange, hash: nat)
    requires WellFormed(f, r)
    ensures var s := ProbeOrder(f, r, hash);
            && (forall i, j :: 0 <= i < j < |s| ==> s[i] != s[j])
            && (forall a: Addr :: a in s <==> a.Addr? && a.family == f && Inside(r, a.value))
  {
    var s := ProbeOrder(f, r, hash);
    var n, o := RangeCount(r), hash % RangeCount(r);
    forall i, j | 0 <= i < j < |s| ensures s[i] != s[j] {
      SlotWraps(r, hash, i);
      SlotWraps(r, hash, j);
    }
    forall a: Addr | a.Addr? && a.family == f && Inside(r, a.value) ensures a in s {
      var at := a.value - Lo(r);
      var k := if at >= o then at - o else at - o + n;
      SlotWraps(r, hash, k);
      assert s[k] == a;
    }
  }

  /** The iteration, run to its end. `ys` collects what is passed to yield; `hash` is the start hash
      as a number. */
  method Iterate(f: Family, r: IPRange, hash: nat) returns (ys: seq<Addr>)
    requires WellFormed(f, r) && hash <= Top(V6)
    ensures ys == ProbeOrder(f, r, hash)
  {
    var n := RangeCount(r);
    var start := r.start;
    if hash != 0 {
      var offset := hash % n;
      start := Addr(f, start.value + offset);
    }
    ghost var o := start.value - Lo(r);
    assert o == hash % n;
    var end := r.end;
    ys := [];
    var addr := start;
    while true
      invariant |ys| < n
      invariant forall k :: 0 <= k < |ys| ==> ys[k] == Addr(f, Slot(r, hash, k))
      invariant addr == Addr(f, if o + |ys| < n then Lo(r) + o + |ys| else Lo(r) + o + |ys| - n)
      invariant if o + |ys| < n then end == r.end else o > 0 && end == Addr(f, Lo(r) + o - 1)
      decreases n - |ys|
    {
      SlotWraps(r, hash, |ys|);
      ys := ys + [addr];
      if addr == end {
        if start == r.start || end != r.end {
          break;
        } else {
          addr := r.start;
          end := Prev(start);
          continue;
        }
      }
      addr := Next(addr);
    }
    assert |ys| == n;
  }
}
