/**
 * The median used by the outlier vote: its definition by sorting, what a strict
 * majority of the readings guarantees about it, and the in-place computation.
 */
module Medians {
  import opened Basics

  ghost predicate IsSorted(s: seq<uint16>) {
    forall i, j :: 0 <= i < j < |s| ==> s[i] <= s[j]
  }

  function Insert(x: uint16, s: seq<uint16>): (r: seq<uint16>)
    ensures |r| == |s| + 1
    ensures r[0] == if s == [] || x <= s[0] then x else s[0]
    ensures IsSorted(s) ==> IsSorted(r)
  {
    if s == [] then [x]
    else if x <= s[0] then [x] + s
    else [s[0]] + Insert(x, s[1..])
  }

  lemma {:induction false} InsertAdds(x: uint16, s: seq<uint16>)
    ensures multiset(Insert(x, s)) == multiset(s) + multiset{x}
  {
    if s != [] && s[0] < x {
      InsertAdds(x, s[1..]);
      assert s == [s[0]] + s[1..];
    }
  }

  /** Insertion sort, as the reference for what "the k-th smallest" means. */
  function Sort(s: seq<uint16>): (r: seq<uint16>)
    ensures |r| == |s| && IsSorted(r)
  {
    if s == [] then [] else Insert(s[0], Sort(s[1..]))
  }

  lemma {:induction false} SortPermutes(s: seq<uint16>)
    ensures multiset(Sort(s)) == multiset(s)
  {
    if s != [] {
      SortPermutes(s[1..]);
      InsertAdds(s[0], Sort(s[1..]));
      assert s == [s[0]] + s[1..];
    }
  }

  /** The middle reading, or the mean of the two middle ones rounded down; 0 of nothing. */
  function Median(s: seq<uint16>): uint16 {
    var n := |s|;
    if n == 0 then 0
    else if n % 2 == 1 then Sort(s)[n / 2]
    else
      var below: int, above: int := Sort(s)[n / 2 - 1], Sort(s)[n / 2];
      (below + above) / 2
  }

  /** How many readings lie between lo and hi, both included. */
  function CountIn(s: seq<uint16>, lo: int, hi: int): (n: nat)
    ensures n <= |s|
  {
    if s == [] then 0
    else CountIn(s[1..], lo, hi) + if lo <= s[0] <= hi then 1 else 0
  }

  lemma {:induction false} CountInInsert(x: uint16, s: seq<uint16>, lo: int, hi: int)
    ensures CountIn(Insert(x, s), lo, hi) == CountIn([x] + s, lo, hi)
  {
    assert ([x] + s)[1..] == s;
    if s != [] && s[0] < x {
      CountInInsert(x, s[1..], lo, hi);
      assert ([x] + s[1..])[1..] == s[1..];
      assert Insert(x, s)[1..] == Insert(x, s[1..]);
    }
  }

  lemma {:induction false} CountInSort(s: seq<uint16>, lo: int, hi: int)
    ensures CountIn(Sort(s), lo, hi) == CountIn(s, lo, hi)
  {
    if s != [] {
      CountInSort(s[1..], lo, hi);
      CountInInsert(s[0], Sort(s[1..]), lo, hi);
      assert ([s[0]] + Sort(s[1..]))[1..] == Sort(s[1..]);
    }
  }

  /** Everything up to position k of a sorted sequence is below lo once position k is. */
  lemma {:induction false} FewAboveLow(s: seq<uint16>, k: nat, lo: int, hi: int)
    requires IsSorted(s) && k < |s| && s[k] < lo
    ensures CountIn(s, lo, hi) <= |s| - k - 1
  {
    if k > 0 {
      FewAboveLow(s[1..], k - 1, lo, hi);
    }
  }

  /** Everything from position k of a sorted sequence on is above hi once position k is. */
  lemma {:induction false} FewBelowHigh(s: seq<uint16>, k: nat, lo: int, hi: int)
    requires IsSorted(s) && k < |s| && hi < s[k]
    ensures CountIn(s, lo, hi) <= k
  {
    if |s| > 1 {
      FewBelowHigh(s[1..], if k == 0 then 0 else k - 1, lo, hi);
    }
  }

  /** The median stays inside every range that holds a strict majority of the readings. */
  lemma MajorityBoundsMedian(s: seq<uint16>, lo: int, hi: int)
    requires 2 * CountIn(s, lo, hi) > |s|
    ensures lo <= Median(s) <= hi
  {
    CountInSort(s, lo, hi);
    var t, n := Sort(s), |s|;
    forall k | 0 <= k < n && n <= 2 * k + 2 && 2 * k <= n
      ensures lo <= t[k] <= hi
    {
      if t[k] < lo {
        FewAboveLow(t, k, lo, hi);
      } else if hi < t[k] {
        FewBelowHigh(t, k, lo, hi);
      }
    }
  }

  /** Arrangements of the same readings have the same bounds. */
  lemma SameBounds(a: seq<uint16>, b: seq<uint16>, lo: int, hi: int)
    requires multiset(a) == multiset(b)
    requires forall i :: 0 <= i < |a| ==> lo <= a[i] <= hi
    ensures forall i :: 0 <= i < |b| ==> lo <= b[i] <= hi
  {
    forall i | 0 <= i < |b| ensures lo <= b[i] <= hi {
      assert b[i] in multiset(b) && b[i] in multiset(a);
    }
  }

  lemma HeadOff(a: seq<uint16>)
    requires a != []
    ensures multiset(a[1..]) == multiset(a) - multiset{a[0]}
  {
    assert a == [a[0]] + a[1..];
  }

  /** No element of a sorted sequence is below its head. */
  lemma HeadIsLeast(a: seq<uint16>, x: uint16)
    requires IsSorted(a) && x in multiset(a)
    ensures a[0] <= x
  {
    var i :| 0 <= i < |a| && a[i] == x;
  }

  lemma SameHeads(a: seq<uint16>, b: seq<uint16>)
    requires IsSorted(a) && IsSorted(b) && multiset(a) == multiset(b) && a != []
    ensures b != [] && a[0] == b[0]
  {
    assert a[0] in multiset(b);
    HeadIsLeast(b, a[0]);
    assert b[0] in multiset(a);
    HeadIsLeast(a, b[0]);
  }

  /** A multiset has only one sorted arrangement. */
  lemma {:induction false} SortedUnique(a: seq<uint16>, b: seq<uint16>)
    requires IsSorted(a) && IsSorted(b) && multiset(a) == multiset(b)
    ensures a == b
  {
    if a != [] {
      SameHeads(a, b);
      HeadOff(a);
      HeadOff(b);
      SortedUnique(a[1..], b[1..]);
    } else {
      assert |multiset(b)| == |b|;
    }
  }

  /** What the C++ library promises of nth_element: position k is as if sorted. */
  ghost predicate Partitioned(s: seq<uint16>, k: nat) {
    k < |s| && (forall i :: 0 <= i < k ==> s[i] <= s[k]) && (forall i :: k < i < |s| ==> s[k] <= s[i])
  }

  lemma SortedConcat(lo: seq<uint16>, x: uint16, hi: seq<uint16>)
    requires IsSorted(lo) && IsSorted(hi)
    requires forall i :: 0 <= i < |lo| ==> lo[i] <= x
    requires forall i :: 0 <= i < |hi| ==> x <= hi[i]
    ensures IsSorted(lo + [x] + hi)
  {
  }

  /** A partitioned sequence, with each side sorted, is the sorted sequence. */
  lemma PartitionedIsSorted(s: seq<uint16>, k: nat)
    requires Partitioned(s, k)
    ensures Sort(s) == Sort(s[..k]) + [s[k]] + Sort(s[k + 1..])
  {
    var low, high := s[..k], s[k + 1..];
    assert s == low + [s[k]] + high;
    SortPermutes(s);
    SortPermutes(low);
    SortPermutes(high);
    SameBounds(low, Sort(low), 0, s[k]);
    SameBounds(high, Sort(high), s[k], 0xFFFF);
    SortedConcat(Sort(low), s[k], Sort(high));
    SortedUnique(Sort(s), Sort(low) + [s[k]] + Sort(high));
  }

  /** The largest element comes last once sorted. */
  lemma LastIsMax(s: seq<uint16>, t: seq<uint16>, m: uint16)
    requires m in s && forall i :: 0 <= i < |s| ==> s[i] <= m
    requires IsSorted(t) && multiset(t) == multiset(s)
    ensures t != [] && t[|t| - 1] == m
  {
    assert m in multiset(t);
    SameBounds(s, t, 0, m);
  }

  /** The position of a smallest element of buf[from..]. */
  method MinIndex(buf: array<uint16>, from: nat) returns (least: nat)
    requires from < buf.Length
    ensures from <= least < buf.Length
    ensures forall j :: from <= j < buf.Length ==> buf[least] <= buf[j]
  {
    least := from;
    for j := from + 1 to buf.Length
      invariant from <= least < buf.Length
      invariant forall k :: from <= k < j ==> buf[least] <= buf[k]
    {
      if buf[j] < buf[least] {
        least := j;
      }
    }
  }

  /** Partial selection with the contract of std::nth_element. */
  method NthElement(buf: array<uint16>, mid: nat)
    requires mid < buf.Length
    modifies buf
    ensures Partitioned(buf[..], mid)
    ensures multiset(buf[..]) == old(multiset(buf[..]))
  {
    for i := 0 to mid + 1
      invariant forall a, b :: 0 <= a < i && a <= b < buf.Length ==> buf[a] <= buf[b]
      invariant multiset(buf[..]) == old(multiset(buf[..]))
    {
      var least := MinIndex(buf, i);
      buf[i], buf[least] := buf[least], buf[i];
    }
  }

  /** The largest of the first n elements, as std::max_element finds it. */
  method MaxElement(buf: array<uint16>, n: nat) returns (m: uint16)
    requires 0 < n <= buf.Length
    ensures m in buf[..n] && forall i :: 0 <= i < n ==> buf[..n][i] <= m
  {
    m := buf[0];
    for i := 1 to n
      invariant m in buf[..n] && forall j :: 0 <= j < i ==> buf[j] <= m
    {
      if m < buf[i] {
        m := buf[i];
      }
    }
  }

  /** The engine's median: a partial selection on a copy, then the mean of the middle pair if even. */
  method MedianN(readings: seq<uint16>) returns (m: uint16)
    ensures m == Median(readings)
  {
    var n := |readings|;
    if n == 0 {
      return 0;
    }
    var buf := new uint16[n](i requires 0 <= i < n => readings[i]);
    assert buf[..] == readings;
    var mid := n / 2;
    NthElement(buf, mid);
    ghost var parted := buf[..];
    PartitionedIsSorted(parted, mid);
    assert Sort(parted) == Sort(readings) by {
      SortPermutes(parted);
      SortPermutes(readings);
      SortedUnique(Sort(parted), Sort(readings));
    }
    m := buf[mid];
    if n % 2 == 0 {
      var below := MaxElement(buf, mid);
      assert buf[..mid] == parted[..mid];
      SortPermutes(parted[..mid]);
      LastIsMax(parted[..mid], Sort(parted[..mid]), below);
      var sum: int := below + m;
      m := sum / 2;
    }
  }
}
