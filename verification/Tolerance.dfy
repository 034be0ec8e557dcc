/**
 * What a faulty minority of sensors can and cannot do to the vote, over runs of
 * any length, and why a strict majority is needed.
 */
module Tolerance {
  import opened Basics
  import opened Medians
  import opened Voting

  /** How many of the reporters are honest. */
  function HonestCount(rs: seq<Slot>, honest: set<Eui>): nat {
    if rs == [] then 0
    else HonestCount(rs[1..], honest) + if rs[0].eui in honest then 1 else 0
  }

  ghost predicate HonestMajority(rs: seq<Slot>, honest: set<Eui>) {
    2 * HonestCount(rs, honest) > |rs|
  }

  /** Honest sensors watch the same water: their levels differ by at most the tolerance. */
  ghost predicate HonestAgree(rs: seq<Slot>, honest: set<Eui>) {
    forall i, j :: 0 <= i < |rs| && 0 <= j < |rs| && rs[i].eui in honest && rs[j].eui in honest
      ==> rs[i].level - rs[j].level <= TOLERANCE_MM
  }

  lemma {:induction false} HonestInRange(rs: seq<Slot>, honest: set<Eui>, lo: int, hi: int)
    requires forall i :: 0 <= i < |rs| && rs[i].eui in honest ==> lo <= rs[i].level <= hi
    ensures HonestCount(rs, honest) <= CountIn(Levels(rs), lo, hi)
  {
    if rs != [] {
      HonestInRange(rs[1..], honest, lo, hi);
      assert Levels(rs)[1..] == Levels(rs[1..]);
    }
  }

  /** With an honest majority the median lies in any range that holds every honest level. */
  lemma MedianAmongHonest(rs: seq<Slot>, honest: set<Eui>, lo: int, hi: int)
    requires HonestMajority(rs, honest)
    requires forall i :: 0 <= i < |rs| && rs[i].eui in honest ==> lo <= rs[i].level <= hi
    ensures lo <= Median(Levels(rs)) <= hi
  {
    HonestInRange(rs, honest, lo, hi);
    MajorityBoundsMedian(Levels(rs), lo, hi);
  }

  /** No choice of the minority's readings makes an honest reading an outlier. */
  lemma HonestIsNoOutlier(rs: seq<Slot>, honest: set<Eui>, i: nat)
    requires HonestMajority(rs, honest) && HonestAgree(rs, honest)
    requires i < |rs| && rs[i].eui in honest
    ensures !IsOutlier(rs[i].level, Median(Levels(rs)))
  {
    MedianAmongHonest(rs, honest, rs[i].level - TOLERANCE_MM, rs[i].level + TOLERANCE_MM);
  }

  /** A window in which a vote takes place has an honest majority that agrees. */
  ghost predicate FairWindow(st: State, honest: set<Eui>) {
    var rs := Reporting(st.slots);
    |rs| >= MIN_REPORTERS ==> HonestMajority(rs, honest) && HonestAgree(rs, honest)
  }

  ghost predicate FairRun(evs: seq<Event>, capacity: nat, honest: set<Eui>) {
    forall k :: 0 <= k < |evs| && evs[k].Close? ==> FairWindow(Run(evs[..k], capacity), honest)
  }

  ghost predicate Unblemished(st: State, honest: set<Eui>) {
    forall e :: e in honest && e in st.standings ==> st.standings[e] == NEWCOMER
  }

  lemma FairStep(st: State, capacity: nat, ev: Event, honest: set<Eui>)
    requires Aligned(st) && Unblemished(st, honest)
    requires ev.Close? ==> FairWindow(st, honest)
    ensures Unblemished(Step(st, capacity, ev), honest)
  {
    var rs := Reporting(st.slots);
    if ev.Close? && |rs| >= MIN_REPORTERS {
      var med := Median(Levels(rs));
      ReportingDistinct(st.slots);
      VotePointwise(st.standings, rs, med);
      var after := VoteAll(st.standings, rs, med);
      forall e | e in honest && e in after ensures after[e] == NEWCOMER {
        if HasSlot(rs, e) {
          var i :| 0 <= i < |rs| && rs[i].eui == e;
          HonestIsNoOutlier(rs, honest, i);
        }
      }
    }
  }

  /** Over a fair run no honest sensor ever loses reputation or is excluded. */
  lemma {:induction false} HonestNeverPunished(evs: seq<Event>, capacity: nat, honest: set<Eui>)
    requires FairRun(evs, capacity, honest)
    ensures Unblemished(Run(evs, capacity), honest)
  {
    if evs != [] {
      var front := evs[..|evs| - 1];
      assert forall k :: 0 <= k < |front| ==> front[..k] == evs[..k];
      HonestNeverPunished(front, capacity, honest);
      RunAligned(front, capacity);
      FairStep(Run(front, capacity), capacity, evs[|evs| - 1], honest);
    }
  }

  /** Over a fair run every batch carries honest readings with their own quality flags. */
  lemma HonestNeverMarked(evs: seq<Event>, capacity: nat, honest: set<Eui>, i: nat)
    requires FairRun(evs + [Close], capacity, honest)
    requires CloseWindow(Run(evs, capacity)).1.Some?
    requires i < |Reporting(Run(evs, capacity).slots)|
    requires Reporting(Run(evs, capacity).slots)[i].eui in honest
    ensures var r := Reporting(Run(evs, capacity).slots)[i];
      var out := CloseWindow(Run(evs, capacity)).1.value[i];
      && out.eui == r.eui && out.level == r.level
      && out.validity == r.validity && out.detail == r.detail && out.timestamp == r.timestamp
  {
    var all := evs + [Close];
    assert all[..|evs|] == evs;
    forall k | 0 <= k < |evs| && evs[k].Close? ensures FairWindow(Run(evs[..k], capacity), honest) {
      assert all[..k] == evs[..k] && all[k].Close?;
    }
    HonestNeverPunished(evs, capacity, honest);
    var st := Run(evs, capacity);
    assert FairWindow(st, honest) by { assert all[|evs|].Close?; }
    var rs := Reporting(st.slots);
    RunAligned(evs, capacity);
    ReportingDistinct(st.slots);
    HonestIsNoOutlier(rs, honest, i);
    BatchPointwise(st.standings, rs, Median(Levels(rs)), i);
  }

  // ---- Alerts ------------------------------------------------------------

  /** A false alarm is impossible: a trigger needs an honest level within tolerance of the threshold. */
  lemma AlertNeedsHonestWater(st: State, honest: set<Eui>)
    requires Aligned(st)
    requires CloseWindow(st).1.Some? && Triggers(CloseWindow(st).1.value)
    requires HonestMajority(Reporting(st.slots), honest)
    ensures var rs := Reporting(st.slots);
      exists i :: 0 <= i < |rs| && rs[i].eui in honest && rs[i].level >= ALERT_THRESHOLD_MM - TOLERANCE_MM
  {
    var rs := Reporting(st.slots);
    var med := Median(Levels(rs));
    ReportingDistinct(st.slots);
    var batch := BatchOf(st.standings, rs, med);
    var k :| 0 <= k < |batch| && Raises(batch[k]);
    BatchPointwise(st.standings, rs, med, k);
    if forall i :: 0 <= i < |rs| && rs[i].eui in honest ==> rs[i].level < ALERT_THRESHOLD_MM - TOLERANCE_MM {
      MedianAmongHonest(rs, honest, 0, ALERT_THRESHOLD_MM - TOLERANCE_MM - 1);
    }
  }

  lemma RunOneMore(evs: seq<Event>, capacity: nat, ev: Event)
    ensures Run(evs + [ev], capacity) == Step(Run(evs, capacity), capacity, ev)
  {
    assert (evs + [ev])[..|evs + [ev]| - 1] == evs;
  }

  /** Every honest reporter of the window is good and at or above the threshold. */
  ghost predicate HonestSeeFlood(rs: seq<Slot>, honest: set<Eui>) {
    forall i :: 0 <= i < |rs| && rs[i].eui in honest
      ==> rs[i].validity == Good && rs[i].level >= ALERT_THRESHOLD_MM
  }

  /** No missed flood: honest readings that are good and high raise the alert in that very window. */
  lemma HighWaterRaisesAlert(evs: seq<Event>, capacity: nat, honest: set<Eui>)
    requires FairRun(evs + [Close], capacity, honest)
    requires |Reporting(Run(evs, capacity).slots)| >= MIN_REPORTERS
    requires HonestSeeFlood(Reporting(Run(evs, capacity).slots), honest)
    ensures Run(evs + [Close], capacity).alertActive
  {
    var st := Run(evs, capacity);
    var rs := Reporting(st.slots);
    assert FairWindow(st, honest) by {
      assert (evs + [Close])[..|evs|] == evs && (evs + [Close])[|evs|].Close?;
    }
    SomeHonest(rs, honest);
    var i :| 0 <= i < |rs| && rs[i].eui in honest;
    HonestNeverMarked(evs, capacity, honest, i);
    RaisingEntryActivates(st, capacity, i);
    RunOneMore(evs, capacity, Close);
  }

  lemma RaisingEntryActivates(st: State, capacity: nat, i: nat)
    requires CloseWindow(st).1.Some? && i < |CloseWindow(st).1.value| && Raises(CloseWindow(st).1.value[i])
    ensures Step(st, capacity, Close).alertActive
  {
  }

  lemma {:induction false} SomeHonest(rs: seq<Slot>, honest: set<Eui>)
    requires HonestCount(rs, honest) > 0
    ensures exists i :: 0 <= i < |rs| && rs[i].eui in honest
  {
    if rs[0].eui !in honest {
      SomeHonest(rs[1..], honest);
      var i :| 0 <= i < |rs[1..]| && rs[1..][i].eui in honest;
      assert rs[i + 1].eui in honest;
    }
  }

  // ---- The majority is necessary -----------------------------------------

  function Repeat(x: uint16, n: nat): (s: seq<uint16>)
    ensures |s| == n && forall i :: 0 <= i < n ==> s[i] == x
  {
    seq(n, _ => x)
  }

  lemma {:induction false} CountInAppend(s: seq<uint16>, x: uint16, n: nat, lo: int, hi: int)
    requires lo <= x <= hi
    ensures CountIn(s + Repeat(x, n), lo, hi) >= n
    decreases |s| + n
  {
    var t := s + Repeat(x, n);
    if s != [] {
      CountInAppend(s[1..], x, n, lo, hi);
      assert t[1..] == s[1..] + Repeat(x, n);
    } else if n > 0 {
      CountInAppend([], x, n - 1, lo, hi);
      assert t[1..] == [] + Repeat(x, n - 1);
    }
  }

  /** The median is the mean of the middle element and itself, or of the two middle ones. */
  lemma Middle(s: seq<uint16>) returns (k: nat, l: nat)
    requires s != []
    ensures k <= l <= k + 1 && k + l + 1 == |s|
    ensures 2 * Median(s) <= Sort(s)[k] + Sort(s)[l] <= 2 * Median(s) + 1
  {
    l := |s| / 2;
    k := if |s| % 2 == 1 then l else l - 1;
  }

  lemma TopFrom(t: seq<uint16>, l: nat)
    requires IsSorted(t) && l < |t| && CountIn(t, 0xFFFF, 0xFFFF) >= |t| - l
    ensures t[l] == 0xFFFF
  {
    if t[l] < 0xFFFF {
      FewAboveLow(t, l, 0xFFFF, 0xFFFF);
    }
  }

  lemma ZeroUpTo(t: seq<uint16>, k: nat)
    requires IsSorted(t) && k < |t| && CountIn(t, 0, 0) > k
    ensures t[k] == 0
  {
    if t[k] > 0 {
      FewBelowHigh(t, k, 0, 0);
    }
  }

  lemma SortedAfter(t: seq<uint16>, a: nat, b: nat)
    requires IsSorted(t) && a < |t| && b < |t| && t[a] < t[b]
    ensures a < b
  {
  }

  lemma AnyBelow(t: seq<uint16>, k: nat, l: nat, x: uint16)
    requires IsSorted(t) && k <= l <= k + 1 && l < |t| && x in t && x < t[l]
    ensures x <= t[k]
  {
    var p :| 0 <= p < |t| && t[p] == x;
    SortedAfter(t, p, l);
  }

  lemma AnyAbove(t: seq<uint16>, k: nat, l: nat, x: uint16)
    requires IsSorted(t) && k <= l <= k + 1 && l < |t| && x in t && t[k] < x
    ensures t[l] <= x
  {
    var p :| 0 <= p < |t| && t[p] == x;
    SortedAfter(t, k, p);
  }

  lemma InSort(s: seq<uint16>, x: uint16)
    requires x in s
    ensures x in Sort(s)
  {
    SortPermutes(s);
    assert x in multiset(Sort(s));
  }

  /** Readings at the top, held by half, drag the median at least half of the way up. */
  lemma HalfPullsUp(s: seq<uint16>, x: uint16)
    requires x in s && x < 0xFFFF && 2 * CountIn(s, 0xFFFF, 0xFFFF) >= |s|
    ensures 2 * Median(s) + 1 >= x + 0xFFFF
  {
    var k, l := Middle(s);
    CountInSort(s, 0xFFFF, 0xFFFF);
    TopFrom(Sort(s), l);
    InSort(s, x);
    AnyBelow(Sort(s), k, l, x);
  }

  /** Readings at zero, held by half, drag the median at least half of the way down. */
  lemma HalfPullsDown(s: seq<uint16>, x: uint16)
    requires x in s && x > 0 && 2 * CountIn(s, 0, 0) >= |s|
    ensures 2 * Median(s) <= x
  {
    var k, l := Middle(s);
    CountInSort(s, 0, 0);
    ZeroUpTo(Sort(s), k);
    InSort(s, x);
    AnyAbove(Sort(s), k, l, x);
  }

  /**
   * As soon as half of the reporters are faulty they can have any honest reading flagged, so
   * the strict majority asked of fair windows cannot be weakened.
   */
  lemma MajorityIsNecessary(honest: seq<uint16>, faulty: nat, i: nat)
    requires i < |honest| <= faulty
    ensures exists lie: uint16 :: IsOutlier(honest[i], Median(honest + Repeat(lie, faulty)))
  {
    var lie: uint16 := if honest[i] < 0x8000 then 0xFFFF else 0;
    var s := honest + Repeat(lie, faulty);
    assert s[i] == honest[i];
    CountInAppend(honest, lie, faulty, lie, lie);
    if honest[i] < 0x8000 {
      HalfPullsUp(s, honest[i]);
    } else {
      HalfPullsDown(s, honest[i]);
    }
    assert IsOutlier(honest[i], Median(s));
  }
}
