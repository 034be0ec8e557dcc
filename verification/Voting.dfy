/**
 * The outlier vote on values: one window's vote, the reputation of a sensor, the
 * alert hysteresis, and runs of the engine as the vote service drives it.
 */
module Voting {
  import opened Basics
  import opened Medians

  type Eui = nat

  /** Quality of a reading, section 6.2 of IEC 61850-7-3. */
  datatype Validity = Good | Invalid | Questionable

  const DETAIL_OUTLIER := 0x10

  /** Whether the outlier bit of the quality flags is set. */
  predicate HasOutlierBit(detail: uint8) {
    detail / DETAIL_OUTLIER % 2 == 1
  }

  /** The flags with the outlier bit set and every other bit as it was. */
  function MarkOutlier(detail: uint8): uint8 {
    if HasOutlierBit(detail) then detail else detail + DETAIL_OUTLIER
  }

  const TOLERANCE_MM := 200
  const ALERT_THRESHOLD_MM := 1500
  const ALERT_CLEAR_WINDOWS := 3
  const MIN_REPORTERS := 3

  const REPUTATION_PENALTY := 20
  const REPUTATION_RECOVERY := 5
  const REPUTATION_MIN := 20
  const REPUTATION_READMIT := 40
  const REPUTATION_INITIAL := 100
  const MAX_REPUTATION := 100
  const MIN_REPUTATION := 10

  datatype Reading = Reading(
    eui: Eui, level: uint16, validity: Validity, detail: uint8, timestamp: nat, seqId: uint32)

  /** What a slot remembers of its sensor, and whether it reported in this window. */
  datatype Slot = Slot(
    eui: Eui, level: uint16, validity: Validity, detail: uint8, timestamp: uint32, reported: bool)

  datatype Standing = Standing(score: int, excluded: bool)

  datatype State = State(
    slots: seq<Slot>, standings: map<Eui, Standing>, alertActive: bool, cleanWindows: nat)

  const Initial := State([], map[], false, 0)
  const NEWCOMER := Standing(REPUTATION_INITIAL, false)

  // ---- Reputation --------------------------------------------------------

  function ClampReputation(value: int): int {
    if value < MIN_REPUTATION then MIN_REPUTATION
    else if value > MAX_REPUTATION then MAX_REPUTATION
    else value
  }

  /** One window's verdict on a sensor. */
  function Judge(s: Standing, outlier: bool): Standing {
    if outlier then
      var score := ClampReputation(s.score - REPUTATION_PENALTY);
      Standing(score, s.excluded || score < REPUTATION_MIN)
    else
      var score := ClampReputation(s.score + REPUTATION_RECOVERY);
      Standing(score, s.excluded && score < REPUTATION_READMIT)
  }

  function StandingOf(standings: map<Eui, Standing>, eui: Eui): Standing {
    if eui in standings then standings[eui] else NEWCOMER
  }

  // ---- One vote ----------------------------------------------------------

  predicate IsOutlier(level: uint16, med: uint16) {
    level - med > TOLERANCE_MM || med - level > TOLERANCE_MM
  }

  /** The slots that reported, in slot order. */
  function Reporting(slots: seq<Slot>): seq<Slot> {
    if slots == [] then []
    else
      var last := slots[|slots| - 1];
      Reporting(slots[..|slots| - 1]) + if last.reported then [last] else []
  }

  function Levels(rs: seq<Slot>): (ls: seq<uint16>)
    ensures |ls| == |rs| && forall i :: 0 <= i < |rs| ==> ls[i] == rs[i].level
  {
    seq(|rs|, i requires 0 <= i < |rs| => rs[i].level)
  }

  /** Reputations after voting on the reporters in order. */
  function VoteAll(standings: map<Eui, Standing>, rs: seq<Slot>, med: uint16): map<Eui, Standing> {
    if rs == [] then standings
    else
      var before := VoteAll(standings, rs[..|rs| - 1], med);
      var last := rs[|rs| - 1];
      before[last.eui := Judge(StandingOf(before, last.eui), IsOutlier(last.level, med))]
  }

  /** The reading that leaves the fog tier for a slot, given its sensor's standing after the vote. */
  function Emit(s: Slot, med: uint16, excluded: bool): Reading {
    var out := Reading(s.eui, s.level, s.validity, s.detail, s.timestamp, 0);
    if excluded then out.(validity := Invalid, detail := MarkOutlier(s.detail))
    else if IsOutlier(s.level, med) then out.(validity := Questionable, detail := MarkOutlier(s.detail))
    else out
  }

  function BatchOf(standings: map<Eui, Standing>, rs: seq<Slot>, med: uint16): (b: seq<Reading>)
    ensures |b| == |rs|
  {
    if rs == [] then []
    else
      var last := rs[|rs| - 1];
      BatchOf(standings, rs[..|rs| - 1], med)
      + [Emit(last, med, StandingOf(VoteAll(standings, rs, med), last.eui).excluded)]
  }

  // ---- Steps of the engine -----------------------------------------------

  predicate HasSlot(slots: seq<Slot>, eui: Eui) {
    exists i :: 0 <= i < |slots| && slots[i].eui == eui
  }

  function Filled(r: Reading): Slot {
    Slot(r.eui, r.level, r.validity, r.detail, Wrap32(r.timestamp), true)
  }

  /** The slots after a reading: the sensor's slot, or the next free one, or no change when full. */
  function Stored(slots: seq<Slot>, capacity: nat, r: Reading): (after: seq<Slot>)
    ensures |slots| <= |after| <= |slots| + 1
  {
    if HasSlot(slots, r.eui) then
      seq(|slots|, i requires 0 <= i < |slots| => if slots[i].eui == r.eui then Filled(r) else slots[i])
    else if |slots| < capacity then slots + [Filled(r)]
    else slots
  }

  function Cleared(slots: seq<Slot>): (after: seq<Slot>)
    ensures |after| == |slots|
  {
    seq(|slots|, i requires 0 <= i < |slots| => slots[i].(reported := false))
  }

  function CloseWindow(st: State): (State, Option<seq<Reading>>) {
    var rs := Reporting(st.slots);
    var closed := st.(slots := Cleared(st.slots));
    if |rs| < MIN_REPORTERS then (closed, None)
    else
      var med := Median(Levels(rs));
      (closed.(standings := VoteAll(st.standings, rs, med)), Some(BatchOf(st.standings, rs, med)))
  }

  predicate Raises(r: Reading) {
    r.validity == Good && r.level >= ALERT_THRESHOLD_MM
  }

  predicate Triggers(batch: seq<Reading>) {
    exists i :: 0 <= i < |batch| && Raises(batch[i])
  }

  function CheckAlert(st: State, trigger: bool): State {
    if trigger then st.(alertActive := true, cleanWindows := 0)
    else if st.alertActive && st.cleanWindows + 1 >= ALERT_CLEAR_WINDOWS then
      st.(alertActive := false, cleanWindows := 0)
    else if st.alertActive then st.(cleanWindows := st.cleanWindows + 1)
    else st
  }

  // ---- Runs --------------------------------------------------------------

  /** What reaches the engine: a reading, the leader's window start, or the window timer. */
  datatype Event = Report(reading: Reading) | Open | Close

  function Step(st: State, capacity: nat, ev: Event): State {
    match ev
    case Report(r) => st.(slots := Stored(st.slots, capacity, r))
    case Open => st.(slots := Cleared(st.slots))
    case Close =>
      var (closed, batch) := CloseWindow(st);
      if batch.Some? then CheckAlert(closed, Triggers(batch.value)) else closed
  }

  function Run(evs: seq<Event>, capacity: nat): State {
    if evs == [] then Initial else Step(Run(evs[..|evs| - 1], capacity), capacity, evs[|evs| - 1])
  }

  // ---- Structure kept by every run ---------------------------------------

  ghost predicate DistinctEuis(slots: seq<Slot>) {
    forall i, j :: 0 <= i < j < |slots| ==> slots[i].eui != slots[j].eui
  }

  /** Slots are injective and every known reputation belongs to a slot. */
  ghost predicate Aligned(st: State) {
    && DistinctEuis(st.slots)
    && (forall e :: e in st.standings ==> HasSlot(st.slots, e))
  }

  lemma {:induction false} ReportingMembers(slots: seq<Slot>)
    ensures forall r :: r in Reporting(slots) <==> r in slots && r.reported
  {
    if slots != [] {
      ReportingMembers(slots[..|slots| - 1]);
      assert slots == slots[..|slots| - 1] + [slots[|slots| - 1]];
    }
  }

  lemma {:induction false} ReportingDistinct(slots: seq<Slot>)
    requires DistinctEuis(slots)
    ensures DistinctEuis(Reporting(slots)) && |Reporting(slots)| <= |slots|
  {
    if slots != [] {
      var front := slots[..|slots| - 1];
      ReportingDistinct(front);
      ReportingMembers(front);
      forall i | 0 <= i < |Reporting(front)|
        ensures Reporting(front)[i].eui != slots[|slots| - 1].eui
      {
        assert Reporting(front)[i] in front;
      }
    }
  }

  /** A vote judges each reporter once, on its own standing, and touches nobody else. */
  lemma {:induction false} VotePointwise(standings: map<Eui, Standing>, rs: seq<Slot>, med: uint16)
    requires DistinctEuis(rs)
    ensures forall i :: 0 <= i < |rs| ==>
      && rs[i].eui in VoteAll(standings, rs, med)
      && VoteAll(standings, rs, med)[rs[i].eui]
         == Judge(StandingOf(standings, rs[i].eui), IsOutlier(rs[i].level, med))
    ensures forall e :: e in VoteAll(standings, rs, med) <==> e in standings || HasSlot(rs, e)
    ensures forall e :: e in standings && !HasSlot(rs, e) ==> VoteAll(standings, rs, med)[e] == standings[e]
  {
    if rs != [] {
      var front := rs[..|rs| - 1];
      VotePointwise(standings, front, med);
      HasSlotFront(rs);
    }
  }

  lemma HasSlotFront(rs: seq<Slot>)
    requires DistinctEuis(rs) && rs != []
    ensures var front, last := rs[..|rs| - 1], rs[|rs| - 1];
      !HasSlot(front, last.eui) && forall e :: HasSlot(rs, e) <==> HasSlot(front, e) || e == last.eui
  {
    var front, last := rs[..|rs| - 1], rs[|rs| - 1];
    forall e ensures HasSlot(rs, e) <==> HasSlot(front, e) || e == last.eui {
      if HasSlot(rs, e) {
        var i :| 0 <= i < |rs| && rs[i].eui == e;
        assert i < |front| ==> front[i].eui == e;
      } else {
        assert rs[|rs| - 1].eui != e;
      }
    }
  }

  /** One entry per reporter, in slot order, each flagged by that sensor's own verdict. */
  lemma {:induction false} BatchPointwise(standings: map<Eui, Standing>, rs: seq<Slot>, med: uint16, i: nat)
    requires DistinctEuis(rs) && i < |rs|
    ensures BatchOf(standings, rs, med)[i] ==
      Emit(rs[i], med, Judge(StandingOf(standings, rs[i].eui), IsOutlier(rs[i].level, med)).excluded)
  {
    if i == |rs| - 1 {
      VotePointwise(standings, rs, med);
    } else {
      BatchPointwise(standings, rs[..|rs| - 1], med, i);
    }
  }

  /** Slots never move: a later table agrees with an earlier one on whose slot is whose. */
  ghost predicate KeepsSlots(before: seq<Slot>, after: seq<Slot>) {
    |before| <= |after| && forall i :: 0 <= i < |before| ==> after[i].eui == before[i].eui
  }

  lemma KeepsSlotsHas(before: seq<Slot>, after: seq<Slot>, e: Eui)
    requires KeepsSlots(before, after) && HasSlot(before, e)
    ensures HasSlot(after, e)
  {
    var i :| 0 <= i < |before| && before[i].eui == e;
    assert after[i].eui == e;
  }

  lemma StoredKeeps(slots: seq<Slot>, capacity: nat, r: Reading)
    requires DistinctEuis(slots) && |slots| <= capacity
    ensures DistinctEuis(Stored(slots, capacity, r)) && |Stored(slots, capacity, r)| <= capacity
    ensures KeepsSlots(slots, Stored(slots, capacity, r))
  {
    assert !HasSlot(slots, r.eui) ==> forall i :: 0 <= i < |slots| ==> slots[i].eui != r.eui;
  }

  /** A vote gives standings only to sensors that hold a slot. */
  lemma VoteKeysHaveSlots(st: State, med: uint16)
    requires Aligned(st)
    ensures forall e :: e in VoteAll(st.standings, Reporting(st.slots), med) ==> HasSlot(st.slots, e)
  {
    var rs := Reporting(st.slots);
    ReportingDistinct(st.slots);
    ReportingMembers(st.slots);
    VotePointwise(st.standings, rs, med);
    forall e | HasSlot(rs, e) ensures HasSlot(st.slots, e) {
      var i :| 0 <= i < |rs| && rs[i].eui == e;
      assert rs[i] in st.slots;
    }
  }

  lemma StepAligned(st: State, capacity: nat, ev: Event)
    requires Aligned(st) && |st.slots| <= capacity
    ensures Aligned(Step(st, capacity, ev)) && |Step(st, capacity, ev).slots| <= capacity
    ensures KeepsSlots(st.slots, Step(st, capacity, ev).slots)
  {
    if ev.Report? {
      StoredKeeps(st.slots, capacity, ev.reading);
    }
    StandingsHaveSlots(st, capacity, ev);
    TableAligned(st, Step(st, capacity, ev));
  }

  lemma TableAligned(st: State, after: State)
    requires DistinctEuis(after.slots) && KeepsSlots(st.slots, after.slots)
    requires forall e :: e in after.standings ==> HasSlot(st.slots, e)
    ensures Aligned(after)
  {
    forall e | e in after.standings ensures HasSlot(after.slots, e) {
      KeepsSlotsHas(st.slots, after.slots, e);
    }
  }

  /** A step adds standings only for sensors that hold a slot. */
  lemma StandingsHaveSlots(st: State, capacity: nat, ev: Event)
    requires Aligned(st)
    ensures forall e :: e in Step(st, capacity, ev).standings ==> HasSlot(st.slots, e)
  {
    if ev.Close? {
      VoteKeysHaveSlots(st, Median(Levels(Reporting(st.slots))));
    }
  }

  lemma {:induction false} RunAligned(evs: seq<Event>, capacity: nat)
    ensures Aligned(Run(evs, capacity)) && |Run(evs, capacity).slots| <= capacity
  {
    if evs != [] {
      RunAligned(evs[..|evs| - 1], capacity);
      StepAligned(Run(evs[..|evs| - 1], capacity), capacity, evs[|evs| - 1]);
    }
  }
}
