/**
 * Run-level facts about the vote engine: how reputations move, when the alert is
 * active, and which reading each emitted entry carries.
 */
module VoteRuns {
  import opened Basics
  import opened Medians
  import opened Voting

  // ---- Reputation over a run of verdicts ---------------------------------

  /** The standing of a sensor after the given verdicts (true for an outlier window). */
  function JudgeRun(verdicts: seq<bool>): Standing {
    if verdicts == [] then NEWCOMER
    else Judge(JudgeRun(verdicts[..|verdicts| - 1]), verdicts[|verdicts| - 1])
  }

  /** The length of the run of equal verdicts at the end. */
  function Trailing(verdicts: seq<bool>, v: bool): (n: nat)
    ensures n <= |verdicts|
    ensures forall i :: |verdicts| - n <= i < |verdicts| ==> verdicts[i] == v
    ensures n < |verdicts| ==> verdicts[|verdicts| - n - 1] != v
  {
    if verdicts == [] || verdicts[|verdicts| - 1] != v then 0
    else 1 + Trailing(verdicts[..|verdicts| - 1], v)
  }

  /** The score stays clamped; a score below 20 means excluded and excluded means below 40. */
  ghost predicate SoundStanding(s: Standing) {
    && MIN_REPUTATION <= s.score <= MAX_REPUTATION
    && (s.score < REPUTATION_MIN ==> s.excluded)
    && (s.excluded ==> s.score < REPUTATION_READMIT)
  }

  lemma {:induction false} StandingBounds(verdicts: seq<bool>)
    ensures SoundStanding(JudgeRun(verdicts))
    ensures JudgeRun(verdicts).score >= MIN_REPUTATION + REPUTATION_RECOVERY * Trailing(verdicts, false)
         || JudgeRun(verdicts).score == MAX_REPUTATION
    ensures JudgeRun(verdicts).score <= MAX_REPUTATION - REPUTATION_PENALTY * Trailing(verdicts, true)
         || JudgeRun(verdicts).score == MIN_REPUTATION
    ensures JudgeRun(verdicts).excluded ==>
      JudgeRun(verdicts).score < REPUTATION_MIN + REPUTATION_RECOVERY * Trailing(verdicts, false)
  {
    if verdicts != [] {
      StandingBounds(verdicts[..|verdicts| - 1]);
    }
  }

  /** Five outlier windows in a row exclude a sensor whatever came before. */
  lemma FiveOutliersExclude(verdicts: seq<bool>)
    requires |verdicts| >= 5 && forall i :: |verdicts| - 5 <= i < |verdicts| ==> verdicts[i]
    ensures JudgeRun(verdicts).excluded
  {
    StandingBounds(verdicts);
    assert Trailing(verdicts, true) >= 5;
  }

  /** Six clean windows in a row admit a sensor whatever came before. */
  lemma SixCleanAdmit(verdicts: seq<bool>)
    requires |verdicts| >= 6 && forall i :: |verdicts| - 6 <= i < |verdicts| ==> !verdicts[i]
    ensures !JudgeRun(verdicts).excluded
  {
    StandingBounds(verdicts);
    assert Trailing(verdicts, false) >= 6;
  }

  /** A sensor comes back from exclusion only at the end of at least five clean windows in a row. */
  lemma ReadmissionNeedsFiveClean(verdicts: seq<bool>)
    requires verdicts != []
    requires JudgeRun(verdicts[..|verdicts| - 1]).excluded && !JudgeRun(verdicts).excluded
    ensures |verdicts| >= 5 && forall i :: |verdicts| - 5 <= i < |verdicts| ==> !verdicts[i]
  {
    StandingBounds(verdicts[..|verdicts| - 1]);
    assert Trailing(verdicts, false) >= 5;
  }

  /** Whether the window closed by this event votes on sensor e. */
  ghost predicate VotesOn(st: State, ev: Event, e: Eui) {
    ev.Close? && |Reporting(st.slots)| >= MIN_REPORTERS && HasSlot(Reporting(st.slots), e)
  }

  ghost function Verdict(st: State, e: Eui): bool
    requires HasSlot(Reporting(st.slots), e)
  {
    var rs := Reporting(st.slots);
    var i :| 0 <= i < |rs| && rs[i].eui == e;
    IsOutlier(rs[i].level, Median(Levels(rs)))
  }

  /** The verdicts a run passes on sensor e, in order. */
  ghost function Verdicts(evs: seq<Event>, capacity: nat, e: Eui): seq<bool> {
    if evs == [] then []
    else
      var front, ev := evs[..|evs| - 1], evs[|evs| - 1];
      var st := Run(front, capacity);
      Verdicts(front, capacity, e) + if VotesOn(st, ev, e) then [Verdict(st, e)] else []
  }

  /** A sensor's standing in the engine is decided by the verdicts on that sensor alone. */
  lemma {:induction false} StandingFollowsVerdicts(evs: seq<Event>, capacity: nat, e: Eui)
    ensures StandingOf(Run(evs, capacity).standings, e) == JudgeRun(Verdicts(evs, capacity, e))
  {
    if evs != [] {
      var front, ev := evs[..|evs| - 1], evs[|evs| - 1];
      StandingFollowsVerdicts(front, capacity, e);
      var st := Run(front, capacity);
      var before := Verdicts(front, capacity, e);
      RunAligned(front, capacity);
      StandingAfterStep(st, capacity, ev, e);
      if VotesOn(st, ev, e) {
        assert (before + [Verdict(st, e)])[..|before|] == before;
      } else {
        assert Verdicts(evs, capacity, e) == before;
      }
    }
  }

  lemma StandingAfterStep(st: State, capacity: nat, ev: Event, e: Eui)
    requires Aligned(st)
    ensures StandingOf(Step(st, capacity, ev).standings, e)
         == if VotesOn(st, ev, e) then Judge(StandingOf(st.standings, e), Verdict(st, e))
            else StandingOf(st.standings, e)
  {
    var rs := Reporting(st.slots);
    if ev.Close? && |rs| >= MIN_REPORTERS {
      ReportingDistinct(st.slots);
      VotePointwise(st.standings, rs, Median(Levels(rs)));
    }
  }

  // ---- Alert -------------------------------------------------------------

  /** For each batch a run emits, in order, whether it triggered. */
  function Fired(evs: seq<Event>, capacity: nat): seq<bool> {
    if evs == [] then []
    else
      var front := evs[..|evs| - 1];
      var batch := CloseWindow(Run(front, capacity)).1;
      if evs[|evs| - 1].Close? && batch.Some? then Fired(front, capacity) + [Triggers(batch.value)]
      else Fired(front, capacity)
  }

  /** The clean-window counter says how long ago the last trigger was. */
  ghost predicate AlertTracks(active: bool, clean: nat, fired: seq<bool>) {
    var n := |fired|;
    if active then
      && clean < ALERT_CLEAR_WINDOWS && clean < n
      && fired[n - 1 - clean]
      && forall i :: n - clean <= i < n ==> !fired[i]
    else
      clean == 0 && forall i :: 0 <= i < n && n - ALERT_CLEAR_WINDOWS <= i ==> !fired[i]
  }

  lemma AlertStep(st: State, fired: seq<bool>, trigger: bool)
    requires AlertTracks(st.alertActive, st.cleanWindows, fired)
    ensures var after := CheckAlert(st, trigger);
      AlertTracks(after.alertActive, after.cleanWindows, fired + [trigger])
  {
  }

  lemma {:induction false} AlertTracked(evs: seq<Event>, capacity: nat)
    ensures AlertTracks(Run(evs, capacity).alertActive, Run(evs, capacity).cleanWindows, Fired(evs, capacity))
  {
    if evs != [] {
      var front := evs[..|evs| - 1];
      AlertTracked(front, capacity);
      var (closed, batch) := CloseWindow(Run(front, capacity));
      if evs[|evs| - 1].Close? && batch.Some? {
        AlertStep(closed, Fired(front, capacity), Triggers(batch.value));
      }
    }
  }

  /** One of the last three batches triggered. */
  ghost predicate RecentlyFired(fired: seq<bool>) {
    exists i :: 0 <= i < |fired| && |fired| - ALERT_CLEAR_WINDOWS <= i && fired[i]
  }

  lemma AlertMeaning(active: bool, clean: nat, fired: seq<bool>)
    requires AlertTracks(active, clean, fired)
    ensures active <==> RecentlyFired(fired)
  {
    if active {
      assert fired[|fired| - 1 - clean];
    }
  }

  /** After any run the alert is active exactly when one of the last three batches triggered. */
  lemma AlertIsRecentTrigger(evs: seq<Event>, capacity: nat)
    ensures Run(evs, capacity).alertActive <==> RecentlyFired(Fired(evs, capacity))
  {
    AlertTracked(evs, capacity);
    var st := Run(evs, capacity);
    AlertMeaning(st.alertActive, st.cleanWindows, Fired(evs, capacity));
  }

  // ---- Which reading an entry carries ------------------------------------

  /** The last reading of sensor e since the window was last opened or closed. */
  function Latest(evs: seq<Event>, e: Eui): Option<Reading> {
    if evs == [] then None
    else match evs[|evs| - 1]
      case Report(r) => if r.eui == e then Some(r) else Latest(evs[..|evs| - 1], e)
      case Open => None
      case Close => None
  }

  ghost predicate CarriesLatest(s: Slot, latest: Option<Reading>) {
    s.reported == latest.Some? && (latest.Some? ==> s == Filled(latest.value))
  }

  /** Every slot holds its sensor's latest reading of the window, and reports only if there is one. */
  lemma {:induction false} SlotsCarryLatest(evs: seq<Event>, capacity: nat, i: nat)
    requires i < |Run(evs, capacity).slots|
    ensures CarriesLatest(Run(evs, capacity).slots[i], Latest(evs, Run(evs, capacity).slots[i].eui))
  {
    var front, ev := evs[..|evs| - 1], evs[|evs| - 1];
    var st := Run(front, capacity);
    RunAligned(front, capacity);
    if i < |st.slots| {
      SlotsCarryLatest(front, capacity, i);
    }
    if ev.Report? {
      StoredCarries(st.slots, capacity, ev.reading, i);
    }
  }

  /** Storing a reading fills its sensor's slot and leaves the others. */
  lemma StoredCarries(slots: seq<Slot>, capacity: nat, r: Reading, i: nat)
    requires i < |Stored(slots, capacity, r)|
    ensures var after := Stored(slots, capacity, r);
      && (after[i].eui == r.eui ==> after[i] == Filled(r))
      && (after[i].eui != r.eui ==> i < |slots| && after[i] == slots[i])
  {
    assert i < |slots| && slots[i].eui == r.eui ==> HasSlot(slots, r.eui);
  }

  /** A batch has exactly one entry per slot that reported, carrying its latest reading. */
  lemma BatchCarriesLatest(evs: seq<Event>, capacity: nat, i: nat)
    requires CloseWindow(Run(evs, capacity)).1.Some?
    requires i < |CloseWindow(Run(evs, capacity)).1.value|
    ensures var batch := CloseWindow(Run(evs, capacity)).1.value;
      var latest := Latest(evs, batch[i].eui);
      && |batch| == |Reporting(Run(evs, capacity).slots)|
      && latest.Some?
      && batch[i].level == latest.value.level && batch[i].timestamp == Wrap32(latest.value.timestamp)
      && (forall j :: 0 <= j < |batch| && j != i ==> batch[j].eui != batch[i].eui)
  {
    var st := Run(evs, capacity);
    var rs := Reporting(st.slots);
    RunAligned(evs, capacity);
    ReportingDistinct(st.slots);
    ReportingMembers(st.slots);
    assert rs[i] in st.slots && rs[i].reported;
    var k :| 0 <= k < |st.slots| && st.slots[k] == rs[i];
    SlotsCarryLatest(evs, capacity, k);
    forall j | 0 <= j < |rs| ensures CloseWindow(st).1.value[j].eui == rs[j].eui
      && CloseWindow(st).1.value[j].level == rs[j].level
      && CloseWindow(st).1.value[j].timestamp == rs[j].timestamp
    {
      BatchPointwise(st.standings, rs, Median(Levels(rs)), j);
    }
  }
}
