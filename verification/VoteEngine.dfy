/**
 * The vote engine as the firmware runs it: fixed arrays updated in place. Every
 * method is proved to take the engine to the state the Voting module gives.
 */
module VoteEngine {
  import opened Basics
  import opened Medians
  import opened Voting

  datatype Reputation = Reputation(eui: Eui, score: int, known: bool, excluded: bool)

  const UNUSED := Reputation(0, 0, false, false)

  /** Distinct members of s at k places need a set of at least k elements. */
  lemma {:induction false} Pigeonhole(f: seq<Eui>, s: set<Eui>)
    requires forall i, j :: 0 <= i < j < |f| ==> f[i] != f[j]
    requires forall i :: 0 <= i < |f| ==> f[i] in s
    ensures |f| <= |s|
  {
    if f != [] {
      var last := f[|f| - 1];
      Pigeonhole(f[..|f| - 1], s - {last});
    }
  }

  ghost function EuiSet(slots: seq<Slot>): (s: set<Eui>)
    ensures forall e :: e in s <==> HasSlot(slots, e)
    ensures |s| <= |slots|
  {
    if slots == [] then {}
    else
      var front := slots[..|slots| - 1];
      var s := EuiSet(front) + {slots[|slots| - 1].eui};
      assert forall e :: e in s ==> HasSlot(slots, e) by {
        forall e | e in s ensures HasSlot(slots, e) {
          if HasSlot(front, e) {
            var i :| 0 <= i < |front| && front[i].eui == e;
            assert slots[i].eui == e;
          } else {
            assert slots[|slots| - 1].eui == e;
          }
        }
      }
      assert forall e :: HasSlot(slots, e) ==> e in s by {
        forall e | HasSlot(slots, e) ensures e in s {
          var i :| 0 <= i < |slots| && slots[i].eui == e;
          assert i < |front| ==> front[i].eui == e;
        }
      }
      s
  }

  /** Storing a reading fills exactly its sensor's slot, or appends a new one. */
  lemma StoredAt(slots: seq<Slot>, capacity: nat, r: Reading, slot: nat)
    requires DistinctEuis(slots)
    requires if HasSlot(slots, r.eui) then slot < |slots| && slots[slot].eui == r.eui
             else slot == |slots| < capacity
    ensures Stored(slots, capacity, r) ==
      if slot < |slots| then slots[slot := Filled(r)] else slots + [Filled(r)]
  {
  }

  lemma AlignedPut(st: State, eui: Eui, standing: Standing)
    requires Aligned(st) && (eui in st.standings || HasSlot(st.slots, eui))
    ensures Aligned(st.(standings := st.standings[eui := standing]))
  {
  }

  /** Known table entries and standings correspond one to one. */
  ghost predicate TableMatches(table: seq<Reputation>, standings: map<Eui, Standing>, entryOf: map<Eui, nat>) {
    && entryOf.Keys == standings.Keys
    && (forall e :: e in entryOf ==>
          && entryOf[e] < |table|
          && table[entryOf[e]] == Reputation(e, standings[e].score, true, standings[e].excluded))
    && (forall j :: 0 <= j < |table| && table[j].known ==>
          table[j].eui in entryOf && entryOf[table[j].eui] == j)
  }

  lemma TablePut(table: seq<Reputation>, standings: map<Eui, Standing>, entryOf: map<Eui, nat>,
                 j: nat, rep: Reputation)
    requires TableMatches(table, standings, entryOf) && j < |table| && rep.known
    requires if table[j].known then table[j].eui == rep.eui else rep.eui !in standings
    ensures TableMatches(table[j := rep],
      standings[rep.eui := Standing(rep.score, rep.excluded)], entryOf[rep.eui := j])
  {
  }

  /** The entries in use belong to as many different sensors. */
  lemma FreeEntry(table: seq<Reputation>, standings: map<Eui, Standing>, entryOf: map<Eui, nat>, used: nat)
    requires TableMatches(table, standings, entryOf)
    requires used <= |table| && forall k :: 0 <= k < used ==> table[k].known
    ensures used <= |standings|
  {
    var known := seq(used, i requires 0 <= i < used => table[i].eui);
    Pigeonhole(known, standings.Keys);
  }

  /** A sensor with a slot but no reputation always leaves room in a table of that size. */
  lemma RoomForSlot(st: State, capacity: nat, eui: Eui)
    requires Aligned(st) && |st.slots| <= capacity && HasSlot(st.slots, eui) && eui !in st.standings
    ensures |st.standings| < capacity
  {
    var s := EuiSet(st.slots);
    assert st.standings.Keys <= s - {eui};
    CardinalityMonotone(st.standings.Keys, s - {eui});
  }

  lemma {:induction false} CardinalityMonotone(a: set<Eui>, b: set<Eui>)
    requires a <= b
    ensures |a| <= |b|
  {
    assert b == a + (b - a);
  }

  lemma PutTwice(standings: map<Eui, Standing>, eui: Eui, first: Standing, last: Standing)
    ensures standings[eui := first][eui := last] == standings[eui := last]
  {
  }

  /** Voting on one more reporter. */
  lemma VoteStep(standings: map<Eui, Standing>, rs: seq<Slot>, i: nat, med: uint16)
    requires i < |rs|
    ensures var before := VoteAll(standings, rs[..i], med);
      var standing := Judge(StandingOf(before, rs[i].eui), IsOutlier(rs[i].level, med));
      && VoteAll(standings, rs[..i + 1], med) == before[rs[i].eui := standing]
      && BatchOf(standings, rs[..i + 1], med)
         == BatchOf(standings, rs[..i], med) + [Emit(rs[i], med, standing.excluded)]
  {
    assert rs[..i + 1][..i] == rs[..i];
  }

  class VoteEngine {
    const capacity: nat
    const euis: array<Eui>
    const readings: array<uint16>
    const validity: array<Validity>
    const detail: array<uint8>
    const timestamps: array<uint32>
    const reported: array<bool>
    const reputation: array<Reputation>
    var slotCount: nat
    var alertActive: bool
    var cleanWindows: nat

    ghost var model: State
    ghost var entryOf: map<Eui, nat>

    ghost const Repr: set<object> :=
      {this, euis, readings, validity, detail, timestamps, reported, reputation}

    ghost predicate SlotsMatch()
      reads Repr
    {
      && euis.Length == readings.Length == validity.Length == detail.Length == capacity
      && timestamps.Length == reported.Length == capacity
      && slotCount == |model.slots| <= capacity
      && forall i :: 0 <= i < slotCount ==>
           model.slots[i] == Slot(euis[i], readings[i], validity[i], detail[i], timestamps[i], reported[i])
    }

    ghost predicate TableValid()
      reads this, reputation
    {
      reputation.Length == capacity && TableMatches(reputation[..], model.standings, entryOf)
    }

    ghost predicate Valid()
      reads Repr
    {
      && SlotsMatch()
      && TableValid()
      && Aligned(model)
      && alertActive == model.alertActive && cleanWindows == model.cleanWindows
    }

    constructor (maxSensors: nat)
      ensures Valid() && fresh(Repr) && capacity == maxSensors && model == Initial
    {
      capacity := maxSensors;
      euis := new Eui[maxSensors](_ => 0);
      readings := new uint16[maxSensors](_ => 0);
      validity := new Validity[maxSensors](_ => Good);
      detail := new uint8[maxSensors](_ => 0);
      timestamps := new uint32[maxSensors](_ => 0);
      reported := new bool[maxSensors](_ => false);
      reputation := new Reputation[maxSensors](_ => UNUSED);
      slotCount, alertActive, cleanWindows := 0, false, 0;
      model := Initial;
      entryOf := map[];
    }

    /** The slot of a sensor, a fresh one if there is room, or -1. */
    method SlotFor(eui: Eui) returns (slot: int)
      requires Valid()
      modifies `slotCount, euis
      ensures slot == -1 <==> !HasSlot(model.slots, eui) && old(slotCount) == capacity
      ensures slot != -1 ==> 0 <= slot < slotCount <= capacity && euis[slot] == eui
      ensures HasSlot(model.slots, eui) ==> slotCount == old(slotCount)
      ensures slot != -1 && !HasSlot(model.slots, eui) ==> slot == old(slotCount) && slotCount == slot + 1
      ensures slot == -1 ==> slotCount == old(slotCount)
      ensures forall i :: 0 <= i < old(slotCount) ==> euis[i] == old(euis[i])
    {
      for i := 0 to slotCount
        invariant forall k :: 0 <= k < i ==> euis[k] != eui
      {
        if euis[i] == eui {
          assert model.slots[i].eui == eui;
          return i;
        }
      }
      assert !HasSlot(model.slots, eui);
      if slotCount >= capacity {
        return -1;
      }
      slot := slotCount;
      euis[slot] := eui;
      slotCount := slotCount + 1;
    }

    /** Record the latest reading of a sensor; refused only for a new sensor with every slot taken. */
    method Accumulate(entry: Reading) returns (ok: bool)
      requires Valid()
      modifies Repr
      ensures Valid()
      ensures ok == (HasSlot(old(model.slots), entry.eui) || |old(model.slots)| < capacity)
      ensures model == Step(old(model), capacity, Report(entry))
    {
      StepAligned(model, capacity, Report(entry));
      var slot := SlotFor(entry.eui);
      if slot < 0 {
        return false;
      }
      StoredAt(model.slots, capacity, entry, slot);
      WriteSlot(slot, entry);
      return true;
    }

    /** Fill one slot's cells, in an engine whose slot has just been found or claimed. */
    method WriteSlot(slot: nat, entry: Reading)
      requires slot < slotCount <= capacity && |model.slots| <= slotCount <= |model.slots| + 1
      requires slot == |model.slots| || slotCount == |model.slots|
      requires euis.Length == readings.Length == validity.Length == detail.Length == capacity
      requires timestamps.Length == reported.Length == capacity
      requires euis[slot] == entry.eui
      requires forall i :: 0 <= i < |model.slots| ==>
        model.slots[i] == Slot(euis[i], readings[i], validity[i], detail[i], timestamps[i], reported[i])
      modifies `model, readings, validity, detail, timestamps, reported
      ensures SlotsMatch()
      ensures model == old(model).(slots :=
        if slot < |old(model.slots)| then old(model.slots)[slot := Filled(entry)]
        else old(model.slots) + [Filled(entry)])
    {
      readings[slot] := entry.level;
      validity[slot] := entry.validity;
      detail[slot] := entry.detail;
      timestamps[slot] := Wrap32(entry.timestamp);
      reported[slot] := true;
      model := model.(slots :=
        if slot < |model.slots| then model.slots[slot := Filled(entry)]
        else model.slots + [Filled(entry)]);
    }

    method OpenWindow()
      requires Valid()
      modifies `model, reported
      ensures Valid()
      ensures model == Step(old(model), capacity, Open)
    {
      for i := 0 to capacity
        modifies reported
        invariant forall k :: 0 <= k < i ==> !reported[k]
        invariant forall k :: i <= k < capacity ==> reported[k] == old(reported[k])
      {
        reported[i] := false;
      }
      StepAligned(model, capacity, Open);
      model := Step(model, capacity, Open);
    }

    /** The table entry of a sensor, created if there is none; there is always room for one. */
    method RepFor(eui: Eui) returns (j: nat)
      requires TableValid() && (eui in model.standings || |model.standings| < capacity)
      modifies `model, `entryOf, reputation
      ensures TableValid()
      ensures j < capacity && reputation[j].known && reputation[j].eui == eui
      ensures model == old(model).(standings := old(model.standings)[eui := StandingOf(old(model.standings), eui)])
    {
      for i := 0 to capacity
        invariant forall k :: 0 <= k < i ==> !(reputation[k].known && reputation[k].eui == eui)
      {
        if reputation[i].known && reputation[i].eui == eui {
          assert reputation[..][i] == reputation[i];
          assert model.standings == model.standings[eui := model.standings[eui]];
          return i;
        }
      }
      assert eui !in model.standings by {
        assert forall k :: 0 <= k < capacity ==> reputation[..][k] == reputation[k];
      }
      j := 0;
      while j < capacity && reputation[j].known
        invariant j <= capacity && forall k :: 0 <= k < j ==> reputation[k].known
      {
        j := j + 1;
      }
      FreeEntry(reputation[..], model.standings, entryOf, j);
      PutReputation(j, Reputation(eui, REPUTATION_INITIAL, true, false));
    }

    /** Write one table entry, of the sensor already there or of a new one in a free entry. */
    method PutReputation(j: nat, rep: Reputation)
      requires TableValid() && j < capacity && rep.known
      requires if reputation[j].known then reputation[j].eui == rep.eui else rep.eui !in model.standings
      modifies `model, `entryOf, reputation
      ensures TableValid() && reputation[j] == rep
      ensures model == old(model).(standings := old(model.standings)[rep.eui := Standing(rep.score, rep.excluded)])
    {
      TablePut(reputation[..], model.standings, entryOf, j, rep);
      reputation[j] := rep;
      entryOf := entryOf[rep.eui := j];
      model := model.(standings := model.standings[rep.eui := Standing(rep.score, rep.excluded)]);
      assert reputation[..] == old(reputation[..])[j := rep];
    }

    /** Lower or raise one reputation and decide exclusion. */
    method JudgeEntry(j: nat, outlier: bool)
      requires TableValid() && j < capacity && reputation[j].known
      requires reputation[j].eui in model.standings
      modifies `model, `entryOf, reputation
      ensures TableValid()
      ensures var eui := old(reputation[j].eui);
        var standing := Judge(old(model.standings)[eui], outlier);
        && model == old(model).(standings := old(model.standings)[eui := standing])
        && reputation[j].excluded == standing.excluded
    {
      var rep := reputation[j];
      assert reputation[..][j] == rep;
      if outlier {
        rep := rep.(score := ClampReputation(rep.score - REPUTATION_PENALTY));
        if rep.score < REPUTATION_MIN {
          rep := rep.(excluded := true);
        }
      } else {
        rep := rep.(score := ClampReputation(rep.score + REPUTATION_RECOVERY));
        if rep.excluded && rep.score >= REPUTATION_READMIT {
          rep := rep.(excluded := false);
        }
      }
      PutReputation(j, rep);
    }

    /** Find or create a sensor's reputation and apply this window's verdict to it. */
    method JudgeSensor(eui: Eui, outlier: bool) returns (excluded: bool)
      requires TableValid() && (eui in model.standings || |model.standings| < capacity)
      modifies `model, `entryOf, reputation
      ensures TableValid()
      ensures var standing := Judge(StandingOf(old(model.standings), eui), outlier);
        && model == old(model).(standings := old(model.standings)[eui := standing])
        && excluded == standing.excluded
    {
      ghost var before := model.standings;
      var j := RepFor(eui);
      JudgeEntry(j, outlier);
      excluded := reputation[j].excluded;
      PutTwice(before, eui, StandingOf(before, eui), Judge(StandingOf(before, eui), outlier));
    }

    /** Judge one reporter and produce its entry of the batch. */
    method BuildEntry(slot: nat, med: uint16) returns (entry: Reading)
      requires Valid() && slot < slotCount
      modifies `model, `entryOf, reputation
      ensures Valid()
      ensures var s := old(model.slots)[slot];
        var standing := Judge(StandingOf(old(model.standings), s.eui), IsOutlier(s.level, med));
        && model == old(model).(standings := old(model.standings)[s.eui := standing])
        && entry == Emit(s, med, standing.excluded)
    {
      ghost var s := model.slots[slot];
      assert HasSlot(model.slots, s.eui);
      if s.eui !in model.standings {
        RoomForSlot(model, capacity, s.eui);
      }
      var eui, level := euis[slot], readings[slot];
      var dev := if level > med then level - med else med - level;
      var outlier := dev > TOLERANCE_MM;
      AlignedPut(model, eui, Judge(StandingOf(model.standings, eui), outlier));
      entry := Reading(eui, level, validity[slot], detail[slot], timestamps[slot], 0);
      var excluded := JudgeSensor(eui, outlier);
      if excluded {
        entry := entry.(validity := Invalid, detail := MarkOutlier(entry.detail));
      } else if outlier {
        entry := entry.(validity := Questionable, detail := MarkOutlier(entry.detail));
      }
    }

    /** The slots that reported this window and their levels, in slot order. */
    method Collect() returns (reporters: seq<nat>, levels: seq<uint16>)
      requires Valid()
      ensures var rs := Reporting(model.slots);
        && levels == Levels(rs) && |reporters| == |rs|
        && forall k :: 0 <= k < |rs| ==> reporters[k] < slotCount && model.slots[reporters[k]] == rs[k]
    {
      reporters, levels := [], [];
      for slot := 0 to slotCount
        invariant levels == Levels(Reporting(model.slots[..slot]))
        invariant |reporters| == |levels|
        invariant forall k :: 0 <= k < |reporters| ==>
          reporters[k] < slot && model.slots[reporters[k]] == Reporting(model.slots[..slot])[k]
      {
        assert model.slots[..slot + 1][..slot] == model.slots[..slot];
        if reported[slot] {
          reporters := reporters + [slot];
          levels := levels + [readings[slot]];
        }
      }
      assert model.slots[..slotCount] == model.slots;
    }

    /** Vote on every collected reporter in order. */
    method VoteOn(reporters: seq<nat>, med: uint16, ghost rs: seq<Slot>) returns (batch: seq<Reading>)
      requires Valid() && |reporters| == |rs|
      requires forall k :: 0 <= k < |rs| ==>
        reporters[k] < slotCount && model.slots[reporters[k]] == rs[k].(reported := false)
      modifies `model, `entryOf, reputation
      ensures Valid()
      ensures model == old(model).(standings := VoteAll(old(model.standings), rs, med))
      ensures batch == BatchOf(old(model.standings), rs, med)
    {
      batch := [];
      for i := 0 to |reporters|
        invariant Valid()
        invariant model == old(model).(standings := VoteAll(old(model.standings), rs[..i], med))
        invariant batch == BatchOf(old(model.standings), rs[..i], med)
      {
        VoteStep(old(model.standings), rs, i, med);
        var entry := BuildEntry(reporters[i], med);
        batch := batch + [entry];
      }
      assert rs[..|rs|] == rs;
    }

    /** Close the window: the batch voted on, or nothing with fewer than three reporters. */
    method CloseWindow() returns (out: Option<seq<Reading>>)
      requires Valid()
      modifies Repr
      ensures Valid()
      ensures (model, out) == Voting.CloseWindow(old(model))
    {
      ghost var rs := Reporting(model.slots);
      var reporters, levels := Collect();
      OpenWindow();
      if |reporters| < MIN_REPORTERS {
        return None;
      }
      var med := MedianN(levels);
      var batch := VoteOn(reporters, med, rs);
      return Some(batch);
    }

    /** Alert hysteresis over an emitted batch. */
    method CheckAlert(batch: seq<Reading>) returns (active: bool)
      requires Valid()
      modifies `alertActive, `cleanWindows, `model
      ensures Valid() && active == alertActive
      ensures model == Voting.CheckAlert(old(model), Triggers(batch))
    {
      var trigger := false;
      for i := 0 to |batch|
        invariant trigger == exists k :: 0 <= k < i && Raises(batch[k])
      {
        if batch[i].validity == Good && batch[i].level >= ALERT_THRESHOLD_MM {
          trigger := true;
          break;
        }
      }
      if trigger {
        cleanWindows, alertActive := 0, true;
      } else if alertActive {
        cleanWindows := cleanWindows + 1;
        if cleanWindows >= ALERT_CLEAR_WINDOWS {
          alertActive, cleanWindows := false, 0;
        }
      }
      model := Voting.CheckAlert(model, Triggers(batch));
      active := alertActive;
    }

    /** The window timer of the vote service: close, then re-evaluate the alert if a batch came out. */
    method OnWindowClose() returns (out: Option<seq<Reading>>)
      requires Valid()
      modifies Repr
      ensures Valid()
      ensures model == Step(old(model), capacity, Close)
      ensures out == Voting.CloseWindow(old(model)).1
    {
      out := CloseWindow();
      if out.Some? {
        var _ := CheckAlert(out.value);
      }
    }
  }
}
