/**
 * The fog tier's replay table: last accepted sequence per sensor, in a fixed array whose
 * empty slots carry EUI 0.
 */
module Replay {
  import opened Basics
  import opened EdgeSequence

  type Eui = nat

  /** Accept a first reading while there is room, and later ones only if newer. */
  function IsFresh(table: map<Eui, uint32>, cap: nat, eui: Eui, seqId: uint32): (map<Eui, uint32>, bool) {
    if eui in table then
      if table[eui] < seqId then (table[eui := seqId], true) else (table, false)
    else if |table| < cap then (table[eui := seqId], true)
    else (table, false)
  }

  datatype ReplayEntry = ReplayEntry(eui: Eui, lastSequence: uint32, active: bool)

  /** Active entries come first, one per known sensor with its last sequence; the rest carry EUI 0. */
  ghost predicate TableMatches(entries: seq<ReplayEntry>, table: map<Eui, uint32>, slotOf: map<Eui, nat>) {
    var used := |table|;
    && used <= |entries| && slotOf.Keys == table.Keys
    && (forall j :: used <= j < |entries| ==> !entries[j].active && entries[j].eui == 0)
    && (forall e :: e in slotOf ==> slotOf[e] < used && entries[slotOf[e]] == ReplayEntry(e, table[e], true))
    && (forall j :: 0 <= j < used ==> entries[j].active && entries[j].eui in slotOf && slotOf[entries[j].eui] == j)
  }

  lemma TableUpdate(entries: seq<ReplayEntry>, table: map<Eui, uint32>, slotOf: map<Eui, nat>, eui: Eui, seqId: uint32)
    requires TableMatches(entries, table, slotOf) && eui in table
    ensures TableMatches(entries[slotOf[eui] := ReplayEntry(eui, seqId, true)], table[eui := seqId], slotOf)
  {
    assert |table[eui := seqId]| == |table|;
  }

  lemma TableInsert(entries: seq<ReplayEntry>, table: map<Eui, uint32>, slotOf: map<Eui, nat>, eui: Eui, seqId: uint32)
    requires TableMatches(entries, table, slotOf) && eui !in table && |table| < |entries|
    ensures TableMatches(entries[|table| := ReplayEntry(eui, seqId, true)], table[eui := seqId],
      slotOf[eui := |table|])
  {
    OneMoreKey(table, eui, seqId);
    var used, entry := |table|, ReplayEntry(eui, seqId, true);
    var entries', slotOf' := entries[used := entry], slotOf[eui := used];
    forall j | 0 <= j < used + 1
      ensures entries'[j].active && entries'[j].eui in slotOf' && slotOf'[entries'[j].eui] == j
    {
      assert j < used ==> entries'[j] == entries[j] && entries[j].eui != eui;
    }
  }

  lemma OneMoreKey(table: map<Eui, uint32>, eui: Eui, seqId: uint32)
    requires eui !in table
    ensures |table[eui := seqId]| == |table| + 1
  {
    assert table[eui := seqId].Keys == table.Keys + {eui};
  }

  class SensorReplayDetection {
    const cap: nat
    const entries: array<ReplayEntry>

    ghost var model: map<Eui, uint32>
    ghost var slotOf: map<Eui, nat>

    ghost predicate Valid()
      reads this, entries
    {
      entries.Length == cap && TableMatches(entries[..], model, slotOf)
    }

    constructor (maxSensors: nat)
      ensures Valid() && fresh(entries) && cap == maxSensors && model == map[]
    {
      cap := maxSensors;
      entries := new ReplayEntry[maxSensors](_ => ReplayEntry(0, 0, false));
      model, slotOf := map[], map[];
    }

    /** The first slot carrying this EUI, active or not, or cap. */
    method FirstMatch(eui: Eui) returns (slot: nat)
      requires Valid()
      ensures eui in model ==> slot == slotOf[eui]
      ensures eui !in model ==> slot == cap || slot == |model| < cap
      ensures slot < cap ==> entries[slot].eui == eui
    {
      slot := 0;
      assert forall j :: 0 <= j < cap ==> entries[..][j] == entries[j];
      while slot < cap && entries[slot].eui != eui
        invariant slot <= cap && forall k :: 0 <= k < slot ==> entries[k].eui != eui
      {
        slot := slot + 1;
      }
      if eui in model {
        assert entries[slotOf[eui]].eui == eui;
      } else if |model| < cap {
        assert entries[|model|].eui == 0;
      }
    }

    /** The first inactive slot, or cap. */
    method FirstInactive() returns (slot: nat)
      requires Valid()
      ensures slot == |model|
    {
      slot := 0;
      assert forall j :: 0 <= j < cap ==> entries[..][j] == entries[j];
      while slot < cap && entries[slot].active
        invariant slot <= cap && forall k :: 0 <= k < slot ==> entries[k].active
      {
        slot := slot + 1;
      }
      assert |model| < cap ==> !entries[|model|].active;
    }

    /** The slot of this EUI, else the first inactive one claimed for it, else cap. */
    method FindOrCreate(eui: Eui) returns (slot: nat)
      requires Valid()
      modifies entries
      ensures slot == (if eui in model then slotOf[eui] else |model|)
      ensures slot < cap ==> entries[..] == old(entries[..])[slot := old(entries[slot]).(eui := eui)]
      ensures slot == cap ==> entries[..] == old(entries[..])
    {
      slot := FirstMatch(eui);
      if slot < cap {
        assert entries[..][slot] == entries[slot];
        return;
      }
      slot := FirstInactive();
      if slot < cap {
        entries[slot] := entries[slot].(eui := eui);
      }
    }

    /** Whether a reading is new; a fresh one becomes the sensor's last. */
    method CheckFresh(eui: Eui, seqId: uint32) returns (ok: bool)
      requires Valid()
      modifies this, entries
      ensures Valid()
      ensures (model, ok) == IsFresh(old(model), cap, eui, seqId)
    {
      ghost var before := entries[..];
      if eui in model {
        TableUpdate(before, model, slotOf, eui, seqId);
      } else if |model| < cap {
        TableInsert(before, model, slotOf, eui, seqId);
      }
      var slot := FindOrCreate(eui);
      if slot == cap {
        return false;
      }
      assert entries[..][slot] == entries[slot] == before[slot].(eui := eui);
      if !entries[slot].active {
        entries[slot] := entries[slot].(active := true, lastSequence := seqId);
        model, slotOf := model[eui := seqId], slotOf[eui := slot];
        assert entries[..] == before[slot := ReplayEntry(eui, seqId, true)];
        return true;
      }
      if entries[slot].lastSequence < seqId {
        entries[slot] := entries[slot].(lastSequence := seqId);
        model := model[eui := seqId];
        assert entries[..] == before[slot := ReplayEntry(eui, seqId, true)];
        return true;
      }
      assert entries[..] == before;
      return false;
    }
  }

  // ---- Runs --------------------------------------------------------------

  datatype Reading = Reading(eui: Eui, seqId: uint32)

  function RunTable(readings: seq<Reading>, cap: nat): map<Eui, uint32> {
    if readings == [] then map[]
    else
      var last := readings[|readings| - 1];
      IsFresh(RunTable(readings[..|readings| - 1], cap), cap, last.eui, last.seqId).0
  }

  /** The sequences accepted from one sensor, in order. */
  function Accepted(readings: seq<Reading>, cap: nat, eui: Eui): seq<uint32> {
    if readings == [] then []
    else
      var front, last := readings[..|readings| - 1], readings[|readings| - 1];
      var ok := IsFresh(RunTable(front, cap), cap, last.eui, last.seqId).1;
      Accepted(front, cap, eui) + if ok && last.eui == eui then [last.seqId] else []
  }

  /**
   * Over any run the table never exceeds its size, holds each sensor's last accepted sequence, and
   * has accepted strictly rising sequences from every sensor.
   */
  lemma {:induction false} AcceptedRise(readings: seq<Reading>, cap: nat, eui: Eui)
    ensures |RunTable(readings, cap)| <= cap
    ensures var acc := Accepted(readings, cap, eui);
      && (eui in RunTable(readings, cap) <==> acc != [])
      && (acc != [] ==> RunTable(readings, cap)[eui] == acc[|acc| - 1])
      && (forall i, j :: 0 <= i < j < |acc| ==> acc[i] < acc[j])
  {
    if readings != [] {
      AcceptedRise(readings[..|readings| - 1], cap, eui);
    }
  }

  // ---- After a reboot of the sensor --------------------------------------

  /** The table and the number of refusals after n readings of one sensor, numbered from start. */
  function Resume(table: map<Eui, uint32>, cap: nat, eui: Eui, start: nat, n: nat): (map<Eui, uint32>, nat)
    requires start + n < 0x1_0000_0000
  {
    if n == 0 then (table, 0)
    else
      var (before, refused) := Resume(table, cap, eui, start, n - 1);
      var (after, ok) := IsFresh(before, cap, eui, start + n - 1);
      (after, if ok then refused else refused + 1)
  }

  /** Exactly the readings that are not newer than the last accepted one are refused. */
  lemma {:induction false} RefusalCount(table: map<Eui, uint32>, cap: nat, eui: Eui, start: nat, n: nat)
    requires start + n < 0x1_0000_0000 && eui in table
    ensures var (after, refused) := Resume(table, cap, eui, start, n);
      var stale := table[eui] + 1 - start;
      && eui in after
      && refused == (if stale <= 0 then 0 else if n <= stale then n else stale)
      && after[eui] == if n == 0 || n <= stale then table[eui] else start + n - 1
  {
    if n > 0 {
      RefusalCount(table, cap, eui, start, n - 1);
    }
  }

  /**
   * A reboot costs less than one step, whichever of the readings sent before it arrived: the fog refuses
   * those numbered up to its last accepted one, at most as many as flash trails the counter.
   */
  lemma RebootCostsLessThanAStep(e: Edge, table: map<Eui, uint32>, cap: nat, eui: Eui, n: nat)
    requires InStep(e) && e.persisted + n < 0x1_0000_0000
    requires eui in table && table[eui] < e.live
    ensures var (after, refused) := Resume(table, cap, eui, Boot(e).live, n);
      && refused < SEQ_STEP && (e.live <= e.persisted ==> refused == 0)
      && (n > e.live - e.persisted && n > 0 ==>
            && refused == (if table[eui] >= e.persisted then table[eui] + 1 - e.persisted else 0)
            && eui in after && after[eui] == e.persisted + n - 1)
  {
    RefusalCount(table, cap, eui, Boot(e).live, n);
  }
}
