/**
 * Tracking of uplinks between the fog tier and the gateway: a ring of the most recent
 * STARTED/SENT records and the unbounded history it stands for.
 */
module Egress {
  import opened Basics

  datatype Phase = Started | Sent

  datatype Record = Record(batchIndex: nat, seqId: uint32, phase: Phase)

  datatype Tracker = Tracker(live: seq<Record>, nextSeq: uint32)

  const NewTracker := Tracker([], 0)

  predicate Tracks(records: seq<Record>, seqId: uint32) {
    exists i :: 0 <= i < |records| && records[i].seqId == seqId
  }

  /** Records with the phase of the given one's sequence brought up to date. */
  function Touch(records: seq<Record>, rec: Record): (r: seq<Record>)
    ensures |r| == |records|
  {
    seq(|records|, i requires 0 <= i < |records| =>
      if records[i].seqId == rec.seqId then records[i].(phase := rec.phase) else records[i])
  }

  /** The tracked records, oldest first, after one more is applied; the oldest makes room. */
  function ApplyLive(live: seq<Record>, rec: Record, cap: nat): seq<Record>
    requires cap > 0
  {
    if Tracks(live, rec.seqId) then Touch(live, rec)
    else if |live| < cap then live + [rec]
    else live[1..] + [rec]
  }

  function OnApply(t: Tracker, rec: Record, cap: nat): Tracker
    requires cap > 0
  {
    Tracker(ApplyLive(t.live, rec, cap), if rec.seqId >= t.nextSeq then Wrap32(rec.seqId + 1) else t.nextSeq)
  }

  /** The started record with the highest sequence. */
  function BestOf(records: seq<Record>): Option<Record> {
    if records == [] then None
    else
      var best, last := BestOf(records[..|records| - 1]), records[|records| - 1];
      if last.phase.Started? && (best.None? || last.seqId > best.value.seqId) then Some(last) else best
  }

  /** Asking for the outstanding record also adopts its successor as the next sequence. */
  function Outstanding(t: Tracker): (Tracker, Option<Record>) {
    var best := BestOf(t.live);
    (if best.Some? then t.(nextSeq := Wrap32(best.value.seqId + 1)) else t, best)
  }

  ghost predicate Unique(records: seq<Record>) {
    forall i, j :: 0 <= i < j < |records| ==> records[i].seqId != records[j].seqId
  }

  /** What "outstanding" means, whatever order the records are scanned in. */
  ghost predicate IsBest(records: seq<Record>, best: Option<Record>) {
    match best
    case None => forall i :: 0 <= i < |records| ==> records[i].phase.Sent?
    case Some(r) =>
      && r in records && r.phase.Started?
      && forall i :: 0 <= i < |records| && records[i].phase.Started? ==> records[i].seqId <= r.seqId
  }

  lemma {:induction false} BestOfIsBest(records: seq<Record>)
    ensures IsBest(records, BestOf(records))
  {
    if records != [] {
      BestOfIsBest(records[..|records| - 1]);
    }
  }

  lemma BestIsUnique(records: seq<Record>, a: Option<Record>, b: Option<Record>)
    requires Unique(records) && IsBest(records, a) && IsBest(records, b)
    ensures a == b
  {
  }

  lemma ApplyUnique(live: seq<Record>, rec: Record, cap: nat)
    requires cap > 0 && Unique(live) && |live| <= cap
    ensures Unique(ApplyLive(live, rec, cap)) && |ApplyLive(live, rec, cap)| <= cap
  {
  }

  // ---- The unbounded history ---------------------------------------------

  /** Every sequence ever seen, in order of first appearance, with its latest phase. */
  function ApplyFull(full: seq<Record>, rec: Record): seq<Record> {
    if Tracks(full, rec.seqId) then Touch(full, rec) else full + [rec]
  }

  function RunFull(recs: seq<Record>): seq<Record> {
    if recs == [] then [] else ApplyFull(RunFull(recs[..|recs| - 1]), recs[|recs| - 1])
  }

  function RunLive(recs: seq<Record>, cap: nat): seq<Record>
    requires cap > 0
  {
    if recs == [] then [] else ApplyLive(RunLive(recs[..|recs| - 1], cap), recs[|recs| - 1], cap)
  }

  function Recent(full: seq<Record>, cap: nat): seq<Record> {
    if |full| <= cap then full else full[|full| - cap..]
  }

  /** No record of the run is for a sequence that had been seen and evicted. */
  ghost predicate NeverRevived(recs: seq<Record>, cap: nat) {
    recs != [] ==>
      var front, seqId := recs[..|recs| - 1], recs[|recs| - 1].seqId;
      NeverRevived(front, cap) && (Tracks(RunFull(front), seqId) ==> Tracks(Recent(RunFull(front), cap), seqId))
  }

  /** At every point of the run the ring holds the last CAP sequences seen. */
  ghost predicate AlwaysRecent(recs: seq<Record>, cap: nat)
    requires cap > 0
  {
    && RunLive(recs, cap) == Recent(RunFull(recs), cap)
    && (recs != [] ==> AlwaysRecent(recs[..|recs| - 1], cap))
  }

  lemma TouchRecent(full: seq<Record>, rec: Record, cap: nat)
    ensures Recent(Touch(full, rec), cap) == Touch(Recent(full, cap), rec)
  {
  }

  lemma {:induction false} FullUnique(recs: seq<Record>)
    ensures Unique(RunFull(recs))
  {
    if recs != [] {
      FullUnique(recs[..|recs| - 1]);
    }
  }

  lemma TracksRecent(full: seq<Record>, cap: nat, seqId: uint32)
    ensures Tracks(Recent(full, cap), seqId) ==> Tracks(full, seqId)
  {
    if Tracks(Recent(full, cap), seqId) {
      var i :| 0 <= i < |Recent(full, cap)| && Recent(full, cap)[i].seqId == seqId;
      assert full[|full| - |Recent(full, cap)| + i].seqId == seqId;
    }
  }

  /** One record keeps ring and history in step exactly when it is not for an evicted sequence. */
  lemma RecentStep(full: seq<Record>, rec: Record, cap: nat)
    requires cap > 0 && Unique(full)
    ensures ApplyLive(Recent(full, cap), rec, cap) == Recent(ApplyFull(full, rec), cap)
       <==> (Tracks(full, rec.seqId) ==> Tracks(Recent(full, cap), rec.seqId))
  {
    TouchRecent(full, rec, cap);
    TracksRecent(full, cap, rec.seqId);
    if Tracks(full, rec.seqId) && !Tracks(Recent(full, cap), rec.seqId) {
      var ring, kept := ApplyLive(Recent(full, cap), rec, cap), Recent(ApplyFull(full, rec), cap);
      assert ring[cap - 1] == rec;
      assert kept[cap - 1].seqId == Recent(full, cap)[cap - 1].seqId;
    }
  }

  /** The ring stays the recent part of the history if and only if no evicted sequence comes back. */
  lemma {:induction false} RingIsRecentHistory(recs: seq<Record>, cap: nat)
    requires cap > 0
    ensures AlwaysRecent(recs, cap) <==> NeverRevived(recs, cap)
  {
    if recs != [] {
      var front := recs[..|recs| - 1];
      RingIsRecentHistory(front, cap);
      FullUnique(front);
      RecentStep(RunFull(front), recs[|recs| - 1], cap);
    }
  }

  function FirstIndex(recs: seq<Record>, seqId: uint32): Option<nat> {
    if recs == [] then None
    else if recs[0].seqId == seqId then Some(recs[0].batchIndex)
    else FirstIndex(recs[1..], seqId)
  }

  function LatestPhase(recs: seq<Record>, seqId: uint32): Option<Phase> {
    if recs == [] then None
    else if recs[|recs| - 1].seqId == seqId then Some(recs[|recs| - 1].phase)
    else LatestPhase(recs[..|recs| - 1], seqId)
  }

  lemma {:induction false} FirstIndexAppend(recs: seq<Record>, rec: Record, seqId: uint32)
    ensures FirstIndex(recs + [rec], seqId)
         == if FirstIndex(recs, seqId).Some? then FirstIndex(recs, seqId) else FirstIndex([rec], seqId)
  {
    if recs != [] && recs[0].seqId != seqId {
      FirstIndexAppend(recs[1..], rec, seqId);
      assert (recs + [rec])[1..] == recs[1..] + [rec];
    } else if recs == [] {
      assert recs + [rec] == [rec];
    }
  }

  /** The history keeps, for each sequence seen, its first batch index and its latest phase. */
  lemma {:induction false} HistoryContents(recs: seq<Record>)
    ensures forall i :: 0 <= i < |RunFull(recs)| ==>
      var r := RunFull(recs)[i];
      FirstIndex(recs, r.seqId) == Some(r.batchIndex) && LatestPhase(recs, r.seqId) == Some(r.phase)
    ensures forall q :: FirstIndex(recs, q).Some? ==> Tracks(RunFull(recs), q)
  {
    if recs != [] {
      var front, rec := recs[..|recs| - 1], recs[|recs| - 1];
      assert recs == front + [rec];
      HistoryContents(front);
      var before, after := RunFull(front), RunFull(recs);
      forall i | 0 <= i < |after|
        ensures FirstIndex(recs, after[i].seqId) == Some(after[i].batchIndex)
        ensures LatestPhase(recs, after[i].seqId) == Some(after[i].phase)
      {
        FirstIndexAppend(front, rec, after[i].seqId);
      }
      forall q | FirstIndex(recs, q).Some? ensures Tracks(after, q) {
        FirstIndexAppend(front, rec, q);
        KeepsTracking(before, rec, q);
      }
    }
  }

  lemma KeepsTracking(full: seq<Record>, rec: Record, q: uint32)
    ensures Tracks(full, q) || q == rec.seqId ==> Tracks(ApplyFull(full, rec), q)
  {
    var after := ApplyFull(full, rec);
    if Tracks(full, q) {
      var i :| 0 <= i < |full| && full[i].seqId == q;
      assert after[i].seqId == q;
    } else if q == rec.seqId {
      assert after[|full|].seqId == q;
    }
  }

  lemma BestOfRecent(full: seq<Record>, best: Option<Record>, cap: nat)
    requires IsBest(full, best) && (best.Some? ==> best.value in Recent(full, cap))
    ensures IsBest(Recent(full, cap), best)
  {
    BestOfPart(full, Recent(full, cap), best);
  }

  lemma BestOfPart(full: seq<Record>, part: seq<Record>, best: Option<Record>)
    requires IsBest(full, best) && (best.Some? ==> best.value in part)
    requires forall r :: r in part ==> r in full
    ensures IsBest(part, best)
  {
    forall i | 0 <= i < |part|
      ensures if best.None? then part[i].phase.Sent? else part[i].phase.Started? ==> part[i].seqId <= best.value.seqId
    {
      assert part[i] in part && part[i] in full;
    }
  }

  /** The ring gives the unbounded answer whenever that answer is still in it. */
  lemma OutstandingAgrees(recs: seq<Record>, cap: nat)
    requires cap > 0 && NeverRevived(recs, cap)
    requires BestOf(RunFull(recs)).Some? ==> BestOf(RunFull(recs)).value in RunLive(recs, cap)
    ensures BestOf(RunLive(recs, cap)) == BestOf(RunFull(recs))
  {
    var full := RunFull(recs);
    RingIsRecentHistory(recs, cap);
    assert RunLive(recs, cap) == Recent(full, cap);
    FullUnique(recs);
    BestOfIsBest(full);
    BestOfIsBest(Recent(full, cap));
    BestOfRecent(full, BestOf(full), cap);
    assert Unique(Recent(full, cap));
    BestIsUnique(Recent(full, cap), BestOf(Recent(full, cap)), BestOf(full));
  }
}
