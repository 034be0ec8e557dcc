/**
 * The way of an uplink from the fog tier's coordinators to the gateway's duplicate filter: what
 * is dropped has been recorded, and what is sent again is recorded once.
 */
module UplinkPath {
  import opened Basics
  import opened Egress
  import EC = EgressCluster
  import G = Gateway

  /** What the gateway sees of a record handed to the modem: its sequence. */
  function Seen(r: Record): G.Uplink {
    G.Uplink(r.seqId, "")
  }

  function AllSeen(rs: seq<Record>): (us: seq<G.Uplink>)
    ensures |us| == |rs| && forall i :: 0 <= i < |rs| ==> us[i] == Seen(rs[i])
  {
    seq(|rs|, i requires 0 <= i < |rs| => Seen(rs[i]))
  }

  /** The arrivals that the gateway records, in order. */
  function Kept(arrivals: seq<Record>, cap: nat): (kept: seq<Record>)
    ensures forall r :: r in kept ==> r in arrivals
  {
    if arrivals == [] then []
    else
      var before, last := Kept(arrivals[..|arrivals| - 1], cap), arrivals[|arrivals| - 1];
      if G.Unseen(AllSeen(before), cap, Seen(last)) then before + [last] else before
  }

  /** This is what the gateway's filter does with what it sees. */
  lemma {:induction false} KeptIsHandled(arrivals: seq<Record>, cap: nat)
    ensures AllSeen(Kept(arrivals, cap)) == G.HandleAll(AllSeen(arrivals), cap)
  {
    if arrivals != [] {
      var front, last := arrivals[..|arrivals| - 1], arrivals[|arrivals| - 1];
      KeptIsHandled(front, cap);
      assert AllSeen(arrivals)[..|arrivals| - 1] == AllSeen(front);
      assert AllSeen(Kept(front, cap) + [last]) == AllSeen(Kept(front, cap)) + [Seen(last)];
    }
  }

  // ---- One sequence, one uplink ------------------------------------------

  /** What arrives was handed to the modem in an orderly run, in any order, with losses and repetitions. */
  ghost predicate FromRun(arrivals: seq<Record>, size: nat, evs: seq<EC.Event>, ring: nat) {
    && ring > 0 && EC.EnabledRun(EC.NewCluster(size), evs, ring)
    && EC.OrderlyRun(EC.NewCluster(size), evs, ring, true, true)
    && forall r :: r in arrivals ==> r in EC.RunCluster(EC.NewCluster(size), evs, ring).sends
  }

  /** Uplinks handed to the modem under one sequence are one uplink, sent again. */
  lemma OneUplinkPerSequence(size: nat, evs: seq<EC.Event>, ring: nat, r: Record, s: Record)
    requires ring > 0 && EC.EnabledRun(EC.NewCluster(size), evs, ring)
    requires EC.OrderlyRun(EC.NewCluster(size), evs, ring, true, true)
    requires var c := EC.RunCluster(EC.NewCluster(size), evs, ring); r in c.sends && s in c.sends
    requires r.seqId == s.seqId
    ensures r == s
  {
    EC.RunSound(EC.NewCluster(size), evs, ring);
    var c := EC.RunCluster(EC.NewCluster(size), evs, ring);
    var i :| 0 <= i < |c.sends| && c.sends[i] == r;
    var j :| 0 <= j < |c.sends| && c.sends[j] == s;
    assert r in c.log && s in c.log && r.phase.Started? && s.phase.Started?;
    var k :| 0 <= k < |c.log| && c.log[k] == r;
    var l :| 0 <= l < |c.log| && c.log[l] == s;
  }

  // ---- Nothing is dropped that is not known ------------------------------

  /** One of the last cap recorded uplinks has this sequence. */
  ghost predicate Known(kept: seq<Record>, cap: nat, seqId: uint32) {
    exists p :: 0 <= p < |kept| && |kept| - p <= cap && kept[p].seqId == seqId
  }

  /** An uplink of the gateway's window is one of the last cap. */
  lemma WindowAt(kept: seq<Record>, cap: nat, i: nat)
    requires i < |G.LastN(AllSeen(kept), cap)|
    ensures var p := |kept| - |G.LastN(AllSeen(kept), cap)| + i;
      p < |kept| && |kept| - p <= cap && G.LastN(AllSeen(kept), cap)[i].seqId == kept[p].seqId
  {
  }

  lemma KnownInWindow(kept: seq<Record>, cap: nat, seqId: uint32)
    requires Known(kept, cap, seqId)
    ensures G.HasSeq(G.LastN(AllSeen(kept), cap), seqId)
  {
    var p :| 0 <= p < |kept| && |kept| - p <= cap && kept[p].seqId == seqId;
    var window := G.LastN(AllSeen(kept), cap);
    var i := p - (|kept| - |window|);
    WindowAt(kept, cap, i);
    assert window[i].seqId == seqId;
  }

  lemma UnseenIsUnknown(kept: seq<Record>, cap: nat, r: Record)
    ensures G.Unseen(AllSeen(kept), cap, Seen(r)) <==> !Known(kept, cap, r.seqId) && !(r.seqId == 0 && |kept| < cap)
  {
    var window := G.LastN(AllSeen(kept), cap);
    if Known(kept, cap, r.seqId) {
      KnownInWindow(kept, cap, r.seqId);
    } else if G.HasSeq(window, r.seqId) {
      var i :| 0 <= i < |window| && window[i].seqId == r.seqId;
      WindowAt(kept, cap, i);
    }
  }

  lemma KeptOneMore(arrivals: seq<Record>, r: Record, cap: nat)
    ensures var kept := Kept(arrivals, cap);
      Kept(arrivals + [r], cap)
        == if !Known(kept, cap, r.seqId) && !(r.seqId == 0 && |kept| < cap) then kept + [r] else kept
  {
    assert (arrivals + [r])[..|arrivals|] == arrivals;
    UnseenIsUnknown(Kept(arrivals, cap), cap, r);
  }

  /**
   * What the gateway drops it has recorded: the very uplink is among its last cap uplinks, unless it is sequence
   * 0 while the history is not full yet.
   */
  lemma DroppedIsKnown(arrivals: seq<Record>, r: Record, size: nat, evs: seq<EC.Event>, ring: nat, cap: nat)
    requires FromRun(arrivals + [r], size, evs, ring)
    requires Kept(arrivals + [r], cap) == Kept(arrivals, cap)
    ensures var kept := Kept(arrivals, cap);
      || (r.seqId == 0 && |kept| < cap)
      || exists p :: 0 <= p < |kept| && |kept| - p <= cap && kept[p] == r
  {
    var kept := Kept(arrivals, cap);
    KeptOneMore(arrivals, r, cap);
    if Known(kept, cap, r.seqId) {
      var p :| 0 <= p < |kept| && |kept| - p <= cap && kept[p].seqId == r.seqId;
      assert kept[p] in arrivals + [r] && r in arrivals + [r];
      OneUplinkPerSequence(size, evs, ring, kept[p], r);
    }
  }

  // ---- What is sent again is recorded once -------------------------------

  ghost predicate Distinct(kept: seq<Record>) {
    forall i, j :: 0 <= i < j < |kept| ==> kept[i].seqId != kept[j].seqId
  }

  /**
   * Every arrival of an uplink recorded before comes while fewer than cap others have been recorded since:
   * the copy is among the last cap.
   */
  ghost predicate Prompt(arrivals: seq<Record>, cap: nat) {
    arrivals != [] ==>
      var front, last := arrivals[..|arrivals| - 1], arrivals[|arrivals| - 1];
      Prompt(front, cap) && OnlyNear(Kept(front, cap), cap, last.seqId)
  }

  ghost predicate OnlyNear(kept: seq<Record>, cap: nat, seqId: uint32) {
    forall p :: 0 <= p < |kept| && kept[p].seqId == seqId ==> |kept| - p <= cap
  }

  /** Sequence 0 is recorded only once the history is full. */
  lemma ZeroIsLate(arrivals: seq<Record>, cap: nat, p: nat)
    requires p < |Kept(arrivals, cap)| && Kept(arrivals, cap)[p].seqId == 0
    ensures |Kept(arrivals, cap)| > cap
  {
    KeptIsHandled(arrivals, cap);
    G.SequenceZeroWaits(AllSeen(arrivals), cap);
    assert AllSeen(Kept(arrivals, cap))[p].seqId == 0;
  }

  /** One more arrival keeps recorded uplinks distinct exactly if a copy it repeats is among the last cap. */
  lemma OneMoreDistinct(arrivals: seq<Record>, r: Record, cap: nat)
    requires Distinct(Kept(arrivals, cap))
    ensures Distinct(Kept(arrivals + [r], cap)) <==> OnlyNear(Kept(arrivals, cap), cap, r.seqId)
  {
    var kept := Kept(arrivals, cap);
    KeptOneMore(arrivals, r, cap);
    if p :| 0 <= p < |kept| && kept[p].seqId == r.seqId {
      if r.seqId == 0 {
        ZeroIsLate(arrivals, cap, p);
      }
      if !Known(kept, cap, r.seqId) {
        assert (kept + [r])[p].seqId == (kept + [r])[|kept|].seqId;
      }
    }
  }

  /**
   * Whatever arrives, in whatever order and however often, the gateway records each sequence at most once if and
   * only if every repetition comes while fewer than cap other uplinks have been recorded since.
   */
  lemma {:induction false} RecordedOnceIffPrompt(arrivals: seq<Record>, cap: nat)
    ensures Distinct(Kept(arrivals, cap)) <==> Prompt(arrivals, cap)
  {
    if arrivals != [] {
      var front, last := arrivals[..|arrivals| - 1], arrivals[|arrivals| - 1];
      assert arrivals == front + [last];
      RecordedOnceIffPrompt(front, cap);
      if Distinct(Kept(front, cap)) {
        OneMoreDistinct(front, last, cap);
      } else {
        KeptOneMore(front, last, cap);
        StillTwice(Kept(front, cap), last);
      }
    }
  }

  lemma StillTwice(kept: seq<Record>, r: Record)
    requires !Distinct(kept)
    ensures !Distinct(kept + [r])
  {
    var i, j :| 0 <= i < j < |kept| && kept[i].seqId == kept[j].seqId;
    assert (kept + [r])[i].seqId == (kept + [r])[j].seqId;
  }

  /**
   * So over every orderly run an uplink that leaders send again and again under its own sequence is recorded once,
   * provided the copies arrive promptly, and what is recorded are the batches of STARTED records.
   */
  lemma ResentIsRecordedOnce(arrivals: seq<Record>, size: nat, evs: seq<EC.Event>, ring: nat, cap: nat)
    requires FromRun(arrivals, size, evs, ring) && Prompt(arrivals, cap)
    ensures var kept := Kept(arrivals, cap);
      && (forall i, j :: 0 <= i < j < |kept| ==> kept[i] != kept[j])
      && (forall r :: r in arrivals && Tracks(kept, r.seqId) ==> r in kept)
      && (forall r :: r in kept ==> r in EC.RunCluster(EC.NewCluster(size), evs, ring).log)
  {
    var kept := Kept(arrivals, cap);
    RecordedOnceIffPrompt(arrivals, cap);
    forall r | r in arrivals && Tracks(kept, r.seqId) ensures r in kept {
      var i :| 0 <= i < |kept| && kept[i].seqId == r.seqId;
      assert kept[i] in kept && kept[i] in arrivals;
      OneUplinkPerSequence(size, evs, ring, kept[i], r);
    }
    EC.SequencesRise(size, evs, ring);
    forall r | r in kept ensures r in EC.RunCluster(EC.NewCluster(size), evs, ring).log {
      assert r in arrivals;
      var c := EC.RunCluster(EC.NewCluster(size), evs, ring);
      var k :| 0 <= k < |c.sends| && c.sends[k] == r;
    }
  }
}
