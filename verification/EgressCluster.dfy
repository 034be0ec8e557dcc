/**
 * The egress coordinator's runs over a cluster of nodes that apply one replicated log: which
 * sequences uplinks get, what a new leader re-drives, and exactly when that goes wrong.
 */
module EgressCluster {
  import opened Basics
  import opened Egress

  /** One past the highest sequence among the records. */
  function NextOf(recs: seq<Record>): nat {
    if recs == [] then 0
    else
      var next, seqId := NextOf(recs[..|recs| - 1]), recs[|recs| - 1].seqId;
      if seqId >= next then seqId + 1 else next
  }

  datatype Node = Node(applied: nat, tracker: Tracker)

  /** One replicated log of egress records, the nodes that apply it, and the uplinks handed to the modem. */
  datatype Cluster = Cluster(log: seq<Record>, nodes: seq<Node>, sends: seq<Record>)

  datatype Event =
    | Apply(node: nat)                              // a node applies its next committed record
    | Begin(node: nat, batchIndex: nat, fate: Fate) // a leader starts an uplink and its record is accepted
    | Elected(node: nat, fate: Fate)                // a node becomes leader and re-drives
    | Confirm(send: nat)                            // the modem reports an uplink sent

  /** What becomes of a batch to be sent: handed to the modem, gone and given up, or too short and dropped. */
  datatype Fate = Handed | GivenUp | Dropped

  /** Hand a batch to the modem, or record it as sent when it is gone from the log. */
  function Dispatch(c: Cluster, batchIndex: nat, seqId: uint32, fate: Fate): Cluster {
    match fate
    case Handed => c.(sends := c.sends + [Record(batchIndex, seqId, Started)])
    case GivenUp => c.(log := c.log + [Record(batchIndex, seqId, Sent)])
    case Dropped => c
  }

  predicate Enabled(c: Cluster, ev: Event) {
    match ev
    case Apply(n) => n < |c.nodes| && c.nodes[n].applied < |c.log|
    case Begin(n, _, _) => n < |c.nodes|
    case Elected(n, _) => n < |c.nodes|
    case Confirm(k) => k < |c.sends|
  }

  function Next(c: Cluster, ev: Event, cap: nat): Cluster
    requires Enabled(c, ev) && cap > 0
  {
    match ev
    case Apply(n) =>
      var node := c.nodes[n];
      c.(nodes := c.nodes[n := Node(node.applied + 1, OnApply(node.tracker, c.log[node.applied], cap))])
    case Begin(n, batchIndex, fate) =>
      var seqId := c.nodes[n].tracker.nextSeq;
      Dispatch(c.(log := c.log + [Record(batchIndex, seqId, Started)]), batchIndex, seqId, fate)
    case Elected(n, fate) =>
      var (tracker, best) := Outstanding(c.nodes[n].tracker);
      var after := c.(nodes := c.nodes[n := c.nodes[n].(tracker := tracker)]);
      if best.None? then after else Dispatch(after, best.value.batchIndex, best.value.seqId, fate)
    case Confirm(k) =>
      c.(log := c.log + [Record(c.sends[k].batchIndex, c.sends[k].seqId, Sent)])
  }

  /** Every record is for a sequence some earlier STARTED opened with the same batch, in rising order. */
  ghost predicate SoundLog(log: seq<Record>) {
    && (forall j, k :: 0 <= j < k < |log| && log[j].phase.Started? && log[k].phase.Started?
          ==> log[j].seqId < log[k].seqId)
    && (forall k :: 0 <= k < |log| && log[k].phase.Sent? ==> log[k].(phase := Started) in log[..k])
    && (forall k :: 0 <= k < |log| ==> log[k].seqId < 0xFFFF_FFFF)
  }

  ghost predicate SoundNode(node: Node, log: seq<Record>, cap: nat)
    requires cap > 0
  {
    && node.applied <= |log|
    && node.tracker.live == RunLive(log[..node.applied], cap)
    && node.tracker.nextSeq == NextOf(log[..node.applied])
  }

  ghost predicate SoundCluster(c: Cluster, cap: nat)
    requires cap > 0
  {
    && SoundLog(c.log)
    && (forall n :: 0 <= n < |c.nodes| ==> SoundNode(c.nodes[n], c.log, cap))
    && (forall k :: 0 <= k < |c.sends| ==> c.sends[k].phase.Started? && c.sends[k] in c.log)
  }

  /**
   * What the coordinator relies on: the STARTED records accepted so far have been applied by the node
   * that begins the next uplink, and a new leader's outstanding sequence is the highest it applied.
   */
  ghost predicate Orderly(c: Cluster, ev: Event)
    requires Enabled(c, ev)
  {
    match ev
    case Apply(_) => true
    case Begin(n, _, _) =>
      && c.nodes[n].tracker.nextSeq < 0xFFFF_FFFF
      && forall k :: c.nodes[n].applied <= k < |c.log| ==> c.log[k].phase.Sent?
    case Elected(n, _) =>
      var best := BestOf(c.nodes[n].tracker.live);
      best.Some? ==> best.value.seqId + 1 == c.nodes[n].tracker.nextSeq
    case Confirm(_) => true
  }

  lemma {:induction false} NextOfBounds(recs: seq<Record>)
    ensures forall k :: 0 <= k < |recs| ==> recs[k].seqId < NextOf(recs)
  {
    if recs != [] {
      NextOfBounds(recs[..|recs| - 1]);
    }
  }

  lemma SoundPrefix(log: seq<Record>, n: nat)
    requires SoundLog(log) && n <= |log|
    ensures SoundLog(log[..n])
  {
    assert forall k :: 0 <= k < n ==> log[..n][..k] == log[..k];
  }

  /** A STARTED record opens a sequence nobody has used before. */
  lemma StartedIsNew(log: seq<Record>, m: nat, k: nat)
    requires SoundLog(log) && k < m < |log| && log[m].phase.Started?
    ensures log[k].seqId < log[m].seqId
  {
    if log[k].phase.Sent? {
      assert log[k].(phase := Started) in log[..k];
      var j :| 0 <= j < k && log[j] == log[k].(phase := Started);
    }
  }

  lemma {:induction false} UnseenIsUntracked(recs: seq<Record>, cap: nat, q: uint32)
    requires cap > 0 && forall k :: 0 <= k < |recs| ==> recs[k].seqId != q
    ensures forall i :: 0 <= i < |RunLive(recs, cap)| ==> RunLive(recs, cap)[i].seqId != q
  {
    if recs != [] {
      UnseenIsUntracked(recs[..|recs| - 1], cap, q);
    }
  }

  /** A tracked record that is still STARTED is the log's own record, and nothing later closed it. */
  lemma {:induction false} LiveStartedIsOriginal(recs: seq<Record>, cap: nat, r: Record)
    requires cap > 0 && SoundLog(recs) && r in RunLive(recs, cap) && r.phase.Started?
    ensures r in recs && LatestPhase(recs, r.seqId) == Some(Started)
  {
    var m := |recs| - 1;
    var front, x := recs[..m], recs[m];
    SoundPrefix(recs, m);
    if x.phase.Started? {
      NewIsUntracked(recs, cap);
    }
    AppliedLast(RunLive(front, cap), x, cap, r);
    if r != x {
      LiveStartedIsOriginal(front, cap, r);
      assert recs == front + [x];
    }
  }

  /** The sequence of a STARTED record at the end of the log is not tracked before it. */
  lemma NewIsUntracked(recs: seq<Record>, cap: nat)
    requires cap > 0 && SoundLog(recs) && recs != [] && recs[|recs| - 1].phase.Started?
    ensures !Tracks(RunLive(recs[..|recs| - 1], cap), recs[|recs| - 1].seqId)
  {
    var m := |recs| - 1;
    forall k | 0 <= k < m ensures recs[..m][k].seqId != recs[m].seqId {
      StartedIsNew(recs, m, k);
    }
    UnseenIsUntracked(recs[..m], cap, recs[m].seqId);
  }

  /** A tracked record that is STARTED after one more record is that record or was tracked before. */
  lemma AppliedLast(live: seq<Record>, x: Record, cap: nat, r: Record)
    requires cap > 0 && r in ApplyLive(live, x, cap) && r.phase.Started?
    requires x.phase.Started? ==> !Tracks(live, x.seqId)
    ensures r == x || (r in live && r.seqId != x.seqId)
  {
    if !Tracks(live, x.seqId) && r != x {
      assert r in live;
      var k :| 0 <= k < |live| && live[k] == r;
    }
  }

  /** Every record is below the next sequence of a node that has applied every STARTED one. */
  lemma AppliedBelowNext(c: Cluster, n: nat, cap: nat, k: nat)
    requires cap > 0 && SoundCluster(c, cap) && n < |c.nodes| && k < |c.log|
    requires forall k :: c.nodes[n].applied <= k < |c.log| ==> c.log[k].phase.Sent?
    ensures c.log[k].seqId < c.nodes[n].tracker.nextSeq
  {
    var applied := c.nodes[n].applied;
    assert SoundNode(c.nodes[n], c.log, cap);
    NextOfBounds(c.log[..applied]);
    if k < applied {
      assert c.log[..applied][k] == c.log[k];
    } else {
      assert c.log[k].(phase := Started) in c.log[..k];
      var j :| 0 <= j < k && c.log[j] == c.log[k].(phase := Started);
      assert j < applied && c.log[..applied][j] == c.log[j];
    }
  }

  /** The sequence an orderly Begin takes is above every sequence in the log. */
  lemma BeginIsFresh(c: Cluster, n: nat, batchIndex: nat, fate: Fate, cap: nat, k: nat)
    requires cap > 0 && SoundCluster(c, cap)
    requires Enabled(c, Begin(n, batchIndex, fate)) && Orderly(c, Begin(n, batchIndex, fate))
    requires k < |c.log|
    ensures c.log[k].seqId < c.nodes[n].tracker.nextSeq
  {
    AppliedBelowNext(c, n, cap, k);
  }

  /** A re-drive reuses the sequence and batch index of the STARTED record nobody has closed. */
  lemma RedriveIsOriginal(c: Cluster, n: nat, cap: nat)
    requires cap > 0 && SoundCluster(c, cap) && n < |c.nodes|
    requires BestOf(c.nodes[n].tracker.live).Some?
    ensures var r := BestOf(c.nodes[n].tracker.live).value;
      && r.phase.Started? && r in c.log[..c.nodes[n].applied] && r in c.log
      && LatestPhase(c.log[..c.nodes[n].applied], r.seqId) == Some(Started)
  {
    var node := c.nodes[n];
    assert SoundNode(node, c.log, cap);
    BestOfIsBest(node.tracker.live);
    SoundPrefix(c.log, node.applied);
    LiveStartedIsOriginal(c.log[..node.applied], cap, BestOf(node.tracker.live).value);
  }

  lemma SoundAppend(log: seq<Record>, rec: Record)
    requires SoundLog(log) && rec.seqId < 0xFFFF_FFFF
    requires rec.phase.Sent? ==> rec.(phase := Started) in log
    requires rec.phase.Started? ==> forall k :: 0 <= k < |log| ==> log[k].seqId < rec.seqId
    ensures SoundLog(log + [rec])
  {
    var after := log + [rec];
    assert forall k :: 0 <= k <= |log| ==> after[..k] == log[..k];
  }

  lemma SoundGrow(c: Cluster, rec: Record, cap: nat)
    requires cap > 0 && SoundCluster(c, cap) && SoundLog(c.log + [rec])
    ensures SoundCluster(c.(log := c.log + [rec]), cap)
  {
    forall n | 0 <= n < |c.nodes| ensures SoundNode(c.nodes[n], c.log + [rec], cap) {
      assert SoundNode(c.nodes[n], c.log, cap);
      assert (c.log + [rec])[..c.nodes[n].applied] == c.log[..c.nodes[n].applied];
    }
  }

  lemma DispatchSound(c: Cluster, r: Record, fate: Fate, cap: nat)
    requires cap > 0 && SoundCluster(c, cap) && r.phase.Started? && r in c.log
    ensures SoundCluster(Dispatch(c, r.batchIndex, r.seqId, fate), cap)
  {
    if fate.GivenUp? {
      SoundAppend(c.log, r.(phase := Sent));
      SoundGrow(c, r.(phase := Sent), cap);
    }
  }

  lemma ApplySound(c: Cluster, n: nat, cap: nat)
    requires cap > 0 && SoundCluster(c, cap) && Enabled(c, Apply(n))
    ensures SoundCluster(Next(c, Apply(n), cap), cap)
  {
    var node := c.nodes[n];
    assert SoundNode(node, c.log, cap);
    assert c.log[..node.applied + 1][..node.applied] == c.log[..node.applied];
  }

  lemma BeginSound(c: Cluster, n: nat, batchIndex: nat, fate: Fate, cap: nat)
    requires cap > 0 && SoundCluster(c, cap)
    requires Enabled(c, Begin(n, batchIndex, fate)) && Orderly(c, Begin(n, batchIndex, fate))
    ensures SoundCluster(Next(c, Begin(n, batchIndex, fate), cap), cap)
  {
    var rec := Record(batchIndex, c.nodes[n].tracker.nextSeq, Started);
    forall k | 0 <= k < |c.log| ensures c.log[k].seqId < rec.seqId {
      BeginIsFresh(c, n, batchIndex, fate, cap, k);
    }
    SoundAppend(c.log, rec);
    SoundGrow(c, rec, cap);
    DispatchSound(c.(log := c.log + [rec]), rec, fate, cap);
  }

  lemma ElectedSound(c: Cluster, n: nat, fate: Fate, cap: nat)
    requires cap > 0 && SoundCluster(c, cap)
    requires Enabled(c, Elected(n, fate)) && Orderly(c, Elected(n, fate))
    ensures SoundCluster(Next(c, Elected(n, fate), cap), cap)
  {
    var (tracker, best) := Outstanding(c.nodes[n].tracker);
    assert SoundNode(c.nodes[n], c.log, cap);
    assert c.nodes[n := c.nodes[n].(tracker := tracker)] == c.nodes;
    if best.Some? {
      RedriveIsOriginal(c, n, cap);
      DispatchSound(c, best.value, fate, cap);
    }
  }

  lemma ConfirmSound(c: Cluster, k: nat, cap: nat)
    requires cap > 0 && SoundCluster(c, cap) && Enabled(c, Confirm(k))
    ensures SoundCluster(Next(c, Confirm(k), cap), cap)
  {
    SoundAppend(c.log, c.sends[k].(phase := Sent));
    SoundGrow(c, c.sends[k].(phase := Sent), cap);
  }

  /** Orderly events keep the cluster sound. */
  lemma NextSound(c: Cluster, ev: Event, cap: nat)
    requires cap > 0 && SoundCluster(c, cap) && Enabled(c, ev) && Orderly(c, ev)
    ensures SoundCluster(Next(c, ev, cap), cap)
  {
    match ev
    case Apply(n) => ApplySound(c, n, cap);
    case Begin(n, batchIndex, fate) => BeginSound(c, n, batchIndex, fate, cap);
    case Elected(n, fate) => ElectedSound(c, n, fate, cap);
    case Confirm(k) => ConfirmSound(c, k, cap);
  }

  ghost predicate EnabledRun(c: Cluster, evs: seq<Event>, cap: nat)
    requires cap > 0
    decreases |evs|
  {
    evs != [] ==> Enabled(c, evs[0]) && EnabledRun(Next(c, evs[0], cap), evs[1..], cap)
  }

  function RunCluster(c: Cluster, evs: seq<Event>, cap: nat): Cluster
    requires cap > 0 && EnabledRun(c, evs, cap)
    decreases |evs|
  {
    if evs == [] then c else RunCluster(Next(c, evs[0], cap), evs[1..], cap)
  }

  /** A run in which uplinks begin in order, leaders are elected in order, or both. */
  ghost predicate OrderlyRun(c: Cluster, evs: seq<Event>, cap: nat, begins: bool, elections: bool)
    requires cap > 0 && EnabledRun(c, evs, cap)
    decreases |evs|
  {
    evs != [] ==>
      && ((evs[0].Begin? && begins) || (evs[0].Elected? && elections) ==> Orderly(c, evs[0]))
      && OrderlyRun(Next(c, evs[0], cap), evs[1..], cap, begins, elections)
  }

  function NewCluster(size: nat): Cluster {
    Cluster([], seq(size, _ => Node(0, NewTracker)), [])
  }

  lemma {:induction false} RunSound(c: Cluster, evs: seq<Event>, cap: nat)
    requires cap > 0 && SoundCluster(c, cap) && EnabledRun(c, evs, cap) && OrderlyRun(c, evs, cap, true, true)
    ensures SoundCluster(RunCluster(c, evs, cap), cap)
    decreases |evs|
  {
    if evs != [] {
      NextSound(c, evs[0], cap);
      RunSound(Next(c, evs[0], cap), evs[1..], cap);
    }
  }

  /**
   * Over every orderly run of a cluster of any size: uplinks get strictly rising sequences in log order,
   * and everything handed to the modem repeats the sequence and batch of a STARTED record.
   */
  lemma SequencesRise(size: nat, evs: seq<Event>, cap: nat)
    requires cap > 0 && EnabledRun(NewCluster(size), evs, cap)
    requires OrderlyRun(NewCluster(size), evs, cap, true, true)
    ensures var c := RunCluster(NewCluster(size), evs, cap);
      && (forall j, k :: 0 <= j < k < |c.log| && c.log[j].phase.Started? && c.log[k].phase.Started?
            ==> c.log[j].seqId < c.log[k].seqId)
      && (forall k :: 0 <= k < |c.sends| ==> c.sends[k] in c.log)
  {
    RunSound(NewCluster(size), evs, cap);
  }

  // ---- Nodes agree -------------------------------------------------------

  /** Each node's ring is what the records it applied make of it, whatever order things happen in. */
  ghost predicate Follows(c: Cluster, cap: nat)
    requires cap > 0
  {
    forall n :: 0 <= n < |c.nodes| ==>
      c.nodes[n].applied <= |c.log| && c.nodes[n].tracker.live == RunLive(c.log[..c.nodes[n].applied], cap)
  }

  lemma NextFollows(c: Cluster, ev: Event, cap: nat)
    requires cap > 0 && Follows(c, cap) && Enabled(c, ev)
    ensures Follows(Next(c, ev, cap), cap)
  {
    var c' := Next(c, ev, cap);
    forall n | 0 <= n < |c'.nodes|
      ensures c'.nodes[n].applied <= |c'.log|
      ensures c'.nodes[n].tracker.live == RunLive(c'.log[..c'.nodes[n].applied], cap)
    {
      var k := c.nodes[n].applied;
      assert c'.log[..k] == c.log[..k];
      if ev == Apply(n) {
        assert c.log[..k + 1][..k] == c.log[..k];
      }
    }
  }

  lemma {:induction false} RunFollows(c: Cluster, evs: seq<Event>, cap: nat)
    requires cap > 0 && Follows(c, cap) && EnabledRun(c, evs, cap)
    ensures Follows(RunCluster(c, evs, cap), cap)
    decreases |evs|
  {
    if evs != [] {
      NextFollows(c, evs[0], cap);
      RunFollows(Next(c, evs[0], cap), evs[1..], cap);
    }
  }

  /**
   * Over every run, nodes that applied the same records agree on what is outstanding, whoever has been
   * asked before.
   */
  lemma NodesAgree(size: nat, evs: seq<Event>, cap: nat, m: nat, n: nat)
    requires cap > 0 && EnabledRun(NewCluster(size), evs, cap)
    requires var c := RunCluster(NewCluster(size), evs, cap);
      m < |c.nodes| && n < |c.nodes| && c.nodes[m].applied == c.nodes[n].applied
    ensures var c := RunCluster(NewCluster(size), evs, cap);
      Outstanding(c.nodes[m].tracker).1 == Outstanding(c.nodes[n].tracker).1
  {
    RunFollows(NewCluster(size), evs, cap);
  }

  // ---- The conditions are exact ------------------------------------------

  ghost predicate AllBelow(log: seq<Record>, bound: nat) {
    forall k :: 0 <= k < |log| ==> log[k].seqId < bound
  }

  /** A leader's sequence is new exactly when it has applied every uplink begun so far. */
  lemma OrderlyBeginIsExact(c: Cluster, n: nat, batchIndex: nat, fate: Fate, cap: nat)
    requires cap > 0 && SoundCluster(c, cap) && Enabled(c, Begin(n, batchIndex, fate))
    requires c.nodes[n].tracker.nextSeq < 0xFFFF_FFFF
    ensures Orderly(c, Begin(n, batchIndex, fate))
       <==> AllBelow(c.log, c.nodes[n].tracker.nextSeq)
  {
    if Orderly(c, Begin(n, batchIndex, fate)) {
      forall k | 0 <= k < |c.log| ensures c.log[k].seqId < c.nodes[n].tracker.nextSeq {
        BeginIsFresh(c, n, batchIndex, fate, cap, k);
      }
    } else {
      assert SoundNode(c.nodes[n], c.log, cap);
      var k :| c.nodes[n].applied <= k < |c.log| && c.log[k].phase.Started?;
      NextOfBefore(c.log, c.nodes[n].applied, k);
    }
  }

  /** What the records before a STARTED one make the next sequence does not pass it. */
  lemma {:induction false} NextOfBefore(log: seq<Record>, m: nat, k: nat)
    requires SoundLog(log) && m <= k < |log| && log[k].phase.Started?
    ensures NextOf(log[..m]) <= log[k].seqId
  {
    if m > 0 {
      NextOfBefore(log, m - 1, k);
      StartedIsNew(log, k, m - 1);
      assert log[..m][..m - 1] == log[..m - 1];
    }
  }

  /**
   * A new leader that has applied every uplink begun takes over a new sequence exactly when the
   * outstanding one is the highest it has applied.
   */
  lemma OrderlyElectionIsExact(c: Cluster, n: nat, fate: Fate, cap: nat)
    requires cap > 0 && SoundCluster(c, cap) && Enabled(c, Elected(n, fate))
    requires forall k :: c.nodes[n].applied <= k < |c.log| ==> c.log[k].phase.Sent?
    ensures Orderly(c, Elected(n, fate))
       <==> AllBelow(c.log, Outstanding(c.nodes[n].tracker).0.nextSeq)
  {
    var t := c.nodes[n].tracker;
    var best := BestOf(t.live);
    AllBelowNext(c, n, cap);
    if best.Some? {
      RedriveIsOriginal(c, n, cap);
      NextIsAttained(c, n, cap, best.value);
      HighestIsNewest(c.log, t.nextSeq, best.value);
      Adoption(t);
    } else {
      assert Outstanding(t).0 == t;
    }
  }

  /** Asking for the outstanding record adopts its successor and leaves the ring alone. */
  lemma Adoption(t: Tracker)
    requires BestOf(t.live).Some? && BestOf(t.live).value.seqId < 0xFFFF_FFFF
    ensures Outstanding(t).0.nextSeq == BestOf(t.live).value.seqId + 1
    ensures Outstanding(t).0.nextSeq == t.nextSeq <==> BestOf(t.live).value.seqId + 1 == t.nextSeq
    ensures Outstanding(t).0.live == t.live
  {
  }

  lemma AllBelowNext(c: Cluster, n: nat, cap: nat)
    requires cap > 0 && SoundCluster(c, cap) && n < |c.nodes|
    requires forall k :: c.nodes[n].applied <= k < |c.log| ==> c.log[k].phase.Sent?
    ensures AllBelow(c.log, c.nodes[n].tracker.nextSeq)
  {
    forall k | 0 <= k < |c.log| ensures c.log[k].seqId < c.nodes[n].tracker.nextSeq {
      AppliedBelowNext(c, n, cap, k);
    }
  }

  /** Some applied record is the newest, once anything has been applied. */
  lemma NextIsAttained(c: Cluster, n: nat, cap: nat, r: Record)
    requires cap > 0 && SoundCluster(c, cap) && n < |c.nodes| && r in c.log[..c.nodes[n].applied]
    ensures exists k :: 0 <= k < |c.log| && c.log[k].seqId + 1 == c.nodes[n].tracker.nextSeq
  {
    var part := c.log[..c.nodes[n].applied];
    assert SoundNode(c.nodes[n], c.log, cap);
    NextOfBounds(part);
    NextOfIsAttained(part);
    var k :| 0 <= k < |part| && part[k].seqId + 1 == NextOf(part);
    assert c.log[k] == part[k];
  }

  lemma HighestIsNewest(log: seq<Record>, next: nat, r: Record)
    requires SoundLog(log) && r in log
    requires AllBelow(log, next) && exists k :: 0 <= k < |log| && log[k].seqId + 1 == next
    ensures r.seqId < 0xFFFF_FFFF
    ensures r.seqId + 1 == next <==> AllBelow(log, r.seqId + 1)
  {
  }

  lemma {:induction false} NextOfIsAttained(recs: seq<Record>)
    ensures NextOf(recs) > 0 ==> exists k :: 0 <= k < |recs| && recs[k].seqId + 1 == NextOf(recs)
  {
    if recs != [] {
      var front := recs[..|recs| - 1];
      NextOfIsAttained(front);
      if recs[|recs| - 1].seqId < NextOf(front) {
        var k :| 0 <= k < |front| && front[k].seqId + 1 == NextOf(front);
        assert recs[k].seqId + 1 == NextOf(recs);
      } else {
        assert recs[|recs| - 1].seqId + 1 == NextOf(recs);
      }
    }
  }

  // ---- Each condition is needed ------------------------------------------

  /** Two uplinks began under one sequence. */
  ghost predicate SequenceReused(log: seq<Record>) {
    exists j, k :: 0 <= j < k < |log| && log[j].phase.Started? && log[k].phase.Started? && log[j].seqId == log[k].seqId
  }

  /** One more event at the end of a run. */
  lemma {:induction false} Then(c: Cluster, evs: seq<Event>, ev: Event, cap: nat)
    requires cap > 0 && EnabledRun(c, evs, cap) && Enabled(RunCluster(c, evs, cap), ev)
    ensures EnabledRun(c, evs + [ev], cap)
    ensures RunCluster(c, evs + [ev], cap) == Next(RunCluster(c, evs, cap), ev, cap)
    ensures forall b: bool, e: bool ::
      && OrderlyRun(c, evs, cap, b, e)
      && ((ev.Begin? && b) || (ev.Elected? && e) ==> Orderly(RunCluster(c, evs, cap), ev))
      ==> OrderlyRun(c, evs + [ev], cap, b, e)
    decreases |evs|
  {
    if evs == [] {
      assert evs + [ev] == [ev] && [ev][1..] == [];
    } else {
      assert (evs + [ev])[0] == evs[0] && (evs + [ev])[1..] == evs[1..] + [ev];
      Then(Next(c, evs[0], cap), evs[1..], ev, cap);
    }
  }

  /** A node begins a second uplink before it has applied the first: both get sequence 0. */
  lemma HastyBeginRepeats(cap: nat) returns (evs: seq<Event>)
    requires cap > 0
    ensures EnabledRun(NewCluster(1), evs, cap) && OrderlyRun(NewCluster(1), evs, cap, false, true)
    ensures SequenceReused(RunCluster(NewCluster(1), evs, cap).log)
  {
    var c := NewCluster(1);
    var first, second := Begin(0, 7, Handed), Begin(0, 8, Handed);
    Then(c, [], first, cap);
    Then(c, [first], second, cap);
    evs := [first] + [second];
    var log := RunCluster(c, evs, cap).log;
    assert log == [Record(7, 0, Started), Record(8, 0, Started)];
    assert log[0].seqId == log[1].seqId;
  }

  /** One uplink begun and applied by the only node. */
  lemma FirstApplied(cap: nat) returns (evs: seq<Event>)
    requires cap > 1
    ensures EnabledRun(NewCluster(1), evs, cap) && forall b, e :: OrderlyRun(NewCluster(1), evs, cap, b, e)
    ensures var first := Record(7, 0, Started);
      RunCluster(NewCluster(1), evs, cap) == Cluster([first], [Node(1, Tracker([first], 1))], [first])
  {
    var c := NewCluster(1);
    var first := Record(7, 0, Started);
    Then(c, [], Begin(0, 7, Handed), cap);
    evs := [] + [Begin(0, 7, Handed)];
    var d := RunCluster(c, evs, cap);
    assert d.log == [first] && d.sends == [first] && d.nodes == [Node(0, NewTracker)];
    Then(c, evs, Apply(0), cap);
    evs := evs + [Apply(0)];
    assert ApplyLive([], first, cap) == [first];
    assert RunCluster(c, evs, cap).nodes == [Node(1, Tracker([first], 1))];
  }

  /** A second uplink begun and applied. */
  lemma SecondApplied(cap: nat) returns (evs: seq<Event>)
    requires cap > 1
    ensures EnabledRun(NewCluster(1), evs, cap) && forall b, e :: OrderlyRun(NewCluster(1), evs, cap, b, e)
    ensures var first, second := Record(7, 0, Started), Record(8, 1, Started);
      RunCluster(NewCluster(1), evs, cap)
        == Cluster([first, second], [Node(2, Tracker([first, second], 2))], [first, second])
  {
    var c := NewCluster(1);
    var first, second := Record(7, 0, Started), Record(8, 1, Started);
    evs := FirstApplied(cap);
    Then(c, evs, Begin(0, 8, Handed), cap);
    evs := evs + [Begin(0, 8, Handed)];
    var d := RunCluster(c, evs, cap);
    assert d.log == [first, second] && d.sends == [first, second];
    Then(c, evs, Apply(0), cap);
    evs := evs + [Apply(0)];
    assert ApplyLive([first], second, cap) == [first, second];
    assert RunCluster(c, evs, cap).nodes == [Node(2, Tracker([first, second], 2))];
  }

  /** The second uplink is confirmed, the first is not. */
  lemma SecondConfirmed(cap: nat) returns (evs: seq<Event>)
    requires cap > 1
    ensures EnabledRun(NewCluster(1), evs, cap) && forall b, e :: OrderlyRun(NewCluster(1), evs, cap, b, e)
    ensures var c := RunCluster(NewCluster(1), evs, cap);
      && c.log == [Record(7, 0, Started), Record(8, 1, Started), Record(8, 1, Sent)]
      && c.nodes == [Node(3, Tracker([Record(7, 0, Started), Record(8, 1, Sent)], 2))]
  {
    var c := NewCluster(1);
    var first, second := Record(7, 0, Started), Record(8, 1, Started);
    var sent := second.(phase := Sent);
    evs := SecondApplied(cap);
    Then(c, evs, Confirm(1), cap);
    evs := evs + [Confirm(1)];
    assert RunCluster(c, evs, cap).log == [first, second, sent];
    Then(c, evs, Apply(0), cap);
    evs := evs + [Apply(0)];
    assert Tracks([first, second], 1) by { assert [first, second][1].seqId == 1; }
    assert Touch([first, second], sent) == [first, sent];
    assert RunCluster(c, evs, cap).nodes == [Node(3, Tracker([first, sent], 2))];
  }

  /** The second uplink is confirmed before the first: a new leader hands out sequence 1 again. */
  lemma LoweredSequenceRepeats(cap: nat) returns (evs: seq<Event>)
    requires cap > 1
    ensures EnabledRun(NewCluster(1), evs, cap) && OrderlyRun(NewCluster(1), evs, cap, true, false)
    ensures SequenceReused(RunCluster(NewCluster(1), evs, cap).log)
  {
    var c := NewCluster(1);
    evs := SecondConfirmed(cap);
    var d := RunCluster(c, evs, cap);
    var live := d.nodes[0].tracker.live;
    assert BestOf(live) == Some(live[0]) by { assert live[..1] == [live[0]]; }
    Then(c, evs, Elected(0, Handed), cap);
    evs := evs + [Elected(0, Handed)];
    Then(c, evs, Begin(0, 9, Handed), cap);
    evs := evs + [Begin(0, 9, Handed)];
    var log := RunCluster(c, evs, cap).log;
    assert log[1].seqId == log[3].seqId == 1;
  }
}
