/**
 * The egress tracker's ring and the coordinator over it, updated in place. What the coordinator
 * asks of its hooks is proved to be an event of the cluster.
 */
module EgressCoordinator {
  import opened Basics
  import opened Egress
  import EC = EgressCluster

  class EgressTracker {
    const cap: nat
    const ring: array<Record>
    const valid: array<bool>
    var head: nat
    var nextSeq: uint32

    ghost var model: Tracker

    /** The ring from its oldest record on is the tracked list. */
    ghost predicate Valid()
      reads this, ring, valid
    {
      && cap > 0 && ring.Length == valid.Length == cap && head < cap
      && nextSeq == model.nextSeq
      && Unique(model.live) && |model.live| <= cap
      && (forall i :: 0 <= i < cap ==> (valid[i] <==> i < |model.live|))
      && if |model.live| < cap then head == |model.live| && model.live == ring[..head]
         else model.live == ring[head..] + ring[..head]
    }

    constructor (capacity: nat)
      requires capacity > 0
      ensures Valid() && fresh(ring) && fresh(valid) && cap == capacity && model == NewTracker
    {
      cap := capacity;
      ring := new Record[capacity](_ => Record(0, 0, Started));
      valid := new bool[capacity](_ => false);
      head, nextSeq, model := 0, 0, NewTracker;
    }

    /** Where ring slot i stands in the tracked list. */
    ghost function Position(i: nat): (p: nat)
      requires Valid() && i < |model.live|
      reads this, ring, valid
      ensures p < |model.live| && model.live[p] == ring[i]
      ensures |model.live| < cap ==> p == i
      ensures |model.live| == cap ==> p == if i >= head then i - head else cap - head + i
    {
      if |model.live| < cap then i else if i >= head then i - head else cap - head + i
    }

    /** Apply a replicated record: update its sequence in place or overwrite the oldest. */
    method OnApply(rec: Record)
      requires Valid()
      modifies this, ring, valid
      ensures Valid() && model == Egress.OnApply(old(model), rec, cap)
    {
      ApplyUnique(model.live, rec, cap);
      if rec.seqId >= nextSeq {
        nextSeq := Wrap32(rec.seqId + 1);
      }
      model := model.(nextSeq := nextSeq);
      for i := 0 to cap
        invariant Valid() && nextSeq == model.nextSeq
        invariant model == old(model).(nextSeq := nextSeq)
        invariant forall k :: 0 <= k < i && valid[k] ==> ring[k].seqId != rec.seqId
      {
        if valid[i] && ring[i].seqId == rec.seqId {
          UpdateInPlace(i, rec);
          return;
        }
      }
      NotTracked(rec.seqId);
      Overwrite(rec);
    }

    lemma NotTracked(seqId: uint32)
      requires Valid() && forall k :: 0 <= k < cap && valid[k] ==> ring[k].seqId != seqId
      ensures !Tracks(model.live, seqId)
    {
      forall p | 0 <= p < |model.live| ensures model.live[p].seqId != seqId {
        var k := if |model.live| < cap then p else if p < cap - head then head + p else p - (cap - head);
        assert ring[k] == model.live[p];
      }
    }

    method UpdateInPlace(i: nat, rec: Record)
      requires Valid() && i < |model.live| && ring[i].seqId == rec.seqId
      modifies `model, ring
      ensures Valid()
      ensures Tracks(old(model.live), rec.seqId)
      ensures model == old(model).(live := Touch(old(model.live), rec))
    {
      ghost var p := Position(i);
      ghost var live := model.live;
      assert Touch(live, rec) == live[p := live[p].(phase := rec.phase)];
      ring[i] := ring[i].(phase := rec.phase);
      model := model.(live := Touch(live, rec));
    }

    method Overwrite(rec: Record)
      requires Valid() && !Tracks(model.live, rec.seqId)
      modifies `model, `head, ring, valid
      ensures Valid() && model == old(model).(live := ApplyLive(old(model.live), rec, cap))
    {
      ApplyUnique(model.live, rec, cap);
      ghost var live, at, before := model.live, head, ring[..];
      ring[head] := rec;
      valid[head] := true;
      head := NextSlot(head, cap);
      model := model.(live := ApplyLive(model.live, rec, cap));
      assert ring[..] == before[..at] + [rec] + before[at + 1..];
      if |live| == cap {
        assert model.live == before[at + 1..] + before[..at] + [rec];
      } else {
        assert model.live == before[..at] + [rec];
      }
    }

    /** The highest STARTED record; its successor becomes the next sequence. */
    method Outstanding() returns (best: Option<Record>)
      requires Valid()
      modifies this
      ensures Valid() && (model, best) == Egress.Outstanding(old(model))
      ensures head == old(head)
    {
      best := None;
      for i := 0 to cap
        invariant forall k :: 0 <= k < i && valid[k] && ring[k].phase.Started? ==>
          best.Some? && ring[k].seqId <= best.value.seqId
        invariant best.Some? ==>
          best.value.phase.Started? && exists k :: 0 <= k < i && valid[k] && ring[k] == best.value
      {
        if valid[i] && ring[i].phase.Started? && (best.None? || ring[i].seqId > best.value.seqId) {
          best := Some(ring[i]);
        }
      }
      ScanIsBest(best);
      if best.Some? {
        nextSeq := Wrap32(best.value.seqId + 1);
        model := model.(nextSeq := nextSeq);
      }
    }

    /** Scanning the slots in ring order finds the list's best. */
    lemma ScanIsBest(best: Option<Record>)
      requires Valid()
      requires forall k :: 0 <= k < cap && valid[k] && ring[k].phase.Started? ==>
        best.Some? && ring[k].seqId <= best.value.seqId
      requires best.Some? ==>
        best.value.phase.Started? && exists k :: 0 <= k < cap && valid[k] && ring[k] == best.value
      ensures best == BestOf(model.live)
    {
      var live := model.live;
      forall p | 0 <= p < |live| && live[p].phase.Started? ensures best.Some? && live[p].seqId <= best.value.seqId {
        var k := if |live| < cap then p else if p < cap - head then head + p else p - (cap - head);
        assert ring[k] == live[p];
      }
      if best.Some? {
        var k :| 0 <= k < cap && valid[k] && ring[k] == best.value;
        assert live[Position(k)] == best.value;
      }
      BestOfIsBest(live);
      BestIsUnique(live, best, BestOf(live));
    }
  }

  /** An entry read back from the replicated log; short ones cannot hold a batch. */
  datatype LogEntry = LogEntry(term: nat, index: nat, short: bool)

  /** What the coordinator asks of its hooks, in order. */
  datatype Action = SubmitRecord(rec: Record) | SendBatch(term: nat, index: nat, seqId: uint32)

  /** Send the batch found in the log, give up a batch that is gone, ignore one that is too short. */
  function DispatchActions(log: map<nat, LogEntry>, seqId: uint32, batchIndex: nat): seq<Action> {
    if batchIndex !in log then [SubmitRecord(Record(batchIndex, seqId, Sent))]
    else if log[batchIndex].short then []
    else [SendBatch(log[batchIndex].term, log[batchIndex].index, seqId)]
  }

  // ---- Actions are cluster events ----------------------------------------

  /** Entries know their own index, as the log keeps them. */
  ghost predicate Indexed(log: map<nat, LogEntry>) {
    forall b :: b in log ==> log[b].index == b
  }

  /** What becomes of a batch, given what the log still holds of it. */
  function FateOf(log: map<nat, LogEntry>, batchIndex: nat): EC.Fate {
    if batchIndex !in log then EC.GivenUp else if log[batchIndex].short then EC.Dropped else EC.Handed
  }

  /** The effect of accepted actions on the cluster: records are replicated, batches go to the modem. */
  function Perform(c: EC.Cluster, actions: seq<Action>): EC.Cluster
    decreases |actions|
  {
    if actions == [] then c
    else
      match actions[0]
      case SubmitRecord(rec) => Perform(c.(log := c.log + [rec]), actions[1..])
      case SendBatch(_, index, seqId) =>
        Perform(c.(sends := c.sends + [Record(index, seqId, Started)]), actions[1..])
  }

  lemma PerformOne(c: EC.Cluster, a: Action)
    ensures Perform(c, [a]) == match a
      case SubmitRecord(rec) => c.(log := c.log + [rec])
      case SendBatch(_, index, seqId) => c.(sends := c.sends + [Record(index, seqId, Started)])
  {
    assert [a][1..] == [];
  }

  lemma DispatchIsEvent(c: EC.Cluster, log: map<nat, LogEntry>, seqId: uint32, batchIndex: nat)
    requires Indexed(log)
    ensures Perform(c, DispatchActions(log, seqId, batchIndex))
         == EC.Dispatch(c, batchIndex, seqId, FateOf(log, batchIndex))
  {
    var actions := DispatchActions(log, seqId, batchIndex);
    if actions != [] {
      PerformOne(c, actions[0]);
      assert actions == [actions[0]];
    }
  }

  /** An accepted uplink of a leader is its Begin event; actions[0] is the STARTED record. */
  lemma BeginIsEvent(c: EC.Cluster, n: nat, log: map<nat, LogEntry>, batchIndex: nat, actions: seq<Action>, cap: nat)
    requires cap > 0 && n < |c.nodes| && Indexed(log) && actions != []
    requires var seqId := c.nodes[n].tracker.nextSeq;
      actions[0] == SubmitRecord(Record(batchIndex, seqId, Started))
      && actions[1..] == DispatchActions(log, seqId, batchIndex)
    ensures Perform(c, actions) == EC.Next(c, EC.Begin(n, batchIndex, FateOf(log, batchIndex)), cap)
  {
    var seqId := c.nodes[n].tracker.nextSeq;
    DispatchIsEvent(c.(log := c.log + [Record(batchIndex, seqId, Started)]), log, seqId, batchIndex);
  }

  /** A confirmation from the modem is the Confirm event of the uplink it was handed. */
  lemma ConfirmIsEvent(c: EC.Cluster, k: nat, cap: nat)
    requires cap > 0 && k < |c.sends|
    ensures Perform(c, [SubmitRecord(Record(c.sends[k].batchIndex, c.sends[k].seqId, Sent))])
         == EC.Next(c, EC.Confirm(k), cap)
  {
    PerformOne(c, SubmitRecord(Record(c.sends[k].batchIndex, c.sends[k].seqId, Sent)));
  }

  /** What a new leader does is its Elected event. */
  lemma ElectedIsEvent(c: EC.Cluster, n: nat, log: map<nat, LogEntry>, cap: nat)
    requires cap > 0 && n < |c.nodes| && Indexed(log)
    ensures var (tracker, best) := Outstanding(c.nodes[n].tracker);
      var asked := c.(nodes := c.nodes[n := c.nodes[n].(tracker := tracker)]);
      var fate := if best.None? then EC.Dropped else FateOf(log, best.value.batchIndex);
      Perform(asked, if best.None? then [] else DispatchActions(log, best.value.seqId, best.value.batchIndex))
      == EC.Next(c, EC.Elected(n, fate), cap)
  {
    var (tracker, best) := Outstanding(c.nodes[n].tracker);
    if best.Some? {
      DispatchIsEvent(c.(nodes := c.nodes[n := c.nodes[n].(tracker := tracker)]), log, best.value.seqId,
                      best.value.batchIndex);
    }
  }

  class EgressCoordinator {
    const tracker: EgressTracker

    ghost predicate Valid()
      reads this, tracker, tracker.ring, tracker.valid
    {
      tracker.Valid()
    }

    constructor (capacity: nat)
      requires capacity > 0
      ensures Valid() && fresh(tracker) && fresh(tracker.ring) && fresh(tracker.valid)
      ensures tracker.model == NewTracker && tracker.cap == capacity
    {
      tracker := new EgressTracker(capacity);
    }

    method OnEgressApplied(rec: Record)
      requires Valid()
      modifies tracker, tracker.ring, tracker.valid
      ensures Valid() && tracker.model == Egress.OnApply(old(tracker.model), rec, tracker.cap)
    {
      tracker.OnApply(rec);
    }

    /** A leader commits STARTED first and sends only once that is accepted. */
    method BeginEgress(batchIndex: nat, leader: bool, accepted: bool, log: map<nat, LogEntry>)
      returns (actions: seq<Action>)
      requires Valid()
      ensures !leader ==> actions == []
      ensures leader ==> actions != [] && actions[0] == SubmitRecord(Record(batchIndex, tracker.model.nextSeq, Started))
      ensures leader && !accepted ==> |actions| == 1
      ensures leader && accepted ==> actions[1..] == DispatchActions(log, tracker.model.nextSeq, batchIndex)
    {
      actions := [];
      if !leader {
        return;
      }
      var seqId := tracker.nextSeq;
      actions := [SubmitRecord(Record(batchIndex, seqId, Started))];
      if !accepted {
        return;
      }
      var rest := Dispatch(seqId, batchIndex, log);
      actions := actions + rest;
    }

    /** A new leader re-drives the outstanding uplink under its own sequence, with no new STARTED. */
    method OnBecameLeader(log: map<nat, LogEntry>) returns (actions: seq<Action>)
      requires Valid()
      modifies tracker
      ensures Valid() && tracker.model == Egress.Outstanding(old(tracker.model)).0
      ensures tracker.model.live == old(tracker.model.live)
      ensures var best := BestOf(old(tracker.model.live));
        actions == if best.None? then [] else DispatchActions(log, best.value.seqId, best.value.batchIndex)
    {
      var best := tracker.Outstanding();
      if best.None? {
        return [];
      }
      actions := Dispatch(best.value.seqId, best.value.batchIndex, log);
    }

    /** The modem has sent an uplink: the Confirm event of that uplink. */
    method OnLorawanOk(seqId: uint32, batchIndex: nat) returns (actions: seq<Action>)
      ensures actions == [SubmitRecord(Record(batchIndex, seqId, Sent))]
      ensures forall c: EC.Cluster, k: nat, cap: nat ::
        cap > 0 && k < |c.sends| && c.sends[k] == Record(batchIndex, seqId, Started)
        ==> Perform(c, actions) == EC.Next(c, EC.Confirm(k), cap)
    {
      actions := [SubmitRecord(Record(batchIndex, seqId, Sent))];
      forall c: EC.Cluster, k: nat, cap: nat
        | cap > 0 && k < |c.sends| && c.sends[k] == Record(batchIndex, seqId, Started)
        ensures Perform(c, actions) == EC.Next(c, EC.Confirm(k), cap)
      {
        ConfirmIsEvent(c, k, cap);
      }
    }

    /** Send the batch found in the log, give up one that is gone, ignore one that is too short. */
    method Dispatch(seqId: uint32, batchIndex: nat, log: map<nat, LogEntry>) returns (actions: seq<Action>)
      ensures actions == DispatchActions(log, seqId, batchIndex)
      ensures Indexed(log) ==> forall c: EC.Cluster ::
        Perform(c, actions) == EC.Dispatch(c, batchIndex, seqId, FateOf(log, batchIndex))
    {
      if Indexed(log) {
        forall c: EC.Cluster
          ensures Perform(c, DispatchActions(log, seqId, batchIndex))
               == EC.Dispatch(c, batchIndex, seqId, FateOf(log, batchIndex))
        {
          DispatchIsEvent(c, log, seqId, batchIndex);
        }
      }
      if batchIndex !in log {
        actions := OnLorawanOk(seqId, batchIndex);
        return;
      }
      if log[batchIndex].short {
        return [];
      }
      actions := [SendBatch(log[batchIndex].term, log[batchIndex].index, seqId)];
    }
  }
}
