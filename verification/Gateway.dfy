/**
 * The gateway's uplink history ring with its duplicate filter, and the buffer of events
 * on their way to the cloud.
 */
module Gateway {
  import opened Basics

  datatype Uplink = Uplink(seqId: uint32, body: string)

  /** What an untouched slot of the ring holds. */
  const BLANK := Uplink(0, "")

  function LastN(all: seq<Uplink>, n: nat): (r: seq<Uplink>)
    ensures |r| == if |all| < n then |all| else n
  {
    if |all| <= n then all else all[|all| - n..]
  }

  predicate HasSeq(us: seq<Uplink>, seqId: uint32) {
    exists i :: 0 <= i < |us| && us[i].seqId == seqId
  }

  /** Unseen in the last `cap` uplinks, and not 0 while the ring still has untouched slots. */
  predicate Unseen(recorded: seq<Uplink>, cap: nat, u: Uplink) {
    !HasSeq(LastN(recorded, cap), u.seqId) && !(u.seqId == 0 && |recorded| < cap)
  }

  /** The ring from its oldest slot on is the recent history; a ring not yet full ends in blanks. */
  ghost predicate RingHolds(ring: seq<Uplink>, head: nat, recorded: seq<Uplink>)
    requires head < |ring|
  {
    if |recorded| >= |ring| then LastN(recorded, |ring|) == ring[head..] + ring[..head]
    else head == |recorded| && recorded == ring[..head] && forall i :: head <= i < |ring| ==> ring[i] == BLANK
  }

  lemma RingRecord(ring: seq<Uplink>, head: nat, recorded: seq<Uplink>, u: Uplink)
    requires head < |ring| && RingHolds(ring, head, recorded)
    ensures RingHolds(ring[head := u], NextSlot(head, |ring|), recorded + [u])
  {
    if |recorded| >= |ring| {
      FullRingRecord(ring, head, recorded, u);
    } else {
      FillingRingRecord(ring, head, recorded, u);
    }
  }

  /** A full ring: the oldest uplink makes room. */
  lemma FullRingRecord(ring: seq<Uplink>, head: nat, recorded: seq<Uplink>, u: Uplink)
    requires head < |ring| <= |recorded| && RingHolds(ring, head, recorded)
    ensures RingHolds(ring[head := u], NextSlot(head, |ring|), recorded + [u])
  {
    var after, next, window := ring[head := u], NextSlot(head, |ring|), LastN(recorded, |ring|);
    assert LastN(recorded + [u], |ring|) == window[1..] + [u];
    assert after[next..] + after[..next] == window[1..] + [u];
  }

  /** A ring still filling up: the uplink takes the first blank, perhaps the last one. */
  lemma FillingRingRecord(ring: seq<Uplink>, head: nat, recorded: seq<Uplink>, u: Uplink)
    requires head < |ring| && |recorded| < |ring| && RingHolds(ring, head, recorded)
    ensures RingHolds(ring[head := u], NextSlot(head, |ring|), recorded + [u])
  {
    var after, all := ring[head := u], recorded + [u];
    assert after[..head + 1] == all;
    if head + 1 == |ring| {
      assert LastN(all, |ring|) == after[0..] + after[..0];
    }
  }

  class Hub {
    const cap: nat
    const history: array<Uplink>
    var head: nat
    var filled: bool

    ghost var recorded: seq<Uplink>

    ghost predicate Valid()
      reads this, history
    {
      && history.Length == cap && head < cap
      && filled == (|recorded| >= cap)
      && RingHolds(history[..], head, recorded)
    }

    constructor (historySize: nat)
      requires historySize > 0
      ensures Valid() && fresh(history) && cap == historySize && recorded == []
    {
      cap := historySize;
      history := new Uplink[historySize](_ => BLANK);
      head, filled, recorded := 0, false, [];
    }

    /** Scan every slot, untouched ones included. */
    method IsUnique(u: Uplink) returns (unique: bool)
      requires Valid()
      ensures unique == Unseen(recorded, cap, u)
    {
      for i := 0 to cap
        invariant forall k :: 0 <= k < i ==> history[k].seqId != u.seqId
      {
        if history[i].seqId == u.seqId {
          SlotIsWindow(i, u.seqId);
          return false;
        }
      }
      NoSlotNoWindow(u.seqId);
      return true;
    }

    lemma SlotIsWindow(i: nat, seqId: uint32)
      requires Valid() && i < cap && history[i].seqId == seqId
      ensures HasSeq(LastN(recorded, cap), seqId) || (seqId == 0 && |recorded| < cap)
    {
      if filled {
        var p := if i >= head then i - head else cap - head + i;
        assert LastN(recorded, cap)[p] == history[i];
      } else if i < head {
        assert LastN(recorded, cap)[i] == history[i];
      }
    }

    lemma NoSlotNoWindow(seqId: uint32)
      requires Valid() && forall k :: 0 <= k < cap ==> history[k].seqId != seqId
      ensures !HasSeq(LastN(recorded, cap), seqId) && !(seqId == 0 && |recorded| < cap)
    {
      var window := LastN(recorded, cap);
      forall p | 0 <= p < |window| ensures window[p].seqId != seqId {
        var k := if !filled then p else if p < cap - head then head + p else p - (cap - head);
        assert window[p] == history[k];
      }
      if !filled {
        assert history[head] == BLANK;
      }
    }

    method Record(u: Uplink)
      requires Valid()
      modifies this, history
      ensures Valid() && recorded == old(recorded) + [u]
    {
      ghost var before, at := history[..], head;
      RingRecord(before, at, recorded, u);
      history[head] := u;
      head := NextSlot(head, cap);
      if head == 0 {
        filled := true;
      }
      recorded := recorded + [u];
      assert history[..] == before[at := u];
    }

    /** The buffered uplinks, oldest first. */
    method Snapshot() returns (out: seq<Uplink>)
      requires Valid()
      ensures out == LastN(recorded, cap)
    {
      if !filled {
        return history[..head];
      }
      out := history[head..] + history[..head];
    }

    /** The bridge's order: drop a duplicate before recording anything. */
    method HandleUplink(u: Uplink) returns (kept: bool)
      requires Valid()
      modifies this, history
      ensures Valid() && recorded == Handle(old(recorded), cap, u)
      ensures kept == Unseen(old(recorded), cap, u)
    {
      kept := IsUnique(u);
      if kept {
        Record(u);
      }
    }
  }

  // ---- Runs of the duplicate filter --------------------------------------

  function Handle(recorded: seq<Uplink>, cap: nat, u: Uplink): seq<Uplink> {
    if Unseen(recorded, cap, u) then recorded + [u] else recorded
  }

  function HandleAll(us: seq<Uplink>, cap: nat): seq<Uplink> {
    if us == [] then [] else Handle(HandleAll(us[..|us| - 1], cap), cap, us[|us| - 1])
  }

  /** Equal sequences are recorded only with at least `cap` other uplinks between them. */
  ghost predicate FarApart(recorded: seq<Uplink>, cap: nat) {
    forall i, j :: 0 <= i < j < |recorded| && recorded[i].seqId == recorded[j].seqId ==> j - i > cap
  }

  lemma HandleFarApart(recorded: seq<Uplink>, cap: nat, u: Uplink)
    requires FarApart(recorded, cap)
    ensures FarApart(Handle(recorded, cap, u), cap)
  {
    if Unseen(recorded, cap, u) {
      var window := LastN(recorded, cap);
      forall i | 0 <= i < |recorded| && |recorded| - i <= cap ensures recorded[i].seqId != u.seqId {
        assert window[i - (|recorded| - |window|)] == recorded[i];
      }
    }
  }

  lemma {:induction false} DuplicatesFarApart(us: seq<Uplink>, cap: nat)
    ensures FarApart(HandleAll(us, cap), cap)
  {
    if us != [] {
      DuplicatesFarApart(us[..|us| - 1], cap);
      HandleFarApart(HandleAll(us[..|us| - 1], cap), cap, us[|us| - 1]);
    }
  }

  /** Sequence 0, which the fog tier hands out first, is never among the first `cap` recorded. */
  lemma {:induction false} SequenceZeroWaits(us: seq<Uplink>, cap: nat)
    ensures forall i :: 0 <= i < |HandleAll(us, cap)| && i < cap ==> HandleAll(us, cap)[i].seqId != 0
  {
    if us != [] {
      SequenceZeroWaits(us[..|us| - 1], cap);
    }
  }

  // ---- Egress buffer -----------------------------------------------------

  type Event = string

  /** Events waiting, the batch being delivered, and the ledgers of what came in and went out. */
  datatype Buffer = Buffer(pending: seq<Event>, inFlight: Option<seq<Event>>, delivered: seq<Event>, enqueued: seq<Event>)

  const EmptyBuffer := Buffer([], None, [], [])

  /** Uplink handlers enqueue at any time; one flusher takes a batch and later learns how it went. */
  datatype BufferStep = Enqueue(ev: Event) | TakeBatch | AppendSucceeds | AppendFails

  function BufferMove(b: Buffer, step: BufferStep): Buffer {
    match step
    case Enqueue(ev) => b.(pending := b.pending + [ev], enqueued := b.enqueued + [ev])
    case TakeBatch => if b.inFlight.None? && b.pending != [] then b.(inFlight := Some(b.pending), pending := []) else b
    case AppendSucceeds =>
      if b.inFlight.Some? then b.(inFlight := None, delivered := b.delivered + b.inFlight.value) else b
    case AppendFails =>
      if b.inFlight.Some? then b.(inFlight := None, pending := b.inFlight.value + b.pending) else b
  }

  function RunBuffer(steps: seq<BufferStep>): Buffer {
    if steps == [] then EmptyBuffer else BufferMove(RunBuffer(steps[..|steps| - 1]), steps[|steps| - 1])
  }

  function InFlight(b: Buffer): seq<Event> {
    if b.inFlight.Some? then b.inFlight.value else []
  }

  /** The bridge's buffer; a flush is two critical sections with the delivery between them. */
  class Bridge {
    var pending: seq<Event>

    ghost var model: Buffer

    ghost predicate Valid()
      reads this
    {
      pending == model.pending
    }

    constructor ()
      ensures Valid() && model == EmptyBuffer
    {
      pending, model := [], EmptyBuffer;
    }

    method EnqueueEgress(ev: Event)
      requires Valid()
      modifies this
      ensures Valid() && model == BufferMove(old(model), Enqueue(ev))
    {
      pending := pending + [ev];
      model := BufferMove(model, Enqueue(ev));
    }

    /** Take everything that waits; nothing if the buffer is empty. */
    method TakePending() returns (batch: Option<seq<Event>>)
      requires Valid() && model.inFlight.None?
      modifies this
      ensures Valid() && model == BufferMove(old(model), TakeBatch)
      ensures batch == model.inFlight
    {
      batch := None;
      if pending != [] {
        batch, pending := Some(pending), [];
      }
      model := BufferMove(model, TakeBatch);
    }

    /** A batch that failed goes back before whatever has been enqueued meanwhile. */
    method Settle(batch: seq<Event>, failed: bool)
      requires Valid() && model.inFlight == Some(batch)
      modifies this
      ensures Valid() && model == BufferMove(old(model), if failed then AppendFails else AppendSucceeds)
    {
      if failed {
        pending := batch + pending;
      }
      model := BufferMove(model, if failed then AppendFails else AppendSucceeds);
    }
  }

  /** Nothing is lost, repeated or reordered, however often delivery fails. */
  lemma {:induction false} EventsConserved(steps: seq<BufferStep>)
    ensures var b := RunBuffer(steps);
      b.delivered + InFlight(b) + b.pending == b.enqueued
  {
    if steps != [] {
      var before, after := RunBuffer(steps[..|steps| - 1]), RunBuffer(steps);
      EventsConserved(steps[..|steps| - 1]);
      match steps[|steps| - 1] {
        case Enqueue(ev) =>
          assert after.delivered + InFlight(after) + after.pending
              == (before.delivered + InFlight(before) + before.pending) + [ev];
        case _ =>
          assert after.delivered + InFlight(after) + after.pending
              == before.delivered + InFlight(before) + before.pending;
      }
    }
  }
}
