/**
 * The replicated log: the ring with its snapshot edge on values, and the plain log
 * from index 1 that it must be indistinguishable from.
 */
module RaftLog {
  import opened Basics

  datatype EntryType = Noop | SensorData | EgressMsg

  datatype Entry = Entry(term: nat, index: nat, kind: EntryType, data: seq<uint8>)

  /** The live entries after the snapshot edge (base, baseTerm). */
  datatype Ring = Ring(base: nat, baseTerm: nat, live: seq<Entry>) {
    function LastIndex(): nat { base + |live| }

    function At(index: nat): Option<Entry> {
      if base < index <= LastIndex() then Some(live[index - base - 1]) else None
    }

    function TermAt(index: nat): Option<nat> {
      if index == 0 then Some(0)
      else if index == base then Some(baseTerm)
      else if At(index).Some? then Some(At(index).value.term)
      else None
    }

    function LastTerm(): nat {
      if live == [] then baseTerm else live[|live| - 1].term
    }

    function Push(entry: Entry, cap: nat): Ring {
      if |live| >= cap then this else this.(live := live + [entry])
    }

    function TruncateSuffix(from: nat): Ring {
      if from <= base + 1 then this.(live := [])
      else if from > LastIndex() then this
      else this.(live := live[..from - base - 1])
    }

    function CompactTo(index: nat, term: nat): Ring
      requires base <= index <= LastIndex()
    {
      Ring(index, term, live[index - base..])
    }
  }

  const EmptyRing := Ring(0, 0, [])

  function ResetToSnapshot(index: nat, term: nat): Ring {
    Ring(index, term, [])
  }

  // ---- The plain log -----------------------------------------------------

  function PlainTerm(log: seq<Entry>, index: nat): nat
    requires index <= |log|
  {
    if index == 0 then 0 else log[index - 1].term
  }

  datatype Op =
    | PushOp(entry: Entry)
    | TruncateOp(from: nat)
    | CompactOp(index: nat, term: nat)

  /** How the Raft server uses the ring. */
  predicate Legal(r: Ring, op: Op) {
    match op
    case PushOp(e) => e.index == r.LastIndex() + 1
    case TruncateOp(from) => from > r.base
    case CompactOp(index, term) => r.base <= index <= r.LastIndex() && r.TermAt(index) == Some(term)
  }

  function RingStep(r: Ring, op: Op, cap: nat): Ring
    requires Legal(r, op)
  {
    match op
    case PushOp(e) => r.Push(e, cap)
    case TruncateOp(from) => r.TruncateSuffix(from)
    case CompactOp(index, term) => r.CompactTo(index, term)
  }

  /** The plain log takes the pushes the ring accepted and the truncations, and never compacts. */
  function PlainStep(log: seq<Entry>, op: Op, accepted: bool): seq<Entry> {
    match op
    case PushOp(e) => if accepted then log + [e] else log
    case TruncateOp(from) => if 1 <= from <= |log| then log[..from - 1] else log
    case CompactOp(_, _) => log
  }

  ghost predicate LegalRun(r: Ring, ops: seq<Op>, cap: nat)
    decreases |ops|
  {
    ops != [] ==> Legal(r, ops[0]) && LegalRun(RingStep(r, ops[0], cap), ops[1..], cap)
  }

  function RunRing(r: Ring, ops: seq<Op>, cap: nat): Ring
    requires LegalRun(r, ops, cap)
    decreases |ops|
  {
    if ops == [] then r else RunRing(RingStep(r, ops[0], cap), ops[1..], cap)
  }

  function RunPlain(r: Ring, log: seq<Entry>, ops: seq<Op>, cap: nat): seq<Entry>
    requires LegalRun(r, ops, cap)
    decreases |ops|
  {
    if ops == [] then log
    else RunPlain(RingStep(r, ops[0], cap), PlainStep(log, ops[0], |r.live| < cap), ops[1..], cap)
  }

  /** The ring is the tail of the plain log, and its edge remembers the term it cut at. */
  ghost predicate Shadows(r: Ring, log: seq<Entry>) {
    && |log| == r.LastIndex()
    && r.live == log[r.base..]
    && r.baseTerm == PlainTerm(log, r.base)
    && forall i :: 0 <= i < |log| ==> log[i].index == i + 1
  }

  lemma StepShadows(r: Ring, log: seq<Entry>, op: Op, cap: nat)
    requires Shadows(r, log) && Legal(r, op)
    ensures Shadows(RingStep(r, op, cap), PlainStep(log, op, |r.live| < cap))
  {
  }

  lemma {:induction false} RunShadows(r: Ring, log: seq<Entry>, ops: seq<Op>, cap: nat)
    requires Shadows(r, log) && LegalRun(r, ops, cap)
    ensures Shadows(RunRing(r, ops, cap), RunPlain(r, log, ops, cap))
    decreases |ops|
  {
    if ops != [] {
      StepShadows(r, log, ops[0], cap);
      RunShadows(RingStep(r, ops[0], cap), PlainStep(log, ops[0], |r.live| < cap), ops[1..], cap);
    }
  }

  /**
   * Compaction is invisible: after any legal run the ring answers every question about indices above
   * its edge, and about the end of the log, as the never-compacted log does, and each entry's stored
   * index is its position.
   */
  lemma CompactionInvisible(ops: seq<Op>, cap: nat, index: nat)
    requires LegalRun(EmptyRing, ops, cap)
    ensures var r := RunRing(EmptyRing, ops, cap);
      var log := RunPlain(EmptyRing, [], ops, cap);
      && r.LastIndex() == |log| && r.LastTerm() == PlainTerm(log, |log|)
      && (r.base < index ==>
            && r.At(index) == (if index <= |log| then Some(log[index - 1]) else None)
            && r.TermAt(index) == (if index <= |log| then Some(PlainTerm(log, index)) else None))
      && (r.base < index <= |log| ==> r.At(index).value.index == index)
  {
    RunShadows(EmptyRing, [], ops, cap);
  }

  /** Only successful pushes grow the live part, and never past the capacity. */
  lemma {:induction false} NeverOverfull(r: Ring, ops: seq<Op>, cap: nat)
    requires |r.live| <= cap && LegalRun(r, ops, cap)
    ensures |RunRing(r, ops, cap).live| <= cap
    decreases |ops|
  {
    if ops != [] {
      NeverOverfull(RingStep(r, ops[0], cap), ops[1..], cap);
    }
  }
}
