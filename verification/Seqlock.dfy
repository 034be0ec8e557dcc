/**
 * The sequence lock of the echo driver: one publisher at a time, and a reader whose
 * loads fall anywhere between the publisher's stores.
 */
module Seqlock {
  import opened Basics

  datatype ReadingState = Idle | InFlight | InRange | OutOfRange | TimedOut

  /** What a publish writes and a load returns. */
  datatype Pair = Pair(state: ReadingState, distance: uint16)

  /** The next store of the publisher: odd sequence, state, distance, even sequence. */
  datatype Writer = Quiet | StoreState(p: Pair) | StoreDistance(p: Pair) | StoreEven(p: Pair)

  /** The next load of the reader, with what it has loaded so far. */
  datatype Reader =
    | LoadFirst
    | LoadState(seq1: nat)
    | LoadDistance(seq1: nat, state: ReadingState)
    | LoadSecond(seq1: nat, state: ReadingState, distance: uint16)
    | Returned(p: Pair, published: nat)

  datatype Lock = Lock(
    seqNo: nat, state: ReadingState, distance: uint16, writer: Writer, reader: Reader, history: seq<Pair>)

  const Fresh := Lock(0, Idle, 0, Quiet, LoadFirst, [Pair(Idle, 0)])

  datatype Step = BeginPublish(p: Pair) | WriterStep | ReaderStep | ReadAgain

  function WriterMove(l: Lock): Lock {
    match l.writer
    case Quiet => l
    case StoreState(p) => l.(state := p.state, writer := StoreDistance(p))
    case StoreDistance(p) => l.(distance := p.distance, writer := StoreEven(p))
    case StoreEven(p) => l.(seqNo := l.seqNo + 1, writer := Quiet, history := l.history + [p])
  }

  function ReaderMove(l: Lock): Lock {
    match l.reader
    case LoadFirst => if l.seqNo % 2 == 1 then l else l.(reader := LoadState(l.seqNo))
    case LoadState(s) => l.(reader := LoadDistance(s, l.state))
    case LoadDistance(s, st) => l.(reader := LoadSecond(s, st, l.distance))
    case LoadSecond(s, st, d) =>
      if s == l.seqNo then l.(reader := Returned(Pair(st, d), |l.history|)) else l.(reader := LoadFirst)
    case Returned(_, _) => l
  }

  /** A publish starts only when none is in progress; a new load only after the last one returned. */
  function Move(l: Lock, step: Step): Lock {
    match step
    case BeginPublish(p) => if l.writer.Quiet? then l.(seqNo := l.seqNo + 1, writer := StoreState(p)) else l
    case WriterStep => WriterMove(l)
    case ReaderStep => ReaderMove(l)
    case ReadAgain => if l.reader.Returned? then l.(reader := LoadFirst) else l
  }

  function Run(steps: seq<Step>): Lock {
    if steps == [] then Fresh else Move(Run(steps[..|steps| - 1]), steps[|steps| - 1])
  }

  ghost predicate WriterInv(l: Lock) {
    && l.history != []
    && l.seqNo == 2 * (|l.history| - 1) + (if l.writer.Quiet? then 0 else 1)
    && var last := l.history[|l.history| - 1];
       match l.writer
       case Quiet => Pair(l.state, l.distance) == last
       case StoreState(_) => Pair(l.state, l.distance) == last
       case StoreDistance(p) => Pair(l.state, l.distance) == Pair(p.state, last.distance)
       case StoreEven(p) => Pair(l.state, l.distance) == p
  }

  /** What the reader holds is right as long as the sequence number it saw still stands. */
  ghost predicate ReaderInv(l: Lock) {
    match l.reader
    case LoadFirst => true
    case LoadState(s) => s % 2 == 0
    case LoadDistance(s, st) => s % 2 == 0 && (s == l.seqNo ==> st == l.state)
    case LoadSecond(s, st, d) => s % 2 == 0 && (s == l.seqNo ==> Pair(st, d) == Pair(l.state, l.distance))
    case Returned(p, n) => 1 <= n <= |l.history| && p == l.history[n - 1]
  }

  ghost predicate SeqBounded(l: Lock) {
    match l.reader
    case LoadFirst => true
    case LoadState(s) => s <= l.seqNo
    case LoadDistance(s, _) => s <= l.seqNo
    case LoadSecond(s, _, _) => s <= l.seqNo
    case Returned(_, _) => true
  }

  lemma MoveKeeps(l: Lock, step: Step)
    requires WriterInv(l) && ReaderInv(l) && SeqBounded(l)
    ensures WriterInv(Move(l, step)) && ReaderInv(Move(l, step)) && SeqBounded(Move(l, step))
  {
  }

  /**
   * No torn read: whatever the interleaving, a load returns the pair that was the latest published
   * one at the moment it returned.
   */
  lemma {:induction false} NoTornRead(steps: seq<Step>)
    ensures WriterInv(Run(steps)) && ReaderInv(Run(steps)) && SeqBounded(Run(steps))
    ensures Run(steps).reader.Returned? ==>
      && 1 <= Run(steps).reader.published <= |Run(steps).history|
      && Run(steps).reader.p == Run(steps).history[Run(steps).reader.published - 1]
  {
    if steps != [] {
      NoTornRead(steps[..|steps| - 1]);
      MoveKeeps(Run(steps[..|steps| - 1]), steps[|steps| - 1]);
    }
  }
}
