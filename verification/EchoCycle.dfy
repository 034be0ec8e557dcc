/**
 * The measurement cycle of an edge node as interleaved atomic steps: the work-queue
 * thread, the echo interrupt that preempts it, and the timers that feed the queue.
 */
module EchoCycle {
  import opened Basics
  import opened Seqlock

  datatype Work = SleepElapsed | WarmupElapsed | TimeoutElapsed | ReadSample

  /** Why the thread publishes: a measurement starts, timed out, or has been handed over. */
  datatype Purpose = ForTrigger | ForTimeout | ForReset

  /** The next action of the work-queue thread. */
  datatype Thread =
    | Resting
    | ClearResolved
    | Publish(why: Purpose, k: nat, seq0: nat)
    | ClearRising
    | EnableIrq
    | PulseTrigger
    | ArmTimeout
    | ClaimTimeout
    | DisableIrq
    | StopTimeout
    | SubmitRead
    | ReadFirst
    | ReadState(seq1: nat)
    | ReadDistance(seq1: nat, st: ReadingState)
    | ReadSecond(seq1: nat, st: ReadingState, d: uint16)
    | EmitReading(sample: Pair)
    | ResetResolved
    | ScheduleSleep

  /** The next action of the echo interrupt handler. */
  datatype Isr =
    | Off
    | IsrFirst(high: bool)
    | IsrState(high: bool, seq1: nat)
    | IsrDistance(high: bool, seq1: nat, st: ReadingState)
    | IsrSecond(high: bool, seq1: nat, st: ReadingState)
    | IsrDecide(high: bool, st: ReadingState)
    | IsrClaim(d: uint16)
    | IsrDisable(d: uint16)
    | IsrPublish(d: uint16, k: nat, seq0: nat)
    | IsrStop
    | IsrSubmit

  datatype System = System(
    seqNo: nat, pair: Pair, resolved: bool, rising: uint32, irq: bool,
    sleepArmed: bool, warmupArmed: bool, timeoutArmed: bool, queue: seq<Work>,
    thread: Thread, isr: Isr,
    triggers: nat, wins: seq<Pair>, dones: nat, emitted: seq<Pair>)

  /** After start(): the sensor is off and the first sleep is scheduled. */
  const Started := System(
    0, Pair(Idle, 0), false, 0, false, true, false, false, [], Resting, Off, 0, [], 0, [])

  datatype Step =
    | ThreadStep
    | EchoEdge(high: bool)
    | IsrStep(now: uint32, pulseUs: uint32)
    | SleepFires
    | WarmupFires
    | TimeoutFires

  /** Speed of sound, from the datasheet: ten times the pulse width over 58, in 32 bits, kept in 16. */
  function DistanceMm(pulseUs: uint32): uint16 {
    Wrap32(pulseUs * 10) / 58 % 0x1_0000
  }

  /** Submitting queued work is a no-op. */
  function Submit(queue: seq<Work>, w: Work): seq<Work> {
    if w in queue then queue else queue + [w]
  }

  function Target(why: Purpose): Pair {
    match why
    case ForTrigger => Pair(InFlight, 0)
    case ForTimeout => Pair(TimedOut, 0)
    case ForReset => Pair(Idle, 0)
  }

  /** The five steps of a publish: load the sequence, store odd, state, distance, store even. */
  function PublishStore(s: System, p: Pair, k: nat, seq0: nat): System {
    match k
    case 1 => s.(seqNo := seq0 + 1)
    case 2 => s.(pair := Pair(p.state, s.pair.distance))
    case 3 => s.(pair := Pair(s.pair.state, p.distance))
    case 4 => s.(seqNo := seq0 + 2)
    case _ => s
  }

  function AfterPublish(why: Purpose): Thread {
    match why
    case ForTrigger => ClearRising
    case ForTimeout => StopTimeout
    case ForReset => ScheduleSleep
  }

  /** Take the next work item and start its handler. */
  function TakeWork(s: System): System
    requires s.queue != []
  {
    var rest := s.(queue := s.queue[1..]);
    match s.queue[0]
    case SleepElapsed => rest.(warmupArmed := true)
    case WarmupElapsed => rest.(thread := ClearResolved)
    case TimeoutElapsed => rest.(thread := ClaimTimeout)
    case ReadSample => rest.(thread := ReadFirst)
  }

  function ThreadMove(s: System): System {
    match s.thread
    case Resting => if s.queue == [] then s else TakeWork(s)
    // trigger()
    case ClearResolved => s.(resolved := false, triggers := s.triggers + 1, thread := Publish(ForTrigger, 0, 0))
    case Publish(why, k, seq0) =>
      var stored := PublishStore(s, Target(why), k, seq0);
      if k == 0 then stored.(thread := Publish(why, 1, s.seqNo))
      else if k < 4 then stored.(thread := Publish(why, k + 1, seq0))
      else stored.(thread := AfterPublish(why))
    case ClearRising => s.(rising := 0, thread := EnableIrq)
    case EnableIrq => s.(irq := true, thread := PulseTrigger)
    case PulseTrigger => s.(thread := ArmTimeout)
    case ArmTimeout => s.(timeoutArmed := true, thread := Resting)
    // on_timeout()
    case ClaimTimeout =>
      if s.resolved then s.(thread := Resting)
      else s.(resolved := true, wins := s.wins + [Pair(TimedOut, 0)], thread := DisableIrq)
    case DisableIrq => s.(irq := false, thread := Publish(ForTimeout, 0, 0))
    case StopTimeout => s.(timeoutArmed := false, dones := s.dones + 1, thread := SubmitRead)
    case SubmitRead => s.(queue := Submit(s.queue, ReadSample), thread := Resting)
    // do_read()
    case ReadFirst => if s.seqNo % 2 == 1 then s else s.(thread := ReadState(s.seqNo))
    case ReadState(q) => s.(thread := ReadDistance(q, s.pair.state))
    case ReadDistance(q, st) => s.(thread := ReadSecond(q, st, s.pair.distance))
    case ReadSecond(q, st, d) =>
      if q == s.seqNo then s.(thread := EmitReading(Pair(st, d))) else s.(thread := ReadFirst)
    case EmitReading(p) => s.(emitted := s.emitted + [p], thread := ResetResolved)
    case ResetResolved => s.(resolved := false, thread := Publish(ForReset, 0, 0))
    case ScheduleSleep => s.(sleepArmed := true, thread := Resting)
  }

  function IsrMove(s: System, now: uint32, pulseUs: uint32): System {
    match s.isr
    case Off => s
    case IsrFirst(high) => if s.seqNo % 2 == 1 then s else s.(isr := IsrState(high, s.seqNo))
    case IsrState(high, q) => s.(isr := IsrDistance(high, q, s.pair.state))
    case IsrDistance(high, q, st) => s.(isr := IsrSecond(high, q, st))
    case IsrSecond(high, q, st) =>
      if q == s.seqNo then s.(isr := IsrDecide(high, st)) else s.(isr := IsrFirst(high))
    case IsrDecide(high, st) =>
      if high && st == InFlight then s.(rising := now, isr := Off)
      else if !high && st == InFlight && s.rising != 0 then s.(isr := IsrClaim(DistanceMm(pulseUs)))
      else s.(isr := Off)
    case IsrClaim(d) =>
      if s.resolved then s.(isr := Off)
      else s.(resolved := true, wins := s.wins + [Pair(InRange, d)], isr := IsrDisable(d))
    case IsrDisable(d) => s.(irq := false, isr := IsrPublish(d, 0, 0))
    case IsrPublish(d, k, seq0) =>
      var stored := PublishStore(s, Pair(InRange, d), k, seq0);
      if k == 0 then stored.(isr := IsrPublish(d, 1, s.seqNo))
      else if k < 4 then stored.(isr := IsrPublish(d, k + 1, seq0))
      else stored.(isr := IsrStop)
    case IsrStop => s.(timeoutArmed := false, dones := s.dones + 1, isr := IsrSubmit)
    case IsrSubmit => s.(queue := Submit(s.queue, ReadSample), isr := Off)
  }

  /** A step that is not enabled leaves the system alone; the thread waits while the interrupt runs. */
  function Move(s: System, step: Step): System {
    match step
    case ThreadStep => if s.isr.Off? then ThreadMove(s) else s
    case EchoEdge(high) => if s.irq && s.isr.Off? then s.(isr := IsrFirst(high)) else s
    case IsrStep(now, pulseUs) => IsrMove(s, now, pulseUs)
    case SleepFires => if s.sleepArmed then s.(sleepArmed := false, queue := Submit(s.queue, SleepElapsed)) else s
    case WarmupFires => if s.warmupArmed then s.(warmupArmed := false, queue := Submit(s.queue, WarmupElapsed)) else s
    case TimeoutFires => if s.timeoutArmed then s.(timeoutArmed := false, queue := Submit(s.queue, TimeoutElapsed)) else s
  }

  function RunFrom(s: System, steps: seq<Step>): System
    decreases |steps|
  {
    if steps == [] then s else RunFrom(Move(s, steps[0]), steps[1..])
  }

  // ---- The invariant -----------------------------------------------------

  ghost predicate NoWake(s: System) {
    !s.sleepArmed && !s.warmupArmed
  }

  /** Where the counters of the current cycle stand, relative to the readings emitted so far. */
  ghost predicate Counts(s: System, triggers: nat, wins: nat, dones: nat) {
    var e := |s.emitted|;
    && s.emitted <= s.wins
    && s.triggers == e + triggers && |s.wins| == e + wins && s.dones == e + dones
  }

  ghost predicate Even(s: System) {
    s.seqNo % 2 == 0
  }

  ghost predicate Quietly(s: System) {
    !s.irq && s.isr.Off? && !s.timeoutArmed && NoWake(s) && s.queue == []
  }

  ghost predicate Publishing(s: System, p: Pair, k: nat, seq0: nat) {
    && k <= 4
    && (k == 0 ==> Even(s))
    && (k >= 1 ==> seq0 % 2 == 0 && s.seqNo == seq0 + (if k == 1 then 0 else 1))
    && (k >= 3 ==> s.pair.state == p.state)
    && (k >= 4 ==> s.pair.distance == p.distance)
  }

  /** The interrupt is looking at an edge and has claimed nothing. */
  ghost predicate Scanning(s: System) {
    match s.isr
    case Off => true
    case IsrFirst(_) => true
    case IsrState(_, q) => q == s.seqNo
    case IsrDistance(_, q, st) => q == s.seqNo && st == s.pair.state
    case IsrSecond(_, q, st) => q == s.seqNo && st == s.pair.state
    case IsrDecide(_, st) => st == s.pair.state
    case IsrClaim(_) => true
    case _ => false
  }

  /** The interrupt will not claim: the edge it looks at rises, or no rising edge came before it. */
  ghost predicate Harmless(s: System) {
    match s.isr
    case IsrFirst(high) => high || s.rising == 0
    case IsrState(high, _) => high || s.rising == 0
    case IsrDistance(high, _, _) => high || s.rising == 0
    case IsrSecond(high, _, _) => high || s.rising == 0
    case IsrDecide(high, _) => high || s.rising == 0
    case IsrClaim(_) => false
    case _ => true
  }

  /** A measurement is out and nobody has resolved it. */
  ghost predicate Waiting(s: System) {
    && Counts(s, 1, 0, 0) && s.irq && !s.resolved && NoWake(s)
    && s.pair == Pair(InFlight, 0) && Even(s) && Scanning(s)
  }

  ghost predicate Winner(s: System, p: Pair) {
    s.wins != [] && s.wins[|s.wins| - 1] == p
  }

  /** The interrupt has claimed the measurement and is still running. */
  ghost predicate EchoWinning(s: System) {
    && s.resolved && NoWake(s)
    && match s.isr
       case IsrDisable(d) => Counts(s, 1, 1, 0) && s.irq && Even(s) && Winner(s, Pair(InRange, d))
       case IsrPublish(d, k, seq0) =>
         Counts(s, 1, 1, 0) && !s.irq && Winner(s, Pair(InRange, d)) && Publishing(s, Pair(InRange, d), k, seq0)
       case IsrStop => Counts(s, 1, 1, 0) && !s.irq && Even(s) && Winner(s, s.pair)
       case IsrSubmit => Counts(s, 1, 1, 1) && !s.irq && Even(s) && Winner(s, s.pair) && !s.timeoutArmed
       case _ => false
  }

  /** The measurement is resolved and published, and its reading waits to be taken. */
  ghost predicate Resolved(s: System) {
    && Counts(s, 1, 1, 1) && s.resolved && NoWake(s) && !s.irq && s.isr.Off? && !s.timeoutArmed
    && Even(s) && Winner(s, s.pair)
  }

  ghost predicate Taking(s: System) {
    Resolved(s) && s.queue == []
  }

  ghost predicate Inv(s: System) {
    match s.thread
    case Resting =>
      || (&& Counts(s, 0, 0, 0) && !s.irq && s.isr.Off? && !s.timeoutArmed && !s.resolved && Even(s)
          && ( || (s.sleepArmed && !s.warmupArmed && s.queue == [])
               || (!s.sleepArmed && s.warmupArmed && s.queue == [])
               || (NoWake(s) && (s.queue == [SleepElapsed] || s.queue == [WarmupElapsed]))))
      || ((Waiting(s) || (EchoWinning(s) && !s.isr.IsrSubmit?))
          && ((s.timeoutArmed && s.queue == []) || (!s.timeoutArmed && s.queue == [TimeoutElapsed])
              || (EchoWinning(s) && !s.timeoutArmed && s.queue == [])))
      || (EchoWinning(s) && s.isr.IsrSubmit? && (s.queue == [] || s.queue == [TimeoutElapsed]))
      || (Resolved(s) && (s.queue == [ReadSample] || s.queue == [TimeoutElapsed, ReadSample]))
    case ClearResolved => Counts(s, 0, 0, 0) && Quietly(s) && Even(s)
    case Publish(why, k, seq0) =>
      && Quietly(s) && Publishing(s, Target(why), k, seq0)
      && (match why
          case ForTrigger => Counts(s, 1, 0, 0) && !s.resolved
          case ForTimeout => Counts(s, 1, 1, 0) && s.resolved && Winner(s, Target(why))
          case ForReset => Counts(s, 0, 0, 0) && !s.resolved)
    case ClearRising => Counts(s, 1, 0, 0) && Quietly(s) && !s.resolved && Even(s) && s.pair == Pair(InFlight, 0)
    case EnableIrq => Counts(s, 1, 0, 0) && Quietly(s) && !s.resolved && Even(s) && s.pair == Pair(InFlight, 0)
    case PulseTrigger => Waiting(s) && Harmless(s) && !s.timeoutArmed && s.queue == []
    case ArmTimeout => Waiting(s) && Harmless(s) && !s.timeoutArmed && s.queue == []
    case ClaimTimeout =>
      && !s.timeoutArmed
      && ((Waiting(s) && s.queue == []) || (EchoWinning(s) && s.queue == []) || (Resolved(s) && s.queue == [ReadSample]))
    case DisableIrq =>
      && Counts(s, 1, 1, 0) && s.resolved && s.irq && NoWake(s) && !s.timeoutArmed && s.queue == []
      && Even(s) && Scanning(s) && Winner(s, Pair(TimedOut, 0))
    case StopTimeout => Counts(s, 1, 1, 0) && Quietly(s) && s.resolved && Even(s) && Winner(s, s.pair)
    case SubmitRead => Counts(s, 1, 1, 1) && Quietly(s) && s.resolved && Even(s) && Winner(s, s.pair)
    case ReadFirst => Taking(s)
    case ReadState(q) => Taking(s) && q == s.seqNo
    case ReadDistance(q, st) => Taking(s) && q == s.seqNo && st == s.pair.state
    case ReadSecond(q, st, d) => Taking(s) && q == s.seqNo && Pair(st, d) == s.pair
    case EmitReading(p) => Taking(s) && p == s.pair
    case ResetResolved => Counts(s, 0, 0, 0) && Quietly(s) && Even(s)
    case ScheduleSleep => Counts(s, 0, 0, 0) && Quietly(s) && !s.resolved && Even(s)
  }

  /** The interrupt is on and the timeout not armed yet. */
  predicate Unguarded(s: System) {
    s.thread.PulseTrigger? || s.thread.ArmTimeout?
  }

  /** No echo ends before the timeout is armed: no falling edge after a rising one. */
  ghost predicate Timely(s: System, step: Step) {
    step == EchoEdge(false) && Unguarded(s) && s.isr.Off? ==> s.rising == 0
  }

  // ---- The thread keeps the invariant ------------------------------------

  lemma RestingKeepsInv(s: System)
    requires Inv(s) && s.isr.Off? && s.thread.Resting?
    ensures Inv(ThreadMove(s))
  {
    if s.queue == [TimeoutElapsed, ReadSample] {
      assert s.queue[1..] == [ReadSample];
    }
  }

  lemma PublishKeepsInv(s: System)
    requires Inv(s) && s.isr.Off? && s.thread.Publish?
    ensures Inv(ThreadMove(s))
  {
  }

  lemma TriggerKeepsInv(s: System)
    requires Inv(s) && s.isr.Off?
    requires s.thread.ClearResolved? || s.thread.ClearRising? || s.thread.EnableIrq? || s.thread.PulseTrigger?
          || s.thread.ArmTimeout?
    ensures Inv(ThreadMove(s))
  {
  }

  lemma TimeoutKeepsInv(s: System)
    requires Inv(s) && s.isr.Off?
    requires s.thread.ClaimTimeout? || s.thread.DisableIrq? || s.thread.StopTimeout? || s.thread.SubmitRead?
    ensures Inv(ThreadMove(s))
  {
  }

  lemma ReadKeepsInv(s: System)
    requires Inv(s) && s.isr.Off?
    requires s.thread.ReadFirst? || s.thread.ReadState? || s.thread.ReadDistance? || s.thread.ReadSecond?
          || s.thread.EmitReading? || s.thread.ResetResolved? || s.thread.ScheduleSleep?
    ensures Inv(ThreadMove(s))
  {
  }

  lemma ThreadKeepsInv(s: System)
    requires Inv(s) && s.isr.Off?
    ensures Inv(ThreadMove(s))
  {
    if s.thread.Resting? {
      RestingKeepsInv(s);
    } else if s.thread.Publish? {
      PublishKeepsInv(s);
    } else if s.thread.ClearResolved? || s.thread.ClearRising? || s.thread.EnableIrq? || s.thread.PulseTrigger?
           || s.thread.ArmTimeout? {
      TriggerKeepsInv(s);
    } else if s.thread.ClaimTimeout? || s.thread.DisableIrq? || s.thread.StopTimeout? || s.thread.SubmitRead? {
      TimeoutKeepsInv(s);
    } else {
      ReadKeepsInv(s);
    }
  }

  // ---- The interrupt keeps the invariant ---------------------------------

  /** The interrupt touches neither the thread nor, until it submits, the queue. */
  ghost predicate SameElsewhere(s: System, t: System) {
    t.thread == s.thread && t.queue == s.queue && t.timeoutArmed == s.timeoutArmed
  }

  lemma ScanStep(s: System, now: uint32, pulseUs: uint32)
    requires Waiting(s)
    ensures var t := IsrMove(s, now, pulseUs);
      && SameElsewhere(s, t)
      && (Waiting(t) || (EchoWinning(t) && t.isr.IsrDisable?))
      && (Harmless(s) ==> Waiting(t) && Harmless(t))
  {
  }

  lemma ScanResolvedStep(s: System, now: uint32, pulseUs: uint32)
    requires Scanning(s) && s.resolved && Even(s)
    ensures var t := IsrMove(s, now, pulseUs);
      Scanning(t) && t == s.(isr := t.isr, rising := t.rising)
  {
  }

  lemma EchoWinningStep(s: System, now: uint32, pulseUs: uint32)
    requires EchoWinning(s) && !s.isr.IsrSubmit? && !s.isr.IsrStop?
    ensures EchoWinning(IsrMove(s, now, pulseUs)) && !IsrMove(s, now, pulseUs).isr.IsrSubmit?
    ensures SameElsewhere(s, IsrMove(s, now, pulseUs))
  {
  }

  lemma EchoDoneStep(s: System, now: uint32, pulseUs: uint32)
    requires EchoWinning(s) && (s.isr.IsrSubmit? || s.isr.IsrStop?)
    requires s.queue == [] || s.queue == [TimeoutElapsed]
    ensures var t := IsrMove(s, now, pulseUs);
      && t.thread == s.thread && !t.timeoutArmed
      && (s.isr.IsrStop? ==> EchoWinning(t) && t.isr.IsrSubmit? && t.queue == s.queue)
      && (s.isr.IsrSubmit? ==> Resolved(t) && t.queue == s.queue + [ReadSample])
  {
  }

  lemma IsrKeepsInv(s: System, now: uint32, pulseUs: uint32)
    requires Inv(s)
    ensures Inv(IsrMove(s, now, pulseUs))
  {
    if s.isr.Off? {
    } else if EchoWinning(s) && (s.isr.IsrSubmit? || s.isr.IsrStop?) {
      EchoDoneStep(s, now, pulseUs);
    } else if EchoWinning(s) {
      EchoWinningStep(s, now, pulseUs);
    } else if s.thread.DisableIrq? {
      ScanResolvedStep(s, now, pulseUs);
    } else {
      ScanStep(s, now, pulseUs);
    }
  }

  // ---- Timers and edges keep the invariant -------------------------------

  lemma OthersKeepInv(s: System, step: Step)
    requires Inv(s) && Timely(s, step) && !step.ThreadStep? && !step.IsrStep?
    ensures Inv(Move(s, step))
  {
  }

  lemma KeepsInv(s: System, step: Step)
    requires Inv(s) && Timely(s, step)
    ensures Inv(Move(s, step))
  {
    match step {
      case ThreadStep => if s.isr.Off? { ThreadKeepsInv(s); }
      case IsrStep(now, pulseUs) => IsrKeepsInv(s, now, pulseUs);
      case _ => OthersKeepInv(s, step);
    }
  }

  // ---- Runs --------------------------------------------------------------

  ghost predicate TimelyRun(s: System, steps: seq<Step>)
    decreases |steps|
  {
    steps != [] ==> Timely(s, steps[0]) && TimelyRun(Move(s, steps[0]), steps[1..])
  }

  lemma {:induction false} InvHolds(s: System, steps: seq<Step>)
    requires Inv(s) && TimelyRun(s, steps)
    ensures Inv(RunFrom(s, steps))
    decreases |steps|
  {
    if steps != [] {
      KeepsInv(s, steps[0]);
      InvHolds(Move(s, steps[0]), steps[1..]);
    }
  }

  /** Triggers, winners, completions and readings go in step; the readings are the winners' pairs. */
  ghost predicate OneEach(s: System) {
    && s.emitted <= s.wins
    && |s.emitted| <= s.dones <= |s.wins| <= s.triggers <= |s.emitted| + 1
    && (s.sleepArmed ==> s.emitted == s.wins && s.triggers == s.dones == |s.wins|)
  }

  /**
   * Each trigger leads to one winner, one completion callback and one emitted reading, in step, and
   * the emitted readings are the winners' pairs in order; back asleep, the counts agree exactly.
   */
  lemma OneReadingPerTrigger(steps: seq<Step>)
    requires TimelyRun(Started, steps)
    ensures OneEach(RunFrom(Started, steps))
  {
    InvHolds(Started, steps);
    InvOneEach(RunFrom(Started, steps));
  }

  lemma InvOneEach(s: System)
    requires Inv(s)
    ensures OneEach(s)
  {
  }

  /** Neither the interrupt nor the thread ever meets a publish in progress, so no load retries. */
  lemma LoadsNeverRetry(steps: seq<Step>)
    requires TimelyRun(Started, steps)
    ensures var s := RunFrom(Started, steps);
      && (s.isr.IsrFirst? || (s.isr.Off? && s.thread.ReadFirst?) ==> s.seqNo % 2 == 0)
      && (s.isr.IsrSecond? ==> s.isr.seq1 == s.seqNo)
      && (s.isr.Off? && s.thread.ReadSecond? ==> s.thread.seq1 == s.seqNo)
  {
    InvHolds(Started, steps);
  }

  /** Every store of the thread's publishes is made with the echo interrupt off. */
  lemma ThreadPublishesUndisturbed(steps: seq<Step>)
    requires TimelyRun(Started, steps) && RunFrom(Started, steps).thread.Publish?
    ensures !RunFrom(Started, steps).irq && RunFrom(Started, steps).isr.Off?
  {
    InvHolds(Started, steps);
  }

  // ---- Progress ----------------------------------------------------------

  /** How many steps the work-queue thread has left in hand, with the read it will queue. */
  function ThreadRank(t: Thread): nat {
    match t
    case Publish(why, k, _) =>
      if k > 4 then 0 else if why == ForTrigger then 12 - k else if why == ForTimeout then 13 - k else 0
    case ClearRising => 7
    case EnableIrq => 6
    case PulseTrigger => 5
    case ArmTimeout => 4
    case ClaimTimeout => 1
    case DisableIrq => 14
    case StopTimeout => 8
    case SubmitRead => 7
    case ReadFirst => 5
    case ReadState(_) => 4
    case ReadDistance(_, _) => 3
    case ReadSecond(_, _, _) => 2
    case EmitReading(_) => 1
    case _ => 0
  }

  function IsrRank(i: Isr): nat {
    match i
    case Off => 0
    case IsrFirst(_) => 7
    case IsrState(_, _) => 6
    case IsrDistance(_, _, _) => 5
    case IsrSecond(_, _, _) => 4
    case IsrDecide(_, _) => 3
    case IsrClaim(_) => 2
    case IsrDisable(_) => 14
    case IsrPublish(_, k, _) => if k > 4 then 0 else 13 - k
    case IsrStop => 8
    case IsrSubmit => 7
  }

  /** The steps left until the reading of the current trigger, edges of the echo aside. */
  function Rank(s: System): nat {
    (if s.resolved then 0 else 15) + ThreadRank(s.thread) + IsrRank(s.isr) + (if s.timeoutArmed then 3 else 0)
    + (if TimeoutElapsed in s.queue then 2 else 0) + (if ReadSample in s.queue then 6 else 0)
  }

  ghost predicate Pending(s: System) {
    s.triggers > |s.emitted|
  }

  /** The reading is out, or nearer by at least one step. */
  ghost predicate Nearer(s: System, t: System) {
    || |t.emitted| > |s.emitted|
    || (|t.emitted| == |s.emitted| && t.triggers == s.triggers && Rank(t) < Rank(s))
  }

  lemma RestingNearer(s: System)
    requires Inv(s) && Pending(s) && s.isr.Off? && s.thread.Resting? && s.queue != []
    ensures Nearer(s, ThreadMove(s))
  {
    assert s.queue == [TimeoutElapsed] || s.queue == [ReadSample] || s.queue == [TimeoutElapsed, ReadSample];
    assert [TimeoutElapsed, ReadSample][1..] == [ReadSample];
  }

  lemma PublishNearer(s: System)
    requires Inv(s) && Pending(s) && s.isr.Off? && s.thread.Publish?
    ensures Nearer(s, ThreadMove(s))
  {
  }

  lemma TriggerNearer(s: System)
    requires Inv(s) && Pending(s) && s.isr.Off?
    requires s.thread.ClearResolved? || s.thread.ClearRising? || s.thread.EnableIrq? || Unguarded(s)
    ensures Nearer(s, ThreadMove(s))
  {
  }

  lemma TimeoutNearer(s: System)
    requires Inv(s) && Pending(s) && s.isr.Off?
    requires s.thread.ClaimTimeout? || s.thread.DisableIrq? || s.thread.StopTimeout? || s.thread.SubmitRead?
    ensures Nearer(s, ThreadMove(s))
  {
  }

  lemma ReadNearer(s: System)
    requires Inv(s) && Pending(s) && s.isr.Off?
    requires s.thread.ReadFirst? || s.thread.ReadState? || s.thread.ReadDistance? || s.thread.ReadSecond?
          || s.thread.EmitReading? || s.thread.ResetResolved? || s.thread.ScheduleSleep?
    ensures Nearer(s, ThreadMove(s))
  {
  }

  lemma ThreadNearer(s: System)
    requires Inv(s) && Pending(s) && s.isr.Off? && ThreadMove(s) != s
    ensures Nearer(s, ThreadMove(s))
  {
    if s.thread.Resting? {
      RestingNearer(s);
    } else if s.thread.Publish? {
      PublishNearer(s);
    } else if s.thread.ClearResolved? || s.thread.ClearRising? || s.thread.EnableIrq? || Unguarded(s) {
      TriggerNearer(s);
    } else if s.thread.ClaimTimeout? || s.thread.DisableIrq? || s.thread.StopTimeout? || s.thread.SubmitRead? {
      TimeoutNearer(s);
    } else {
      ReadNearer(s);
    }
  }

  /** An interrupt that runs either looks at an edge of a settled driver or has won. */
  lemma IsrKinds(s: System)
    requires Inv(s) && !s.isr.Off?
    ensures (Scanning(s) && Even(s)) || EchoWinning(s)
  {
  }

  lemma LoadNearer(s: System, now: uint32, pulseUs: uint32)
    requires Scanning(s) && Even(s) && !s.isr.Off? && !s.isr.IsrDecide? && !s.isr.IsrClaim?
    ensures Nearer(s, IsrMove(s, now, pulseUs))
  {
  }

  lemma DecideNearer(s: System, now: uint32, pulseUs: uint32)
    requires s.isr.IsrDecide? || s.isr.IsrClaim?
    ensures Nearer(s, IsrMove(s, now, pulseUs))
  {
  }

  lemma WinNearer(s: System, now: uint32, pulseUs: uint32)
    requires EchoWinning(s)
    ensures Nearer(s, IsrMove(s, now, pulseUs))
  {
  }

  lemma IsrNearer(s: System, now: uint32, pulseUs: uint32)
    requires Inv(s) && !s.isr.Off?
    ensures Nearer(s, IsrMove(s, now, pulseUs))
  {
    IsrKinds(s);
    if EchoWinning(s) {
      WinNearer(s, now, pulseUs);
    } else if s.isr.IsrDecide? || s.isr.IsrClaim? {
      DecideNearer(s, now, pulseUs);
    } else {
      LoadNearer(s, now, pulseUs);
    }
  }

  /** Every step that does anything, edges aside, emits the reading or brings it nearer. */
  lemma StepNearer(s: System, step: Step)
    requires Inv(s) && Pending(s) && !step.EchoEdge? && Move(s, step) != s
    ensures Nearer(s, Move(s, step))
  {
    match step {
      case ThreadStep => ThreadNearer(s);
      case IsrStep(now, pulseUs) => IsrNearer(s, now, pulseUs);
      case _ =>
    }
  }

  /** Every step of the run changes something, and none is an edge. */
  ghost predicate Busy(s: System, steps: seq<Step>)
    decreases |steps|
  {
    steps != [] ==> !steps[0].EchoEdge? && Move(s, steps[0]) != s && Busy(Move(s, steps[0]), steps[1..])
  }

  /** However its steps are interleaved, a trigger's reading is out within Rank steps that are no edges. */
  lemma {:induction false} ReadingWithinRank(s: System, steps: seq<Step>) returns (n: nat)
    requires Inv(s) && Pending(s) && Busy(s, steps) && |steps| >= Rank(s)
    ensures n <= Rank(s) && |RunFrom(s, steps[..n]).emitted| > |s.emitted|
    decreases |steps|
  {
    RankBound(s);
    var t, rest := Move(s, steps[0]), steps[1..];
    StepNearer(s, steps[0]);
    if |t.emitted| > |s.emitted| {
      n := 1;
      assert steps[..1][1..] == [];
    } else {
      KeepsInv(s, steps[0]);
      var m := ReadingWithinRank(t, rest);
      n := m + 1;
      assert steps[..n][1..] == rest[..m];
    }
  }

  /** A trigger without its reading always has a step left that does something and is no edge. */
  lemma NeverStuck(s: System) returns (step: Step)
    requires Inv(s) && Pending(s)
    ensures !step.EchoEdge? && Move(s, step) != s
  {
    step := if !s.isr.Off? then IsrStep(0, 0)
            else if s.thread.Resting? && s.queue == [] then TimeoutFires
            else ThreadStep;
    if s.isr.Off? && s.thread.Resting? && s.queue != [] {
      assert |TakeWork(s).queue| < |s.queue|;
    }
  }

  lemma RankBound(s: System)
    requires Inv(s) && Pending(s)
    ensures 0 < Rank(s) <= 27
  {
  }

  // ---- Why the echo must not beat the timeout's arming -------------------

  ghost predicate Reaches(r: System, t: System) {
    exists steps :: TimelyRun(r, steps) && RunFrom(r, steps) == t
  }

  lemma {:induction false} RunAppend(s: System, steps: seq<Step>, step: Step)
    requires TimelyRun(s, steps) && Timely(RunFrom(s, steps), step)
    ensures TimelyRun(s, steps + [step]) && RunFrom(s, steps + [step]) == Move(RunFrom(s, steps), step)
    decreases |steps|
  {
    if steps != [] {
      RunAppend(Move(s, steps[0]), steps[1..], step);
      assert (steps + [step])[1..] == steps[1..] + [step];
    }
  }

  lemma Go(r: System, s: System, step: Step, t: System)
    requires Reaches(r, s) && Timely(s, step) && t == Move(s, step)
    ensures Reaches(r, t)
  {
    var steps :| TimelyRun(r, steps) && RunFrom(r, steps) == s;
    RunAppend(r, steps, step);
  }

  lemma PublishBegins(r: System, s: System, why: Purpose) returns (t: System)
    requires Reaches(r, s) && s.isr.Off? && s.thread == Publish(why, 0, 0)
    ensures Reaches(r, t) && t == s.(seqNo := s.seqNo + 1, thread := Publish(why, 2, s.seqNo))
  {
    var a := s.(thread := Publish(why, 1, s.seqNo));
    Go(r, s, ThreadStep, a);
    t := s.(seqNo := s.seqNo + 1, thread := Publish(why, 2, s.seqNo));
    Go(r, a, ThreadStep, t);
  }

  /** Five steps of the thread publish a pair and move on. */
  lemma PublishRuns(r: System, s: System, why: Purpose) returns (t: System)
    requires Reaches(r, s) && s.isr.Off? && s.thread == Publish(why, 0, 0)
    ensures Reaches(r, t)
    ensures t == s.(seqNo := s.seqNo + 2, pair := Target(why), thread := AfterPublish(why))
  {
    var b := PublishBegins(r, s, why);
    var c := PublishStores(r, b, why);
    t := c.(seqNo := s.seqNo + 2, thread := AfterPublish(why));
    Go(r, c, ThreadStep, t);
  }

  lemma PublishStores(r: System, s: System, why: Purpose) returns (t: System)
    requires Reaches(r, s) && s.isr.Off? && s.thread.Publish? && s.thread.why == why && s.thread.k == 2
    ensures Reaches(r, t) && t == s.(pair := Target(why), thread := Publish(why, 4, s.thread.seq0))
  {
    var q, p := s.thread.seq0, Target(why);
    var c := s.(pair := Pair(p.state, s.pair.distance), thread := Publish(why, 3, q));
    Go(r, s, ThreadStep, c);
    t := s.(pair := p, thread := Publish(why, 4, q));
    Go(r, c, ThreadStep, t);
  }

  /** Five steps of the interrupt publish its reading. */
  lemma EchoPublishRuns(r: System, s: System, d: uint16) returns (t: System)
    requires Reaches(r, s) && s.isr == IsrPublish(d, 0, 0)
    ensures Reaches(r, t)
    ensures t == s.(seqNo := s.seqNo + 2, pair := Pair(InRange, d), isr := IsrStop)
  {
    var b := EchoPublishBegins(r, s, d);
    var e := EchoPublishStores(r, b, d);
    t := e.(seqNo := s.seqNo + 2, isr := IsrStop);
    Go(r, e, IsrStep(0, 0), t);
  }

  lemma EchoPublishBegins(r: System, s: System, d: uint16) returns (t: System)
    requires Reaches(r, s) && s.isr == IsrPublish(d, 0, 0)
    ensures Reaches(r, t) && t == s.(seqNo := s.seqNo + 1, isr := IsrPublish(d, 2, s.seqNo))
  {
    var a := s.(isr := IsrPublish(d, 1, s.seqNo));
    Go(r, s, IsrStep(0, 0), a);
    t := s.(seqNo := s.seqNo + 1, isr := IsrPublish(d, 2, s.seqNo));
    Go(r, a, IsrStep(0, 0), t);
  }

  lemma EchoPublishStores(r: System, s: System, d: uint16) returns (t: System)
    requires Reaches(r, s) && s.isr.IsrPublish? && s.isr.d == d && s.isr.k == 2
    ensures Reaches(r, t) && t == s.(pair := Pair(InRange, d), isr := IsrPublish(d, 4, s.isr.seq0))
  {
    var q := s.isr.seq0;
    var c := s.(pair := Pair(InRange, s.pair.distance), isr := IsrPublish(d, 3, q));
    Go(r, s, IsrStep(0, 0), c);
    t := s.(pair := Pair(InRange, d), isr := IsrPublish(d, 4, q));
    Go(r, c, IsrStep(0, 0), t);
  }

  /** The handler of an edge loads the state of a settled driver. */
  lemma EdgeRuns(r: System, s: System, high: bool) returns (t: System)
    requires Reaches(r, s) && s.isr == IsrFirst(high) && Even(s)
    ensures Reaches(r, t) && t == s.(isr := IsrDecide(high, s.pair.state))
  {
    var q, st := s.seqNo, s.pair.state;
    Go(r, s, IsrStep(0, 0), s.(isr := IsrState(high, q)));
    Go(r, s.(isr := IsrState(high, q)), IsrStep(0, 0), s.(isr := IsrDistance(high, q, st)));
    Go(r, s.(isr := IsrDistance(high, q, st)), IsrStep(0, 0), s.(isr := IsrSecond(high, q, st)));
    t := s.(isr := IsrDecide(high, st));
    Go(r, s.(isr := IsrSecond(high, q, st)), IsrStep(0, 0), t);
  }

  /** The thread takes a queued read. */
  lemma ReadBegins(r: System, s: System) returns (t: System)
    requires Reaches(r, s) && s.isr.Off? && s.thread.Resting? && s.queue == [ReadSample] && Even(s)
    ensures Reaches(r, t) && t == s.(queue := [], thread := ReadDistance(s.seqNo, s.pair.state))
  {
    var taken := s.(queue := []);
    Go(r, s, ThreadStep, taken.(thread := ReadFirst));
    Go(r, taken.(thread := ReadFirst), ThreadStep, taken.(thread := ReadState(s.seqNo)));
    t := taken.(thread := ReadDistance(s.seqNo, s.pair.state));
    Go(r, taken.(thread := ReadState(s.seqNo)), ThreadStep, t);
  }

  /** A queued read emits the settled pair. */
  lemma ReadRuns(r: System, s: System) returns (t: System)
    requires Reaches(r, s) && s.isr.Off? && s.thread.Resting? && s.queue == [ReadSample] && Even(s)
    ensures Reaches(r, t)
    ensures t == s.(queue := [], emitted := s.emitted + [s.pair], thread := ResetResolved)
  {
    var q, st, d := s.seqNo, s.pair.state, s.pair.distance;
    var a := ReadBegins(r, s);
    Go(r, a, ThreadStep, a.(thread := ReadSecond(q, st, d)));
    Go(r, a.(thread := ReadSecond(q, st, d)), ThreadStep, a.(thread := EmitReading(s.pair)));
    t := a.(emitted := s.emitted + [s.pair], thread := ResetResolved);
    Go(r, a.(thread := EmitReading(s.pair)), ThreadStep, t);
  }

  /** After emission the driver is reset and the next sleep is scheduled. */
  lemma ResetRuns(r: System, s: System) returns (t: System)
    requires Reaches(r, s) && s.isr.Off? && s.thread.ResetResolved?
    ensures Reaches(r, t)
    ensures t == s.(seqNo := s.seqNo + 2, pair := Pair(Idle, 0), resolved := false, sleepArmed := true,
                    thread := Resting)
  {
    t := s.(resolved := false, thread := Publish(ForReset, 0, 0));
    Go(r, s, ThreadStep, t);
    t := PublishRuns(r, t, ForReset);
    Go(r, t, ThreadStep, t.(sleepArmed := true, thread := Resting));
    t := t.(sleepArmed := true, thread := Resting);
  }

  /** A stale timeout in an idle driver is claimed, published and queued for reading. */
  lemma StaleTimeoutRuns(r: System, s: System) returns (t: System)
    requires Reaches(r, s) && s.isr.Off? && s.thread.Resting? && s.queue == []
    requires s.timeoutArmed && !s.resolved
    ensures Reaches(r, t)
    ensures t == s.(seqNo := s.seqNo + 2, pair := Pair(TimedOut, 0), resolved := true, irq := false,
                    timeoutArmed := false, queue := [ReadSample], wins := s.wins + [Pair(TimedOut, 0)],
                    dones := s.dones + 1)
  {
    var c := StaleTimeoutClaims(r, s);
    var d := c.(irq := false, thread := Publish(ForTimeout, 0, 0));
    Go(r, c, ThreadStep, d);
    var e := PublishRuns(r, d, ForTimeout);
    var f := e.(dones := s.dones + 1, thread := SubmitRead);
    Go(r, e, ThreadStep, f);
    t := f.(queue := [ReadSample], thread := Resting);
    Go(r, f, ThreadStep, t);
  }

  lemma StaleTimeoutClaims(r: System, s: System) returns (t: System)
    requires Reaches(r, s) && s.isr.Off? && s.thread.Resting? && s.queue == []
    requires s.timeoutArmed && !s.resolved
    ensures Reaches(r, t)
    ensures t == s.(resolved := true, timeoutArmed := false, wins := s.wins + [Pair(TimedOut, 0)],
                    thread := DisableIrq)
  {
    var a := s.(timeoutArmed := false, queue := [TimeoutElapsed]);
    Go(r, s, TimeoutFires, a);
    var b := a.(queue := [], thread := ClaimTimeout);
    Go(r, a, ThreadStep, b);
    t := b.(resolved := true, wins := s.wins + [Pair(TimedOut, 0)], thread := DisableIrq);
    Go(r, b, ThreadStep, t);
  }

  /** The interrupt's claim, from there to its end, with the thread held up. */
  lemma EchoRuns(r: System, s: System, d: uint16) returns (t: System)
    requires Reaches(r, s) && s.isr == IsrClaim(d) && !s.resolved && s.queue == []
    ensures Reaches(r, t)
    ensures t == s.(seqNo := s.seqNo + 2, pair := Pair(InRange, d), resolved := true, irq := false, isr := Off,
                    timeoutArmed := false, queue := [ReadSample], wins := s.wins + [Pair(InRange, d)],
                    dones := s.dones + 1)
  {
    var b := s.(resolved := true, wins := s.wins + [Pair(InRange, d)], isr := IsrDisable(d));
    Go(r, s, IsrStep(0, 0), b);
    var c := b.(irq := false, isr := IsrPublish(d, 0, 0));
    Go(r, b, IsrStep(0, 0), c);
    var e := EchoPublishRuns(r, c, d);
    var f := e.(timeoutArmed := false, dones := s.dones + 1, isr := IsrSubmit);
    Go(r, e, IsrStep(0, 0), f);
    t := f.(queue := [ReadSample], isr := Off);
    Go(r, f, IsrStep(0, 0), t);
  }

  /** The thread goes on to arm the timeout. */
  lemma ArmRuns(r: System, s: System) returns (t: System)
    requires Reaches(r, s) && s.isr.Off? && Unguarded(s)
    ensures Reaches(r, t) && t == s.(timeoutArmed := true, thread := Resting)
  {
    t := s.(thread := ArmTimeout);
    if s.thread.PulseTrigger? {
      Go(r, s, ThreadStep, t);
    }
    Go(r, t, ThreadStep, t.(timeoutArmed := true, thread := Resting));
    t := t.(timeoutArmed := true, thread := Resting);
  }

  /** A falling edge that ends an echo of 5800 us before the timeout is armed. */
  lemma EarlyEchoRuns(r: System, s: System) returns (t: System)
    requires Inv(s) && Unguarded(s) && s.isr.Off? && s.rising != 0 && r == Move(s, EchoEdge(false))
    ensures Reaches(r, t)
    ensures t == s.(seqNo := s.seqNo + 2, pair := Pair(InRange, 1000), resolved := true, irq := false,
                    timeoutArmed := true, queue := [ReadSample], wins := s.wins + [Pair(InRange, 1000)],
                    dones := s.dones + 1, thread := Resting)
  {
    assert RunFrom(r, []) == r && TimelyRun(r, []);
    var b := EdgeRuns(r, r, false);
    var c := s.(isr := IsrClaim(1000));
    Go(r, b, IsrStep(0, 5800), c);
    var e := EchoRuns(r, c, 1000);
    t := ArmRuns(r, e);
  }

  /** From any such state one trigger goes on to emit two readings, the second a false timeout. */
  lemma EarlyEchoEmitsTwice(s: System) returns (t: System)
    requires Inv(s) && Unguarded(s) && s.isr.Off? && s.rising != 0
    ensures Reaches(Move(s, EchoEdge(false)), t)
    ensures t.triggers == s.triggers == |s.emitted| + 1
    ensures t.emitted == s.emitted + [Pair(InRange, 1000), Pair(TimedOut, 0)]
  {
    var r := Move(s, EchoEdge(false));
    t := EarlyEchoRuns(r, s);
    t := ReadRuns(r, t);
    t := ResetRuns(r, t);
    t := StaleTimeoutRuns(r, t);
    t := ReadRuns(r, t);
  }

  /**
   * The timing assumption is exact. In any state of a cycle a step is harmless, whatever timely steps
   * follow, if and only if it is not the end of an echo before the timeout is armed.
   */
  lemma TimelyIsExact(s: System, step: Step)
    requires Inv(s)
    ensures Timely(s, step)
       <==> forall steps :: TimelyRun(Move(s, step), steps) ==> OneEach(RunFrom(Move(s, step), steps))
  {
    var r := Move(s, step);
    if Timely(s, step) {
      KeepsInv(s, step);
      forall steps | TimelyRun(r, steps) ensures OneEach(RunFrom(r, steps)) {
        InvHolds(r, steps);
        InvOneEach(RunFrom(r, steps));
      }
    } else {
      var t := EarlyEchoEmitsTwice(s);
      var steps :| TimelyRun(r, steps) && RunFrom(r, steps) == t;
      assert !OneEach(RunFrom(r, steps));
    }
  }

  // ---- Such a state is reached -------------------------------------------

  /** The sensor wakes up and warms up. */
  lemma WakeRuns() returns (t: System)
    ensures Reaches(Started, t) && t == Started.(sleepArmed := false, thread := ClearResolved)
  {
    assert RunFrom(Started, []) == Started && TimelyRun(Started, []);
    var a := Started.(sleepArmed := false, queue := [SleepElapsed]);
    Go(Started, Started, SleepFires, a);
    var b := a.(queue := [], warmupArmed := true);
    Go(Started, a, ThreadStep, b);
    var c := a.(queue := [WarmupElapsed]);
    Go(Started, b, WarmupFires, c);
    t := Started.(sleepArmed := false, thread := ClearResolved);
    Go(Started, c, ThreadStep, t);
  }

  /** The pulse has started: the echo interrupt is on and the timeout is not armed yet. */
  lemma PulseRuns() returns (t: System)
    ensures Reaches(Started, t)
    ensures t == Started.(seqNo := 2, pair := Pair(InFlight, 0), irq := true, sleepArmed := false,
                          thread := PulseTrigger, triggers := 1)
  {
    var a := WakeRuns();
    var b := a.(triggers := 1, thread := Publish(ForTrigger, 0, 0));
    Go(Started, a, ThreadStep, b);
    var c := PublishRuns(Started, b, ForTrigger);
    Go(Started, c, ThreadStep, c.(thread := EnableIrq));
    t := c.(irq := true, thread := PulseTrigger);
    Go(Started, c.(thread := EnableIrq), ThreadStep, t);
  }

  /** From power-on a timely run leads to a state in which the next falling edge is early. */
  lemma EarlyEchoIsReached() returns (t: System)
    ensures Reaches(Started, t) && Inv(t) && !Timely(t, EchoEdge(false))
  {
    var a := PulseRuns();
    Go(Started, a, EchoEdge(true), a.(isr := IsrFirst(true)));
    var b := EdgeRuns(Started, a.(isr := IsrFirst(true)), true);
    t := a.(rising := 1);
    Go(Started, b, IsrStep(1, 0), t);
    var steps :| TimelyRun(Started, steps) && RunFrom(Started, steps) == t;
    InvHolds(Started, steps);
  }
}
