/**
 * The edge node's sequence counter across reboots, and what the fog tier's replay table
 * makes of it.
 */
module EdgeSequence {
  import opened Basics

  const SEQ_STEP := 1000

  /** The counter in memory and the value in flash. */
  datatype Edge = Edge(live: uint32, persisted: uint32)

  function Boot(e: Edge): Edge {
    Edge(e.persisted, Wrap32(e.persisted + SEQ_STEP))
  }

  function Send(e: Edge): Edge {
    var next := Wrap32(e.live + 1);
    Edge(next, if next % SEQ_STEP == 0 then next else e.persisted)
  }

  class CoapService {
    var seqId: uint32
    var persisted: uint32

    /** A factory-fresh flash holds no sequence, which reads as zero. */
    constructor ()
      ensures View() == Edge(0, 0)
    {
      seqId, persisted := 0, 0;
    }

    ghost function View(): Edge
      reads this
    {
      Edge(seqId, persisted)
    }

    /** Boot: resume from flash and push the flash value one step ahead. */
    method Init()
      modifies this
      ensures View() == Boot(old(View()))
    {
      seqId := persisted;
      persisted := Wrap32(seqId + SEQ_STEP);
    }

    /** Send one reading under the current sequence; nothing moves if it cannot be signed. */
    method SendSensorData(signed: bool) returns (sent: Option<uint32>)
      modifies this
      ensures sent == if signed then Some(old(seqId)) else None
      ensures View() == if signed then Send(old(View())) else old(View())
    {
      if !signed {
        return None;
      }
      sent := Some(seqId);
      seqId := Wrap32(seqId + 1);
      if seqId % SEQ_STEP == 0 {
        persisted := seqId;
      }
    }
  }

  // ---- Runs of boots -----------------------------------------------------

  /** The node and every sequence it has sent so far. */
  datatype Trace = Trace(edge: Edge, sent: seq<uint32>)

  function SendMany(t: Trace, n: nat): Trace {
    if n == 0 then t
    else
      var before := SendMany(t, n - 1);
      Trace(Send(before.edge), before.sent + [before.edge.live])
  }

  /** A run: each boot sends so many readings and then loses power. */
  function RunBoots(boots: seq<nat>): Trace {
    if boots == [] then Trace(Edge(0, 0), [])
    else
      var before := RunBoots(boots[..|boots| - 1]);
      SendMany(Trace(Boot(before.edge), before.sent), boots[|boots| - 1])
  }

  /** How far flash moves over a boot that sends n readings. */
  function Advance(n: nat): nat {
    if n < SEQ_STEP then SEQ_STEP else n / SEQ_STEP * SEQ_STEP
  }

  function StartOf(boots: seq<nat>): nat {
    if boots == [] then 0 else StartOf(boots[..|boots| - 1]) + Advance(boots[|boots| - 1])
  }

  function Count(from: nat, n: nat): (s: seq<nat>)
    ensures |s| == n && forall i :: 0 <= i < n ==> s[i] == from + i
  {
    seq(n, i requires 0 <= i < n => from + i)
  }

  function Expected(boots: seq<nat>): seq<nat> {
    if boots == [] then []
    else Expected(boots[..|boots| - 1]) + Count(StartOf(boots[..|boots| - 1]), boots[|boots| - 1])
  }

  /** Flash holds a whole number of steps, at most one step ahead of the counter and less than one behind. */
  ghost predicate InStep(e: Edge) {
    e.persisted % SEQ_STEP == 0 && e.persisted - e.live <= SEQ_STEP && e.live - e.persisted < SEQ_STEP
  }

  lemma {:induction false} SendManyEffect(t: Trace, n: nat)
    requires t.edge.live % SEQ_STEP == 0 && t.edge.persisted == t.edge.live + SEQ_STEP
    requires t.edge.live + n + SEQ_STEP < 0x1_0000_0000
    ensures SendMany(t, n).edge == Edge(t.edge.live + n, t.edge.live + Advance(n))
    ensures SendMany(t, n).sent == t.sent + Count(t.edge.live, n)
  {
    if n > 0 {
      SendManyEffect(t, n - 1);
      SendOnce(t.edge.live, n);
      assert Count(t.edge.live, n) == Count(t.edge.live, n - 1) + [t.edge.live + n - 1];
    }
  }

  /** The n-th send of a boot: flash moves exactly when the count reaches a whole step. */
  lemma SendOnce(base: nat, n: nat)
    requires n > 0 && base % SEQ_STEP == 0 && base + n + SEQ_STEP < 0x1_0000_0000
    ensures base + Advance(n - 1) < 0x1_0000_0000 && base + Advance(n) < 0x1_0000_0000
    ensures Send(Edge(base + n - 1, base + Advance(n - 1))) == Edge(base + n, base + Advance(n))
  {
    assert (base + n) % SEQ_STEP == n % SEQ_STEP;
  }

  lemma AdvanceInStep(base: nat, n: nat)
    requires base % SEQ_STEP == 0 && base + n + SEQ_STEP < 0x1_0000_0000
    ensures base + Advance(n) < 0x1_0000_0000 && InStep(Edge(base + n, base + Advance(n)))
  {
  }

  lemma {:induction false} StartOfWhole(boots: seq<nat>)
    ensures StartOf(boots) % SEQ_STEP == 0
  {
    if boots != [] {
      StartOfWhole(boots[..|boots| - 1]);
    }
  }

  /** The counter stays clear of its 32-bit limit throughout the run. */
  ghost predicate NoWrap(boots: seq<nat>) {
    boots != [] ==>
      && NoWrap(boots[..|boots| - 1])
      && StartOf(boots[..|boots| - 1]) + boots[|boots| - 1] + SEQ_STEP < 0x1_0000_0000
  }

  /** Without 32-bit wrap the machine sends exactly the expected sequences and stays in step. */
  lemma {:induction false} RunIsExpected(boots: seq<nat>)
    requires NoWrap(boots)
    ensures RunBoots(boots).edge.persisted == StartOf(boots)
    ensures boots != [] ==> InStep(RunBoots(boots).edge)
    ensures RunBoots(boots).sent == Expected(boots)
  {
    if boots != [] {
      var front, n := boots[..|boots| - 1], boots[|boots| - 1];
      RunIsExpected(front);
      StartOfWhole(front);
      var start := StartOf(front);
      var booted := Trace(Boot(RunBoots(front).edge), Expected(front));
      assert booted.edge == Edge(start, start + SEQ_STEP);
      SendManyEffect(booted, n);
      AdvanceInStep(start, n);
    }
  }

  // ---- When sequences repeat ---------------------------------------------

  /** A boot that runs past a whole number of steps, more than one, leaves flash behind the counter. */
  predicate Overran(n: nat) {
    n > SEQ_STEP && n % SEQ_STEP != 0
  }

  /** No boot that overran is followed by one that sends anything. */
  ghost predicate Rested(boots: seq<nat>) {
    forall k :: 0 <= k < |boots| - 1 && Overran(boots[k]) ==> boots[k + 1] == 0
  }

  ghost predicate Increasing(s: seq<nat>) {
    forall i, j :: 0 <= i < j < |s| ==> s[i] < s[j]
  }

  lemma {:induction false} SentBound(boots: seq<nat>)
    ensures forall x :: x in Expected(boots) ==>
      x < StartOf(boots) + if boots != [] && Overran(boots[|boots| - 1]) then SEQ_STEP else 0
  {
    if boots != [] {
      SentBound(boots[..|boots| - 1]);
    }
  }

  lemma IncreasingAppend(s: seq<nat>, from: nat, n: nat)
    requires Increasing(s) && forall x :: x in s ==> x < from
    ensures Increasing(s + Count(from, n))
  {
    forall i, j | 0 <= i < j < |s| + n ensures (s + Count(from, n))[i] < (s + Count(from, n))[j] {
      assert i < |s| ==> s[i] in s;
    }
  }

  lemma {:induction false} RestedIncreases(boots: seq<nat>)
    requires Rested(boots)
    ensures Increasing(Expected(boots))
  {
    if boots != [] {
      var m := |boots| - 1;
      var front := boots[..m];
      RestedIncreases(front);
      SentBound(front);
      if boots[m] == 0 {
        assert Expected(boots) == Expected(front);
      } else {
        IncreasingAppend(Expected(front), StartOf(front), boots[m]);
      }
    }
  }

  lemma {:induction false} ExpectedPrefix(boots: seq<nat>, k: nat)
    requires k <= |boots|
    ensures Expected(boots[..k]) <= Expected(boots)
  {
    if k < |boots| {
      ExpectedPrefix(boots[..|boots| - 1], k);
      assert boots[..|boots| - 1][..k] == boots[..k];
    } else {
      assert boots[..k] == boots;
    }
  }

  lemma ExpectedRepeats(boots: seq<nat>, k: nat)
    requires k + 1 < |boots| && Overran(boots[k]) && boots[k + 1] > 0
    ensures Repeats(Expected(boots))
  {
    var a, b, c := boots[..k], boots[..k + 1], boots[..k + 2];
    assert b[..k] == a && c[..k + 1] == b;
    var i, j := |Expected(a)| + Advance(boots[k]), |Expected(b)|;
    assert Expected(b)[i] == StartOf(b);
    assert Expected(c)[i] == StartOf(b) && Expected(c)[j] == StartOf(b);
    ExpectedPrefix(boots, k + 2);
    assert Expected(boots)[i] == Expected(c)[i] && Expected(boots)[j] == Expected(c)[j];
  }

  ghost predicate Repeats(s: seq<nat>) {
    exists i, j :: 0 <= i < j < |s| && s[i] == s[j]
  }

  /** The first sequence of the boot after an overrun has been sent before. */
  lemma OverrunRepeats(boots: seq<nat>, k: nat)
    requires NoWrap(boots) && k + 1 < |boots| && Overran(boots[k]) && boots[k + 1] > 0
    ensures Repeats(RunBoots(boots).sent)
  {
    RunIsExpected(boots);
    ExpectedRepeats(boots, k);
  }

  /** A node repeats a sequence exactly when some overrun boot is followed by a boot that sends. */
  lemma NoRepeatsIffRested(boots: seq<nat>)
    requires NoWrap(boots)
    ensures !Repeats(RunBoots(boots).sent) <==> Rested(boots)
  {
    RunIsExpected(boots);
    if Rested(boots) {
      RestedIncreases(boots);
    } else {
      var k :| 0 <= k < |boots| - 1 && Overran(boots[k]) && boots[k + 1] != 0;
      ExpectedRepeats(boots, k);
    }
  }

  /** In particular boots of at most one step each send strictly rising sequences. */
  lemma ShortBootsNeverRepeat(boots: seq<nat>)
    requires NoWrap(boots) && forall k :: 0 <= k < |boots| ==> boots[k] <= SEQ_STEP
    ensures Increasing(RunBoots(boots).sent)
  {
    RunIsExpected(boots);
    RestedIncreases(boots);
  }
}
