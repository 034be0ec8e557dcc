/**
 * The LoRaWAN uplink on the wire: packed little-endian payload, hex text, and the
 * network server's decoder, with the round trips between them.
 */
module Wire {
  import opened Basics

  const MAX_ENTRIES := 3
  const HEADER_SIZE := 22
  const ENTRY_SIZE := 16

  type uint64 = x: int | 0 <= x < 0x1_0000_0000_0000_0000

  // ---- Little-endian integers --------------------------------------------

  function Pow256(n: nat): (p: nat)
    ensures p > 0
  {
    if n == 0 then 1 else 256 * Pow256(n - 1)
  }

  function LittleEndian(x: nat, n: nat): (b: seq<uint8>)
    ensures |b| == n
  {
    if n == 0 then [] else [x % 256] + LittleEndian(x / 256, n - 1)
  }

  /** The n bytes at offset o, least significant first. */
  function ReadLE(b: seq<uint8>, o: nat, n: nat): nat
    requires o + n <= |b|
    decreases n
  {
    if n == 0 then 0 else b[o] + 256 * ReadLE(b, o + 1, n - 1)
  }

  lemma {:induction false} ReadWritten(b: seq<uint8>, o: nat, x: nat, n: nat)
    requires x < Pow256(n) && o + n <= |b| && b[o..o + n] == LittleEndian(x, n)
    ensures ReadLE(b, o, n) == x
    decreases n
  {
    if n > 0 {
      var w := LittleEndian(x, n);
      assert b[o] == b[o..o + n][0] == x % 256;
      assert b[o + 1..o + n] == b[o..o + n][1..] == w[1..] == LittleEndian(x / 256, n - 1);
      ReadWritten(b, o + 1, x / 256, n - 1);
    }
  }

  lemma Widths()
    ensures Pow256(2) == 0x1_0000 && Pow256(4) == 0x1_0000_0000 && Pow256(8) == 0x1_0000_0000_0000_0000
  {
    assert Pow256(1) == 256;
    assert Pow256(3) == 256 * Pow256(2);
    assert Pow256(5) == 256 * Pow256(4);
    assert Pow256(6) == 256 * Pow256(5);
    assert Pow256(7) == 256 * Pow256(6);
  }

  // ---- Payload -----------------------------------------------------------

  datatype Entry = Entry(device: uint64, level: uint16, validity: uint8, detail: uint8, timestamp: uint32)

  datatype Payload = Payload(
    nodeId: uint64, term: uint32, logIndex: uint32, sequence: uint32, alert: uint8, count: uint8,
    entries: seq<Entry>)

  ghost predicate WellFormed(p: Payload) {
    p.count <= MAX_ENTRIES == |p.entries|
  }

  function EntryBytes(e: Entry): (b: seq<uint8>)
    ensures |b| == ENTRY_SIZE
  {
    LittleEndian(e.device, 8) + LittleEndian(e.level, 2) + [e.validity, e.detail] + LittleEndian(e.timestamp, 4)
  }

  function HeaderBytes(p: Payload): (b: seq<uint8>)
    ensures |b| == HEADER_SIZE
  {
    LittleEndian(p.nodeId, 8) + LittleEndian(p.term, 4) + LittleEndian(p.logIndex, 4)
    + LittleEndian(p.sequence, 4) + [p.alert, p.count]
  }

  function EntriesBytes(es: seq<Entry>): (b: seq<uint8>)
    ensures |b| == ENTRY_SIZE * |es|
  {
    if es == [] then [] else EntriesBytes(es[..|es| - 1]) + EntryBytes(es[|es| - 1])
  }

  /** The prefix of the packed payload that is sent: the header and the entries in use. */
  function WireBytes(p: Payload): (b: seq<uint8>)
    requires WellFormed(p)
    ensures |b| == HEADER_SIZE + p.count * ENTRY_SIZE
  {
    HeaderBytes(p) + EntriesBytes(p.entries[..p.count])
  }

  // ---- The network server's decoder --------------------------------------

  datatype Decoded = Decoded(
    nodeId: nat, term: nat, logIndex: nat, sequence: nat, alert: bool, count: nat,
    entries: seq<DecodedEntry>, tooShort: bool)

  datatype DecodedEntry = DecodedEntry(
    device: nat, level: nat, validity: uint8, outlier: bool, detail: uint8, timestamp: nat)

  function DecodeEntry(b: seq<uint8>, off: nat): DecodedEntry
    requires off + ENTRY_SIZE <= |b|
  {
    DecodedEntry(ReadLE(b, off, 8), ReadLE(b, off + 8, 2), b[off + 10], b[off + 11] / 16 % 2 == 1, b[off + 11],
                 ReadLE(b, off + 12, 4))
  }

  /** How many whole entries the bytes hold, up to the count they claim. */
  function EntriesPresent(b: seq<uint8>): (n: nat)
    requires |b| >= HEADER_SIZE
    ensures n <= b[21] && HEADER_SIZE + n * ENTRY_SIZE <= |b|
    ensures n < b[21] ==> |b| < HEADER_SIZE + (n + 1) * ENTRY_SIZE
  {
    if |b| < HEADER_SIZE + b[21] * ENTRY_SIZE then (|b| - HEADER_SIZE) / ENTRY_SIZE else b[21]
  }

  /** Decode any bytes: refuse less than a header, clamp a count that claims too much. */
  method DecodeUplink(b: seq<uint8>) returns (r: Option<Decoded>)
    ensures r.None? <==> |b| < HEADER_SIZE
    ensures r.Some? ==> var d := r.value;
      && d.nodeId == ReadLE(b, 0, 8) && d.term == ReadLE(b, 8, 4) && d.logIndex == ReadLE(b, 12, 4)
      && d.sequence == ReadLE(b, 16, 4) && d.alert == (b[20] == 1)
      && d.count == |d.entries| == EntriesPresent(b) && d.tooShort == (EntriesPresent(b) < b[21])
      && forall i :: 0 <= i < d.count ==> d.entries[i] == DecodeEntry(b, HEADER_SIZE + i * ENTRY_SIZE)
  {
    if |b| < HEADER_SIZE {
      return None;
    }
    var count: nat, tooShort := b[21], false;
    if |b| < HEADER_SIZE + count * ENTRY_SIZE {
      tooShort := true;
      count := (|b| - HEADER_SIZE) / ENTRY_SIZE;
    }
    var entries: seq<DecodedEntry> := [];
    for i := 0 to count
      invariant |entries| == i
      invariant forall k :: 0 <= k < i ==> entries[k] == DecodeEntry(b, HEADER_SIZE + k * ENTRY_SIZE)
    {
      var off := HEADER_SIZE + i * ENTRY_SIZE;
      entries := entries + [DecodeEntry(b, off)];
    }
    r := Some(Decoded(ReadLE(b, 0, 8), ReadLE(b, 8, 4), ReadLE(b, 12, 4), ReadLE(b, 16, 4), b[20] == 1,
                      count, entries, tooShort));
  }

  /** Reading back one entry written at an offset. */
  lemma EntryRoundTrip(b: seq<uint8>, off: nat, e: Entry)
    requires off + ENTRY_SIZE <= |b| && b[off..off + ENTRY_SIZE] == EntryBytes(e)
    ensures DecodeEntry(b, off)
         == DecodedEntry(e.device, e.level, e.validity, e.detail / 16 % 2 == 1, e.detail, e.timestamp)
  {
    Widths();
    var w := EntryBytes(e);
    assert forall k :: 0 <= k < ENTRY_SIZE ==> b[off + k] == b[off..off + ENTRY_SIZE][k] == w[k];
    assert b[off..off + 8] == w[..8] == LittleEndian(e.device, 8);
    assert b[off + 8..off + 10] == w[8..10] == LittleEndian(e.level, 2);
    assert b[off + 12..off + 16] == w[12..16] == LittleEndian(e.timestamp, 4);
    assert b[off + 10] == w[10] == e.validity && b[off + 11] == w[11] == e.detail;
    ReadWritten(b, off, e.device, 8);
    ReadWritten(b, off + 8, e.level, 2);
    ReadWritten(b, off + 12, e.timestamp, 4);
  }

  /** Bytes that begin with five parts, taken apart again. */
  lemma Parts(b: seq<uint8>, u: seq<uint8>, v: seq<uint8>, w: seq<uint8>, x: seq<uint8>, y: seq<uint8>)
    requires |u + v + w + x + y| <= |b| && b[..|u + v + w + x + y|] == u + v + w + x + y
    ensures var j, k, l, m := |u|, |u| + |v|, |u| + |v| + |w|, |u| + |v| + |w| + |x|;
      b[0..j] == u && b[j..k] == v && b[k..l] == w && b[l..m] == x && b[m..m + |y|] == y
  {
    var all := u + v + w + x + y;
    assert forall i :: 0 <= i < |all| ==> b[i] == b[..|all|][i] == all[i];
  }

  lemma HeaderRoundTrip(b: seq<uint8>, p: Payload)
    requires |b| >= HEADER_SIZE && b[..HEADER_SIZE] == HeaderBytes(p)
    ensures ReadLE(b, 0, 8) == p.nodeId && ReadLE(b, 8, 4) == p.term && ReadLE(b, 12, 4) == p.logIndex
    ensures ReadLE(b, 16, 4) == p.sequence && b[20] == p.alert && b[21] == p.count
  {
    Widths();
    Parts(b, LittleEndian(p.nodeId, 8), LittleEndian(p.term, 4), LittleEndian(p.logIndex, 4),
          LittleEndian(p.sequence, 4), [p.alert, p.count]);
    assert b[20..22] == [p.alert, p.count];
    ReadWritten(b, 0, p.nodeId, 8);
    ReadWritten(b, 8, p.term, 4);
    ReadWritten(b, 12, p.logIndex, 4);
    ReadWritten(b, 16, p.sequence, 4);
  }

  lemma {:induction false} EntriesSlice(es: seq<Entry>, i: nat)
    requires i < |es|
    ensures EntriesBytes(es)[i * ENTRY_SIZE..i * ENTRY_SIZE + ENTRY_SIZE] == EntryBytes(es[i])
  {
    if i < |es| - 1 {
      EntriesSlice(es[..|es| - 1], i);
    }
  }

  /** The decoder restores every field of every payload that is sent. */
  lemma DecodeRestores(p: Payload)
    requires WellFormed(p)
    ensures var b := WireBytes(p);
      && ReadLE(b, 0, 8) == p.nodeId && ReadLE(b, 8, 4) == p.term && ReadLE(b, 12, 4) == p.logIndex
      && ReadLE(b, 16, 4) == p.sequence && b[20] == p.alert && EntriesPresent(b) == b[21] == p.count
      && forall i :: 0 <= i < p.count ==>
           var e := p.entries[i];
           DecodeEntry(b, HEADER_SIZE + i * ENTRY_SIZE)
             == DecodedEntry(e.device, e.level, e.validity, e.detail / 16 % 2 == 1, e.detail, e.timestamp)
  {
    var b := WireBytes(p);
    HeaderRoundTrip(b, p);
    forall i | 0 <= i < p.count
      ensures var e := p.entries[i];
        DecodeEntry(b, HEADER_SIZE + i * ENTRY_SIZE)
          == DecodedEntry(e.device, e.level, e.validity, e.detail / 16 % 2 == 1, e.detail, e.timestamp)
    {
      EntryOnWire(p, i);
      EntryRoundTrip(b, HEADER_SIZE + i * ENTRY_SIZE, p.entries[i]);
    }
  }

  /** Where an entry lies in the bytes sent. */
  lemma EntryOnWire(p: Payload, i: nat)
    requires WellFormed(p) && i < p.count
    ensures var off := HEADER_SIZE + i * ENTRY_SIZE;
      off + ENTRY_SIZE <= |WireBytes(p)| && WireBytes(p)[off..off + ENTRY_SIZE] == EntryBytes(p.entries[i])
  {
    var es := p.entries[..p.count];
    EntriesSlice(es, i);
    SliceAfter(HeaderBytes(p), EntriesBytes(es), i * ENTRY_SIZE, ENTRY_SIZE);
  }

  lemma SliceAfter(head: seq<uint8>, tail: seq<uint8>, from: nat, n: nat)
    requires from + n <= |tail|
    ensures (head + tail)[|head| + from..|head| + from + n] == tail[from..from + n]
  {
  }
}
