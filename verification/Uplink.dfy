/** Hex text in caller-supplied buffers: the AT command for an uplink and the parser for a downlink. */
module Uplink {
  import opened Basics
  import opened Wire

  const MSG_START := "AT+MSGHEX=\""
  const MSG_END := "\""

  // ---- Hex ---------------------------------------------------------------

  /** The uppercase hex digit of a value. */
  function HexChar(v: nat): (c: char)
    requires v < 16
    ensures HexValue(c) == Some(v) && Nibble(c) == v
  {
    if v < 10 then ('0' as int + v) as char else ('A' as int + v - 10) as char
  }

  lemma HexDigits(v: nat)
    requires v < 16
    ensures HexChar(v) == "0123456789ABCDEF"[v]
  {
  }

  function HexOf(bytes: seq<uint8>): (text: string)
    ensures |text| == 2 * |bytes|
  {
    if bytes == [] then []
    else
      var last := bytes[|bytes| - 1];
      HexOf(bytes[..|bytes| - 1]) + [HexChar(last / 16), HexChar(last % 16)]
  }

  /** The value of a hex digit of either case. */
  function HexValue(c: char): (v: Option<nat>)
    ensures v.Some? ==> v.value < 16
  {
    if '0' <= c <= '9' then Some(c as int - '0' as int)
    else if 'A' <= c <= 'F' then Some(c as int - 'A' as int + 10)
    else if 'a' <= c <= 'f' then Some(c as int - 'a' as int + 10)
    else None
  }

  predicate IsHex(text: string) {
    forall i :: 0 <= i < |text| ==> HexValue(text[i]).Some?
  }

  /** The value of a digit known to be hex. */
  function Nibble(c: char): (v: nat)
    ensures v < 16
  {
    if HexValue(c).Some? then HexValue(c).value else 0
  }

  /** The bytes a text of hex digit pairs stands for. */
  function BytesOf(text: string): (bytes: seq<uint8>)
    ensures 2 * |bytes| <= |text| <= 2 * |bytes| + 1
  {
    var n := |text|;
    if n < 2 then [] else BytesOf(text[..n - 2]) + [16 * Nibble(text[n - 2]) + Nibble(text[n - 1])]
  }

  lemma BytesOfPair(text: string, high: char, low: char, x: uint8)
    requires 16 * Nibble(high) + Nibble(low) == x
    ensures BytesOf(text + [high, low]) == BytesOf(text) + [x]
  {
    assert (text + [high, low])[..|text|] == text;
  }

  lemma {:induction false} HexIsHex(bytes: seq<uint8>)
    ensures IsHex(HexOf(bytes))
  {
    if bytes != [] {
      HexIsHex(bytes[..|bytes| - 1]);
    }
  }

  lemma HexPair(x: uint8)
    ensures 16 * Nibble(HexChar(x / 16)) + Nibble(HexChar(x % 16)) == x
  {
  }

  lemma HexStep(front: seq<uint8>, last: uint8)
    ensures BytesOf(HexOf(front + [last])) == BytesOf(HexOf(front)) + [last]
  {
    var bytes := front + [last];
    assert bytes[..|bytes| - 1] == front;
    HexPair(last);
    BytesOfPair(HexOf(front), HexChar(last / 16), HexChar(last % 16), last);
  }

  /** Printing bytes as hex and reading them back is the identity. */
  lemma {:induction false} HexRoundTrip(bytes: seq<uint8>)
    ensures IsHex(HexOf(bytes)) && BytesOf(HexOf(bytes)) == bytes
  {
    HexIsHex(bytes);
    if bytes != [] {
      var front, last := bytes[..|bytes| - 1], bytes[|bytes| - 1];
      assert bytes == front + [last];
      HexRoundTrip(front);
      HexStep(front, last);
    }
  }

  // ---- Building the command ----------------------------------------------

  /** Print bytes as uppercase hex from position `from` of a buffer, if they fit. */
  method ToHex(bytes: seq<uint8>, out: array<char>, from: nat) returns (size: Option<nat>)
    requires from <= out.Length
    modifies out
    ensures size == if out.Length - from < 2 * |bytes| then None else Some(2 * |bytes|)
    ensures size.None? ==> out[..] == old(out[..])
    ensures size.Some? ==> out[..] == old(out[..from]) + HexOf(bytes) + old(out[from + 2 * |bytes|..])
  {
    if out.Length - from < 2 * |bytes| {
      return None;
    }
    for i := 0 to |bytes|
      invariant out[..from] == old(out[..from])
      invariant out[from..from + 2 * i] == HexOf(bytes[..i])
      invariant out[from + 2 * |bytes|..] == old(out[from + 2 * |bytes|..])
    {
      var at := from + 2 * i;
      out[at] := HexChar(bytes[i] / 16);
      out[at + 1] := HexChar(bytes[i] % 16);
      assert bytes[..i + 1][..i] == bytes[..i];
      assert out[from..at + 2] == out[from..at] + [out[at], out[at + 1]];
    }
    assert bytes[..|bytes|] == bytes;
    assert out[..] == out[..from] + out[from..from + 2 * |bytes|] + out[from + 2 * |bytes|..];
    return Some(2 * |bytes|);
  }

  /** Copy text into a buffer at a position. */
  method Put(text: string, out: array<char>, from: nat)
    requires from + |text| <= out.Length
    modifies out
    ensures out[..] == old(out[..from]) + text + old(out[from + |text|..])
  {
    for i := 0 to |text|
      invariant out[..from] == old(out[..from])
      invariant out[from..from + i] == text[..i]
      invariant out[from + |text|..] == old(out[from + |text|..])
    {
      out[from + i] := text[i];
      assert out[from..from + i + 1] == out[from..from + i] + [text[i]];
    }
    assert out[..] == out[..from] + out[from..from + |text|] + out[from + |text|..];
  }

  function CommandFor(p: Payload): string
    requires WellFormed(p)
  {
    MSG_START + HexOf(WireBytes(p)) + MSG_END
  }

  /** Write start, hex and end one after the other; the buffer has been found large enough. */
  method Assemble(start: string, bytes: seq<uint8>, end: string, out: array<char>) returns (size: nat)
    requires |start| + 2 * |bytes| + |end| <= out.Length
    modifies out
    ensures size == |start| + 2 * |bytes| + |end|
    ensures out[..] == start + HexOf(bytes) + end + old(out[size..])
  {
    ghost var before := out[..];
    Put(start, out, 0);
    assert out[..] == start + before[|start|..];
    var hex := ToHex(bytes, out, |start|);
    assert out[..] == start + HexOf(bytes) + before[|start| + 2 * |bytes|..];
    size := |start| + 2 * |bytes| + |end|;
    Put(end, out, |start| + 2 * |bytes|);
    assert out[..] == start + HexOf(bytes) + end + before[size..];
  }

  /** Build the AT command in a buffer; refused, with the buffer untouched, exactly when it does not fit. */
  method BuildUplink(p: Payload, out: array<char>) returns (size: Option<nat>)
    requires WellFormed(p)
    modifies out
    ensures size == if out.Length < |CommandFor(p)| then None else Some(|CommandFor(p)|)
    ensures size.None? ==> out[..] == old(out[..])
    ensures size.Some? ==> out[..] == CommandFor(p) + old(out[|CommandFor(p)|..])
  {
    var bytes := WireBytes(p);
    if out.Length < |MSG_START| + 2 * |bytes| + |MSG_END| {
      return None;
    }
    var n := Assemble(MSG_START, bytes, MSG_END, out);
    return Some(n);
  }

  /** What the modem receives between the quotes decodes to the very bytes of the payload. */
  lemma UplinkRoundTrip(p: Payload)
    requires WellFormed(p)
    ensures var c := CommandFor(p);
      var text := c[|MSG_START|..|c| - |MSG_END|];
      |text| % 2 == 0 && IsHex(text) && BytesOf(text) == WireBytes(p)
  {
    HexRoundTrip(WireBytes(p));
    assert CommandFor(p)[|MSG_START|..|CommandFor(p)| - |MSG_END|] == HexOf(WireBytes(p));
  }

  // ---- Reading a downlink ------------------------------------------------

  predicate IsPayload(token: string) {
    token != [] && |token| % 2 == 0 && IsHex(token)
  }

  /** The buffer once the first k bytes of a token are decoded into it. */
  ghost function Decoding(token: string, was: seq<uint8>, k: nat): seq<uint8>
    requires 2 * k <= |token| && k <= |was|
  {
    BytesOf(token[..2 * k]) + was[k..]
  }

  lemma PrefixStep(token: string, j: nat, x: uint8)
    requires j + 1 < |token| && x == 16 * Nibble(token[j]) + Nibble(token[j + 1])
    ensures BytesOf(token[..j + 2]) == BytesOf(token[..j]) + [x]
  {
    BytesOfPair(token[..j], token[j], token[j + 1], x);
    assert token[..j + 2] == token[..j] + [token[j], token[j + 1]];
  }

  lemma DecodingStep(token: string, was: seq<uint8>, k: nat, x: uint8)
    requires 2 * k + 1 < |token| && k < |was| && x == 16 * Nibble(token[2 * k]) + Nibble(token[2 * k + 1])
    ensures Decoding(token, was, k)[k := x] == Decoding(token, was, k + 1)
  {
    PrefixStep(token, 2 * k, x);
    OneMore(BytesOf(token[..2 * k]), was, x);
  }

  /** Overwriting the first byte not yet replaced. */
  lemma OneMore(done: seq<uint8>, was: seq<uint8>, x: uint8)
    requires |done| < |was|
    ensures (done + was[|done|..])[|done| := x] == done + [x] + was[|done| + 1..]
  {
  }

  /** Decode one hex token into the buffer, as much as fits. */
  method DecodeToken(token: string, downlink: array<uint8>) returns (decoded: nat)
    requires IsPayload(token)
    modifies downlink
    ensures decoded == if |token| / 2 < downlink.Length then |token| / 2 else downlink.Length
    ensures downlink[..] == BytesOf(token)[..decoded] + old(downlink[decoded..])
  {
    decoded := 0;
    var j := 0;
    while j + 1 < |token| && decoded < downlink.Length
      invariant j == 2 * decoded <= |token| && decoded <= downlink.Length
      invariant downlink[..] == Decoding(token, old(downlink[..]), decoded)
    {
      var byte: uint8 := 16 * Nibble(token[j]) + Nibble(token[j + 1]);
      DecodingStep(token, old(downlink[..]), decoded, byte);
      downlink[decoded] := byte;
      decoded, j := decoded + 1, j + 2;
    }
    BytesOfPrefix(token, decoded);
  }

  lemma {:induction false} BytesOfPrefix(text: string, k: nat)
    requires |text| % 2 == 0 && 2 * k <= |text|
    ensures BytesOf(text[..2 * k]) == BytesOf(text)[..k]
  {
    if 2 * k == |text| {
      assert text[..2 * k] == text;
    } else {
      BytesOfPrefix(text[..|text| - 2], k);
      assert text[..|text| - 2][..2 * k] == text[..2 * k];
    }
  }

  /** Store the first hex token of a downlink line; other tokens are skipped. */
  method HandleDownlink(tokens: seq<string>, downlink: array<uint8>) returns (len: Option<nat>)
    modifies downlink
    ensures len.None? ==> downlink[..] == old(downlink[..])
    ensures len.None? <==> downlink.Length == 0 || forall i :: 0 <= i < |tokens| ==> !IsPayload(tokens[i])
    ensures len.Some? ==>
      && 0 < len.value <= downlink.Length
      && exists i :: 0 <= i < |tokens| && IsPayload(tokens[i])
           && (forall k :: 0 <= k < i ==> !IsPayload(tokens[k]))
           && len.value <= |tokens[i]| / 2
           && (len.value < downlink.Length ==> len.value == |tokens[i]| / 2)
           && downlink[..] == BytesOf(tokens[i])[..len.value] + old(downlink[len.value..])
  {
    if downlink.Length == 0 {
      return None;
    }
    for i := 0 to |tokens|
      invariant downlink[..] == old(downlink[..])
      invariant forall k :: 0 <= k < i ==> !IsPayload(tokens[k])
    {
      if IsPayload(tokens[i]) {
        var decoded := DecodeToken(tokens[i], downlink);
        return Some(decoded);
      }
    }
    return None;
  }
}
