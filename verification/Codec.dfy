/**
 The two wire formats, nested: a link packet is a type byte, a 32-bit number and a payload; the
 payload of a link message is a broadcast message: author, number and text.
 */
module Codec {
  import opened Types

  const TWO32 := 0x1_0000_0000
  const LINK_PREFIX := 5
  const BROADCAST_PREFIX := 8
  const MAX_DATAGRAM := 14
  const KIND_ACK: byte := 0
  const KIND_MSG: byte := 1

  datatype LinkPacket = Msg(k: nat, payload: Bytes) | AckOf(k: nat)

  // ------------------------------------------------------------------------------------------
  // Unsigned 32-bit integers in memory order, low byte first

  function Put32(x: nat): (b: Bytes)
    ensures |b| == 4
  {
    [x % 256, x / 256 % 256, x / 65536 % 256, x / 16777216 % 256]
  }

  function Get32(b: Bytes): (x: nat)
    requires |b| == 4
    ensures x < TWO32
  {
    b[0] as int + 256 * b[1] as int + 65536 * b[2] as int + 16777216 * b[3] as int
  }

  lemma PutGet32(x: nat)
    requires x < TWO32
    ensures Get32(Put32(x)) == x
  {
    assert x / 65536 == x / 256 / 256;
    assert x / 16777216 == x / 256 / 256 / 256;
  }

  lemma GetPut32(b: Bytes)
    requires |b| == 4
    ensures Put32(Get32(b)) == b
  {
    var x := Get32(b);
    var b0: int, b1: int, b2: int, b3: int := b[0], b[1], b[2], b[3];
    var y := b1 + 256 * b2 + 65536 * b3;
    var z := b2 + 256 * b3;
    assert x == b0 + 256 * y && x / 256 == y && x % 256 == b0;
    assert y == b1 + 256 * z && y / 256 == z && y % 256 == b1;
    assert x / 65536 == x / 256 / 256;
    assert x / 16777216 == x / 65536 / 256;
  }

  // ------------------------------------------------------------------------------------------
  // Formats

  function LinkSerialize(k: nat, payload: Bytes): Bytes {
    [KIND_MSG] + Put32(k) + payload
  }

  function AckSerialize(k: nat): Bytes {
    [KIND_ACK] + Put32(k)
  }

  function LinkParse(bytes: Bytes): Option<LinkPacket> {
    if |bytes| < LINK_PREFIX then None
    else if bytes[0] == KIND_MSG then Some(Msg(Get32(bytes[1..5]), bytes[5..]))
    else if bytes[0] == KIND_ACK then Some(AckOf(Get32(bytes[1..5])))
    else None
  }

  function BroadcastSerialize(m: Message): Bytes {
    Put32(m.id.author) + Put32(m.id.num) + m.payload
  }

  function BroadcastParse(bytes: Bytes): Option<Message> {
    if |bytes| < BROADCAST_PREFIX then None
    else Some(Message(MsgId(Get32(bytes[..4]), Get32(bytes[4..8])), bytes[8..]))
  }

  // ------------------------------------------------------------------------------------------
  // The layout, byte by byte

  lemma ByteOff(x: nat)
    ensures x == x % 256 + 256 * (x / 256)
    ensures x / 65536 == x / 256 / 256
    ensures x / 16777216 == x / 65536 / 256
  {
  }

  lemma Remainder(x: nat, r: nat, q: nat)
    requires x == r + 4294967296 * q && r < 4294967296
    ensures x % 4294967296 == r
  {
  }

  lemma Digits32(x: nat)
    ensures var b := Put32(x);
            b[0] as int + 256 * b[1] as int + 65536 * b[2] as int + 16777216 * b[3] as int == x % 0x1_0000_0000
  {
    var y, z, w := x / 256, x / 65536, x / 16777216;
    ByteOff(x);
    ByteOff(y);
    ByteOff(z);
    ByteOff(w);
    var b := Put32(x);
    hide Put32;
    assert b[0] as int == x % 256 && b[1] as int == y % 256 && b[2] as int == z % 256 && b[3] as int == w % 256;
    var r := b[0] as int + 256 * b[1] as int + 65536 * b[2] as int + 16777216 * b[3] as int;
    Remainder(x, r, w / 256);
  }

  /** The four bytes from `at` on are the base-256 digits of x modulo 2^32, low byte first. */
  predicate DigitsAt(b: Bytes, at: nat, x: nat)
    requires at + 4 <= |b|
  {
    b[at] as int + 256 * b[at + 1] as int + 65536 * b[at + 2] as int + 16777216 * b[at + 3] as int == x % 0x1_0000_0000
  }

  /** A message is a byte 1, its number and its payload; an ack is a byte 0 and its number, 5 bytes in all. */
  lemma LinkLayout(k: nat, payload: Bytes)
    ensures var b := LinkSerialize(k, payload);
            |b| == 5 + |payload| && b[0] == 1 && DigitsAt(b, 1, k) && b[5..] == payload
    ensures var a := AckSerialize(k);
            |a| == 5 && a[0] == 0 && DigitsAt(a, 1, k)
  {
    hide Put32;
    Digits32(k);
  }

  /** The author, then the author's running number, then the text. */
  lemma BroadcastLayout(m: Message)
    ensures var b := BroadcastSerialize(m);
            |b| == 8 + |m.payload| && DigitsAt(b, 0, m.id.author) && DigitsAt(b, 4, m.id.num) && b[8..] == m.payload
  {
    hide Put32;
    Digits32(m.id.author);
    Digits32(m.id.num);
  }

  /** Exactly which bytes are refused, which are messages and which are acks, and what is read. */
  lemma ParseLayout(bytes: Bytes)
    ensures LinkParse(bytes).None? <==> |bytes| < 5 || bytes[0] > 1
    ensures |bytes| >= 5 && bytes[0] == 1 ==>
              exists k :: LinkParse(bytes) == Some(Msg(k, bytes[5..])) && k < 0x1_0000_0000 && DigitsAt(bytes, 1, k)
    ensures |bytes| >= 5 && bytes[0] == 0 ==>
              exists k :: LinkParse(bytes) == Some(AckOf(k)) && k < 0x1_0000_0000 && DigitsAt(bytes, 1, k)
    ensures BroadcastParse(bytes).None? <==> |bytes| < 8
    ensures |bytes| >= 8 ==>
              exists a, k :: BroadcastParse(bytes) == Some(Message(MsgId(a, k), bytes[8..]))
                          && a < 0x1_0000_0000 && k < 0x1_0000_0000 && DigitsAt(bytes, 0, a) && DigitsAt(bytes, 4, k)
  {
    if |bytes| >= 5 {
      assert DigitsAt(bytes, 1, Get32(bytes[1..5]));
    }
    if |bytes| >= 8 {
      assert DigitsAt(bytes, 0, Get32(bytes[..4])) && DigitsAt(bytes, 4, Get32(bytes[4..8]));
    }
  }

  // ------------------------------------------------------------------------------------------
  // Round trips

  lemma LinkRoundTrip(k: nat, payload: Bytes)
    requires k < TWO32
    ensures LinkParse(LinkSerialize(k, payload)) == Some(Msg(k, payload))
    ensures LinkParse(AckSerialize(k)) == Some(AckOf(k))
  {
    hide Put32, Get32;
    PutGet32(k);
    assert LinkSerialize(k, payload)[1..5] == Put32(k);
    assert LinkSerialize(k, payload)[5..] == payload;
    assert AckSerialize(k)[1..5] == Put32(k);
  }

  lemma BroadcastRoundTrip(m: Message)
    requires m.id.author < TWO32 && m.id.num < TWO32
    ensures BroadcastParse(BroadcastSerialize(m)) == Some(m)
  {
    hide Put32, Get32;
    PutGet32(m.id.author);
    PutGet32(m.id.num);
    var b := BroadcastSerialize(m);
    assert b[..4] == Put32(m.id.author);
    assert b[4..8] == Put32(m.id.num);
    assert b[8..] == m.payload;
  }

  /** Parsing both layers recovers number, author, running number and text; acks never look like messages. */
  lemma NestedRoundTrip(k: nat, m: Message)
    requires k < TWO32 && m.id.author < TWO32 && m.id.num < TWO32
    ensures var p := LinkParse(LinkSerialize(k, BroadcastSerialize(m)));
            p.Some? && p.value.Msg? && p.value.k == k && BroadcastParse(p.value.payload) == Some(m)
    ensures LinkParse(AckSerialize(k)) == Some(AckOf(k))
    ensures |LinkSerialize(k, BroadcastSerialize(m))| <= MAX_DATAGRAM <==> |m.payload| <= 1
    ensures |AckSerialize(k)| <= MAX_DATAGRAM
  {
    LinkRoundTrip(k, BroadcastSerialize(m));
    BroadcastRoundTrip(m);
  }

  /** Any bytes parsed as a message re-serialize to the same bytes, at both layers. */
  lemma ParsedReserializes(bytes: Bytes)
    ensures LinkParse(bytes).Some? && LinkParse(bytes).value.Msg? ==>
              LinkSerialize(LinkParse(bytes).value.k, LinkParse(bytes).value.payload) == bytes
    ensures BroadcastParse(bytes).Some? ==> BroadcastSerialize(BroadcastParse(bytes).value) == bytes
  {
    hide Put32, Get32;
    if |bytes| >= LINK_PREFIX {
      GetPut32(bytes[1..5]);
      assert bytes == [bytes[0]] + bytes[1..5] + bytes[5..];
    }
    if |bytes| >= BROADCAST_PREFIX {
      GetPut32(bytes[..4]);
      GetPut32(bytes[4..8]);
      assert bytes == bytes[..4] + bytes[4..8] + bytes[8..];
    }
  }

  // ------------------------------------------------------------------------------------------
  // The buffers

  /** `std::copy` of src into the buffer at an offset. */
  method CopyInto(src: Bytes, buffer: array<byte>, at: nat)
    requires at + |src| <= buffer.Length
    modifies buffer
    ensures buffer[..] == old(buffer[..at]) + src + old(buffer[at + |src|..])
  {
    for i := 0 to |src|
      invariant forall j :: 0 <= j < i ==> buffer[at + j] == src[j]
      invariant forall j :: 0 <= j < buffer.Length && !(at <= j < at + i) ==> buffer[j] == old(buffer[j])
    {
      buffer[at + i] := src[i];
    }
  }

  /** The link layer's `Serialize`: fills the front of the buffer and leaves the rest alone. */
  method SerializeLink(k: nat, payload: Bytes, buffer: array<byte>) returns (len: nat)
    requires LINK_PREFIX + |payload| <= buffer.Length
    modifies buffer
    ensures len == |LinkSerialize(k, payload)| <= buffer.Length
    ensures buffer[..] == LinkSerialize(k, payload) + old(buffer[len..])
    ensures len == 5 + |payload| && buffer[0] == 1 && DigitsAt(buffer[..], 1, k)
  {
    hide Put32;
    LinkLayout(k, payload);
    CopyInto([KIND_MSG], buffer, 0);
    assert buffer[..1] == [KIND_MSG];
    CopyInto(Put32(k), buffer, 1);
    assert buffer[..LINK_PREFIX] == [KIND_MSG] + Put32(k);
    assert buffer[LINK_PREFIX..] == old(buffer[LINK_PREFIX..]);
    CopyInto(payload, buffer, LINK_PREFIX);
    len := LINK_PREFIX + |payload|;
  }

  /** The broadcast layer's `Serialize`. */
  method SerializeBroadcast(m: Message, buffer: array<byte>) returns (len: nat)
    requires BROADCAST_PREFIX + |m.payload| <= buffer.Length
    modifies buffer
    ensures len == |BroadcastSerialize(m)| <= buffer.Length
    ensures buffer[..] == BroadcastSerialize(m) + old(buffer[len..])
    ensures len == 8 + |m.payload| && DigitsAt(buffer[..], 0, m.id.author) && DigitsAt(buffer[..], 4, m.id.num)
  {
    hide Put32;
    BroadcastLayout(m);
    CopyInto(Put32(m.id.author), buffer, 0);
    assert buffer[..4] == Put32(m.id.author);
    CopyInto(Put32(m.id.num), buffer, 4);
    assert buffer[..BROADCAST_PREFIX] == Put32(m.id.author) + Put32(m.id.num);
    assert buffer[BROADCAST_PREFIX..] == old(buffer[BROADCAST_PREFIX..]);
    CopyInto(m.payload, buffer, BROADCAST_PREFIX);
    len := BROADCAST_PREFIX + |m.payload|;
  }

  /** `std::copy` through a back inserter. */
  method CopyOut(bytes: Bytes, from: nat, to: nat) returns (out: Bytes)
    requires from <= to <= |bytes|
    ensures out == bytes[from..to]
  {
    out := [];
    for i := from to to
      invariant out == bytes[from..i]
    {
      out := out + [bytes[i]];
    }
  }

  /** The link layer's `Parse`. */
  method ParseLink(bytes: Bytes) returns (r: Option<LinkPacket>)
    ensures r == LinkParse(bytes)
    ensures r.None? <==> |bytes| < 5 || bytes[0] > 1
    ensures r.Some? && r.value.Msg? ==> LinkSerialize(r.value.k, r.value.payload) == bytes
  {
    hide Get32, Put32;
    ParsedReserializes(bytes);
    if |bytes| < LINK_PREFIX {
      return None;
    }
    var id := CopyOut(bytes, 1, 5);
    if bytes[0] == KIND_MSG {
      var payload := CopyOut(bytes, LINK_PREFIX, |bytes|);
      assert payload == bytes[5..];
      return Some(Msg(Get32(id), payload));
    } else if bytes[0] == KIND_ACK {
      return Some(AckOf(Get32(id)));
    }
    return None;
  }

  /** The broadcast layer's `Parse`. */
  method ParseBroadcast(bytes: Bytes) returns (r: Option<Message>)
    ensures r == BroadcastParse(bytes)
    ensures r.None? <==> |bytes| < 8
    ensures r.Some? ==> BroadcastSerialize(r.value) == bytes
  {
    hide Get32, Put32;
    ParsedReserializes(bytes);
    if |bytes| < BROADCAST_PREFIX {
      return None;
    }
    var author := CopyOut(bytes, 0, 4);
    var num := CopyOut(bytes, 4, 8);
    var payload := CopyOut(bytes, BROADCAST_PREFIX, |bytes|);
    assert author == bytes[..4] && payload == bytes[8..];
    return Some(Message(MsgId(Get32(author), Get32(num)), payload));
  }
}
