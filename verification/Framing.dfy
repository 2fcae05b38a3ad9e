/** The wire format between library and proxy: a 4-byte big-endian length, then a type byte and a
    payload.  Control payloads are JSON text, which is opaque here. */
module Framing {
  import opened Arithmetic
  import opened Base

  const MSG_TYPE_CONTROL: Byte := 0
  const MSG_TYPE_FRAME: Byte := 1
  const TWO_TO_THE_32: nat := 0x1_0000_0000

  datatype Message = Control(payload: seq<Byte>) | Frame(payload: seq<Byte>)

  datatype Decoded = Ok(message: Message) | EmptyMessage | UnknownType(tag: Byte)

  function Encode(m: Message): seq<Byte> {
    match m
    case Control(json) => [MSG_TYPE_CONTROL] + json
    case Frame(frame) => [MSG_TYPE_FRAME] + frame
  }

  function Decode(data: seq<Byte>): Decoded {
    if data == [] then EmptyMessage
    else if data[0] == MSG_TYPE_CONTROL then Ok(Control(data[1..]))
    else if data[0] == MSG_TYPE_FRAME then Ok(Frame(data[1..]))
    else UnknownType(data[0])
  }

  /** Decoding inverts encoding, and nothing but an encoding is decoded. */
  lemma DecodeInvertsEncode(m: Message, data: seq<Byte>)
    ensures Decode(Encode(m)) == Ok(m)
    ensures Decode(data) == Ok(m) <==> data == Encode(m)
  {
  }

  // ---------------------------------------------------------------- the length prefix

  /** How a length is written in front of a message, and read. */
  datatype Codec = Codec(put: nat -> seq<Byte>, get: seq<Byte> -> nat)

  /** Four bytes, one length below 2^32 for each. */
  ghost predicate Lawful(c: Codec) {
    && (forall n: nat :: |c.put(n)| == 4)
    && (forall n: nat :: n < TWO_TO_THE_32 ==> c.get(c.put(n)) == n)
    && (forall b: seq<Byte> :: |b| == 4 ==> c.get(b) < TWO_TO_THE_32 && c.put(c.get(b)) == b)
  }

  /** `(n as u32).to_be_bytes()`: lengths from 2^32 on wrap. */
  function BigEndian(n: nat): (r: seq<Byte>)
    ensures |r| == 4
  {
    [(n / 0x100_0000) % 256, (n / 0x1_0000) % 256, (n / 0x100) % 256, n % 256]
  }

  /** `u32::from_be_bytes`. */
  function FromBigEndian(b: seq<Byte>): nat
    requires |b| == 4
  {
    var high: int := b[0];
    ((high * 256 + b[1]) * 256 + b[2]) * 256 + b[3]
  }

  lemma LengthRoundTrip(n: nat)
    ensures FromBigEndian(BigEndian(n)) == n % TWO_TO_THE_32
  {
    var (n1, n2, n3) := (n / 0x100, n / 0x1_0000, n / 0x100_0000);
    assert n2 == n1 / 256 && n3 == n2 / 256;
    ModStep(n2, 256);
    ModStep(n1, 0x1_0000);
    ModStep(n, 0x100_0000);
  }

  lemma BytesRoundTrip(b: seq<Byte>)
    requires |b| == 4
    ensures FromBigEndian(b) < TWO_TO_THE_32 && BigEndian(FromBigEndian(b)) == b
  {
    var first: int := b[0];
    var second := first * 256 + b[1];
    var third := second * 256 + b[2];
    var n := third * 256 + b[3];
    assert n / 0x100 == third;
    assert n / 0x1_0000 == second;
    assert n / 0x100_0000 == first;
  }

  const BIG_ENDIAN: Codec :=
    Codec((n: nat) => BigEndian(n), (b: seq<Byte>) => if |b| == 4 then FromBigEndian(b) else 0)

  lemma BigEndianIsLawful()
    ensures Lawful(BIG_ENDIAN)
  {
    forall n: nat | n < TWO_TO_THE_32
      ensures FromBigEndian(BigEndian(n)) == n
    {
      LengthRoundTrip(n);
    }
    forall b: seq<Byte> | |b| == 4
      ensures FromBigEndian(b) < TWO_TO_THE_32 && BigEndian(FromBigEndian(b)) == b
    {
      BytesRoundTrip(b);
    }
  }

  /** The framing results use no more of the length prefix than this. */
  type Prefix = c: Codec | Lawful(c) ghost witness (BigEndianIsLawful(); BIG_ENDIAN)

  // ---------------------------------------------------------------- framing

  function Framed(msg: seq<Byte>, p: Prefix): seq<Byte> {
    p.put(|msg|) + msg
  }

  function FramedAll(msgs: seq<seq<Byte>>, p: Prefix): seq<Byte> {
    if msgs == [] then [] else Framed(msgs[0], p) + FramedAll(msgs[1..], p)
  }

  lemma Assoc<T>(a: seq<T>, b: seq<T>, c: seq<T>)
    ensures a + b + c == a + (b + c)
  {
  }

  lemma FramedAllFirst(msgs: seq<seq<Byte>>, more: seq<Byte>, p: Prefix)
    requires msgs != []
    ensures FramedAll(msgs, p) + more == Framed(msgs[0], p) + (FramedAll(msgs[1..], p) + more)
  {
  }

  lemma {:induction false} FramedAllAppend(a: seq<seq<Byte>>, b: seq<seq<Byte>>, p: Prefix)
    ensures FramedAll(a + b, p) == FramedAll(a, p) + FramedAll(b, p)
  {
    if a == [] {
      assert a + b == b;
    } else {
      FramedAllAppend(a[1..], b, p);
      FramedAllFirst(a, FramedAll(b, p), p);
      assert (a + b)[1..] == a[1..] + b;
    }
  }

  /** Whether a reader looks at the body of a message of this length.  The proxy's reader passes over
      other lengths and reads the next prefix right behind; the library's reader takes any length. */
  datatype Limit = NoLimit | AtMost(max: nat) {
    predicate Takes(len: nat) {
      NoLimit? || 0 < len <= max
    }
  }

  /** What a reader has made of the stream so far: the message bodies, and the bytes of a message
      that is not complete yet. */
  datatype Parsed = Parsed(bodies: seq<seq<Byte>>, rest: seq<Byte>)

  function Parse(stream: seq<Byte>, limit: Limit, p: Prefix): Parsed
    decreases |stream|
  {
    if |stream| < 4 then Parsed([], stream) else
    var len := p.get(stream[..4]);
    if !limit.Takes(len) then
      Parse(stream[4..], limit, p)
    else if |stream| < 4 + len then
      Parsed([], stream)
    else
      var more := Parse(stream[4 + len..], limit, p);
      Parsed([stream[4..4 + len]] + more.bodies, more.rest)
  }

  predicate Fits(msg: seq<Byte>, limit: Limit) {
    |msg| < TWO_TO_THE_32 && limit.Takes(|msg|)
  }

  predicate AllFit(msgs: seq<seq<Byte>>, limit: Limit) {
    forall i :: 0 <= i < |msgs| ==> Fits(msgs[i], limit)
  }

  lemma ParseFirst(msg: seq<Byte>, more: seq<Byte>, limit: Limit, p: Prefix)
    requires Fits(msg, limit)
    ensures var q := Parse(more, limit, p);
            Parse(Framed(msg, p) + more, limit, p) == Parsed([msg] + q.bodies, q.rest)
  {
    var stream := Framed(msg, p) + more;
    assert stream[..4] == p.put(|msg|);
    assert stream[4..4 + |msg|] == msg;
    assert stream[4 + |msg|..] == more;
  }

  lemma FirstAndRest<T>(a: seq<T>, b: seq<T>)
    requires a != []
    ensures [a[0]] + (a[1..] + b) == a + b
  {
  }

  /** Framing is read back exactly, whatever follows on the stream. */
  lemma {:induction false} ParseFramed(msgs: seq<seq<Byte>>, more: seq<Byte>, limit: Limit, p: Prefix)
    requires AllFit(msgs, limit)
    ensures var q := Parse(more, limit, p);
            Parse(FramedAll(msgs, p) + more, limit, p) == Parsed(msgs + q.bodies, q.rest)
  {
    var bodies := Parse(more, limit, p).bodies;
    if msgs == [] {
      assert FramedAll(msgs, p) + more == more && msgs + bodies == bodies;
    } else {
      var tail := FramedAll(msgs[1..], p) + more;
      ParseFramed(msgs[1..], more, limit, p);
      ParseFirst(msgs[0], tail, limit, p);
      FramedAllFirst(msgs, more, p);
      FirstAndRest(msgs, bodies);
    }
  }

  lemma {:induction false} BodiesFit(stream: seq<Byte>, limit: Limit, p: Prefix)
    ensures AllFit(Parse(stream, limit, p).bodies, limit)
    decreases |stream|
  {
    if |stream| >= 4 {
      var len := p.get(stream[..4]);
      if !limit.Takes(len) {
        BodiesFit(stream[4..], limit, p);
      } else if |stream| >= 4 + len {
        BodiesFit(stream[4 + len..], limit, p);
      }
    }
  }

  /** A reader stays in step with the writer exactly when every message is within its limit. */
  lemma InStepIffWithinLimit(msgs: seq<seq<Byte>>, limit: Limit, p: Prefix)
    ensures Parse(FramedAll(msgs, p), limit, p) == Parsed(msgs, []) <==> AllFit(msgs, limit)
  {
    assert FramedAll(msgs, p) + [] == FramedAll(msgs, p) && msgs + [] == msgs;
    if AllFit(msgs, limit) {
      ParseFramed(msgs, [], limit, p);
    }
    BodiesFit(FramedAll(msgs, p), limit, p);
  }

  const ETHERNET_HEADER_SIZE: nat := 14

  /** The proxy's message buffer has 16 bytes more than its largest frame. */
  function ProxyLimit(mtu: nat): Limit {
    AtMost(mtu + ETHERNET_HEADER_SIZE + 16)
  }

  /** Messages with at most 15 bytes more than the largest frame get through to the proxy, and no
      others: every frame of the device does. */
  lemma FitsProxyIff(m: Message, mtu: nat)
    requires mtu < 0x1_0000
    ensures Fits(Encode(m), ProxyLimit(mtu)) <==> |m.payload| <= mtu + ETHERNET_HEADER_SIZE + 15
  {
  }

  lemma PrefixSplit<T>(seen: seq<T>, first: seq<T>, rest: seq<T>)
    requires seen <= first + rest && |seen| >= |first|
    ensures seen == first + seen[|first|..] && seen[|first|..] <= rest
  {
  }

  lemma ParsePartial(msg: seq<Byte>, more: seq<Byte>, seen: seq<Byte>, limit: Limit, p: Prefix)
    requires Fits(msg, limit)
    requires seen <= Framed(msg, p) + more && |seen| < |Framed(msg, p)|
    ensures Parse(seen, limit, p) == Parsed([], seen)
  {
    assert |seen| >= 4 ==> seen[..4] == p.put(|msg|);
  }

  /** `q` is a prefix of the messages, and what is left of `seen` is less than the next message. */
  predicate Delivered(q: Parsed, msgs: seq<seq<Byte>>, seen: seq<Byte>, p: Prefix) {
    && q.bodies <= msgs
    && seen == FramedAll(q.bodies, p) + q.rest
    && (if |q.bodies| == |msgs| then q.rest == [] else |q.rest| < |Framed(msgs[|q.bodies|], p)|)
  }

  lemma DeliveredStep(q: Parsed, msgs: seq<seq<Byte>>, later: seq<Byte>, p: Prefix)
    requires msgs != [] && Delivered(q, msgs[1..], later, p)
    ensures Delivered(Parsed([msgs[0]] + q.bodies, q.rest), msgs, Framed(msgs[0], p) + later, p)
  {
  }

  /** A reader that has seen only part of the stream has delivered only messages that were sent, in
      order, and is at the boundary after the last of them or inside the next. */
  lemma {:induction false} ParsePrefix(msgs: seq<seq<Byte>>, seen: seq<Byte>, limit: Limit, p: Prefix)
    requires AllFit(msgs, limit) && seen <= FramedAll(msgs, p)
    ensures Delivered(Parse(seen, limit, p), msgs, seen, p)
  {
    if msgs != [] {
      var first, rest := Framed(msgs[0], p), FramedAll(msgs[1..], p);
      if |seen| >= |first| {
        PrefixSplit(seen, first, rest);
        var later := seen[|first|..];
        ParsePrefix(msgs[1..], later, limit, p);
        ParseFirst(msgs[0], later, limit, p);
        DeliveredStep(Parse(later, limit, p), msgs, later, p);
      } else {
        ParsePartial(msgs[0], rest, seen, limit, p);
      }
    }
  }
}
