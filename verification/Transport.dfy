/** Exact reads and writes over a transport that splits the bytes as it likes, and the framed
    messages read and written through them. */
module Transport {
  import opened Base
  import opened Framing

  /** What the transport does on one call: moves at most `n` bytes (a read at least one), has nothing
      in time, or fails. */
  datatype Io = Chunk(n: nat) | Late | Fail

  datatype Status = Done | Eof | TimedOut | Failed | ZeroLength | ChildExited

  predicate Clean(plan: seq<Io>) {
    forall i :: 0 <= i < |plan| ==> plan[i].Chunk?
  }

  /** Every call moves something. */
  predicate Moving(plan: seq<Io>) {
    forall i :: 0 <= i < |plan| ==> plan[i].Chunk? && plan[i].n > 0
  }

  /** Copies what was read behind what is there. */
  method Store(buf: array<Byte>, offset: nat, got: seq<Byte>)
    requires offset + |got| <= buf.Length
    modifies buf
    ensures buf[..offset + |got|] == old(buf[..offset]) + got
    ensures buf[offset + |got|..] == old(buf[offset + |got|..])
  {
    forall i | 0 <= i < |got| {
      buf[offset + i] := got[i];
    }
  }

  /** One end of a stream.  `incoming` is all that the peer will still have sent when it closes. */
  class Fd {
    var incoming: seq<Byte>
    var outgoing: seq<Byte>
    var plan: seq<Io>

    constructor (incoming: seq<Byte>, plan: seq<Io>)
      ensures this.incoming == incoming && outgoing == [] && this.plan == plan
    {
      this.incoming, outgoing, this.plan := incoming, [], plan;
    }

    method NextIo() returns (io: Io)
      modifies this`plan
      ensures |plan| <= |old(plan)| && (|plan| < |old(plan)| || (io.Chunk? && io.n > 0))
      ensures Clean(old(plan)) ==> Clean(plan) && io.Chunk?
      ensures Moving(old(plan)) ==> Moving(plan) && io.Chunk? && io.n > 0
    {
      if plan == [] {
        io := Chunk(0x1_0000);
      } else {
        io, plan := plan[0], plan[1..];
      }
    }

    /** `read(2)` with a non-empty buffer. */
    method Read(want: nat) returns (got: seq<Byte>, status: Status)
      requires want > 0
      modifies this`incoming, this`plan
      ensures old(incoming) == got + incoming && |got| <= want
      ensures status.Done? <==> got != []
      ensures status.Eof? ==> incoming == []
      ensures status.Done? || status.Eof? || status.TimedOut? || status.Failed?
      ensures |plan| <= |old(plan)| && (status.TimedOut? ==> |plan| < |old(plan)|)
      ensures Clean(old(plan)) ==> Clean(plan) && (status.Done? || status.Eof?)
    {
      var io := NextIo();
      got := [];
      match io
      case Late => status := TimedOut;
      case Fail => status := Failed;
      case Chunk(n) =>
        if incoming == [] {
          status := Eof;
        } else {
          var k := Min(want, Min(|incoming|, if n == 0 then 1 else n));
          got, incoming, status := incoming[..k], incoming[k..], Done;
        }
    }

    /** `write(2)` with a non-empty buffer.  It may succeed without taking anything. */
    method Write(data: seq<Byte>) returns (n: nat, status: Status)
      requires data != []
      modifies this`outgoing, this`plan
      ensures n <= |data| && outgoing == old(outgoing) + data[..n]
      ensures status.Done? || (status.Failed? && n == 0)
      ensures |plan| <= |old(plan)| && (status.Done? ==> n > 0 || |plan| < |old(plan)|)
      ensures Clean(old(plan)) ==> Clean(plan) && status.Done?
      ensures Moving(old(plan)) ==> Moving(plan) && n > 0
    {
      var io := NextIo();
      n := 0;
      match io
      case Late => status := Failed;
      case Fail => status := Failed;
      case Chunk(most) =>
        n, status := Min(|data|, most), Done;
        outgoing := outgoing + data[..n];
    }

    /** Fills `buf[..upto]`, or stops at the end of the stream or at an error. */
    method ReadExact(buf: array<Byte>, upto: nat) returns (status: Status)
      requires upto <= buf.Length
      modifies this`incoming, this`plan, buf
      ensures status.Done? || status.Eof? || status.Failed?
      ensures status.Done? ==> old(incoming) == buf[..upto] + incoming
      ensures buf[upto..] == old(buf[upto..])
      ensures status.Eof? ==> |old(incoming)| < upto && incoming == []
      ensures Clean(old(plan)) ==> Clean(plan) && (status.Done? <==> |old(incoming)| >= upto)
    {
      var offset := 0;
      while offset < upto
        invariant offset <= upto
        invariant old(incoming) == buf[..offset] + incoming
        invariant buf[upto..] == old(buf[upto..])
        invariant Clean(old(plan)) ==> Clean(plan)
        decreases upto - offset
      {
        var got, result := Read(upto - offset);
        if !result.Done? {
          return if result.Eof? then Eof else Failed;
        }
        Assoc(buf[..offset], got, incoming);
        Store(buf, offset, got);
        offset := offset + |got|;
      }
      status := Done;
    }

    /** Writes all of `data`, or a beginning of it.  The proxy's own loop tries again after a write that
        took nothing; the standard library's (`strict`) fails. */
    method WriteAll(data: seq<Byte>, strict: bool) returns (status: Status)
      modifies this`outgoing, this`plan
      ensures status.Done? || status.Failed?
      ensures status.Done? ==> outgoing == old(outgoing) + data
      ensures status.Failed? ==> old(outgoing) <= outgoing < old(outgoing) + data
      ensures Clean(old(plan)) && !strict ==> Clean(plan) && status.Done?
      ensures Moving(old(plan)) ==> Moving(plan) && status.Done?
    {
      var offset := 0;
      while offset < |data|
        invariant offset <= |data|
        invariant outgoing == old(outgoing) + data[..offset]
        invariant Clean(old(plan)) ==> Clean(plan)
        invariant Moving(old(plan)) ==> Moving(plan)
        decreases |plan|, |data| - offset
      {
        var n, result := Write(data[offset..]);
        assert data[..offset] + data[offset..][..n] == data[..offset + n];
        if !result.Done? || (strict && n == 0) {
          return Failed;
        }
        offset := offset + n;
      }
      status := Done;
    }

    method WriteFramed(msg: seq<Byte>, p: Prefix) returns (status: Status)
      modifies this`outgoing, this`plan
      ensures status.Done? || status.Failed?
      ensures status.Done? ==> outgoing == old(outgoing) + Framed(msg, p)
      ensures status.Failed? ==> old(outgoing) <= outgoing < old(outgoing) + Framed(msg, p)
      ensures Moving(old(plan)) ==> Moving(plan) && status.Done?
    {
      status := WriteAll(p.put(|msg|), true);
      Assoc(old(outgoing), p.put(|msg|), msg);
      if status.Done? {
        status := WriteAll(msg, true);
      }
    }

    /** The body of the next message in `body[..len]`; `buf` is used if it is large enough. */
    method ReadFramed(buf: array<Byte>, p: Prefix) returns (status: Status, body: array<Byte>, len: nat)
      modifies this`incoming, this`plan, buf
      ensures body == buf || fresh(body)
      ensures status.Done? ==> 0 < len <= body.Length && old(incoming) == Framed(body[..len], p) + incoming
      ensures Clean(old(plan)) ==> Clean(plan) && (status.Done? <==> Complete(old(incoming), p))
    {
      body, len := buf, 0;
      var lenBuf := new Byte[4];
      status := ReadExact(lenBuf, 4);
      if !status.Done? {
        return;
      }
      ghost var start := lenBuf[..4];
      assert old(incoming)[..4] == start;
      len := p.get(lenBuf[..4]);
      if len == 0 {
        status := ZeroLength;
        return;
      }
      if buf.Length < len {
        body := new Byte[len];
      }
      ghost var rest := incoming;
      status := ReadExact(body, len);
      assert status.Done? ==> rest == body[..len] + incoming;
      Assoc(start, body[..len], incoming);
    }

    /** The length of the proxy's first message, read with short timeouts.  After `patience` of them the
        deadline has passed, after `lifetime` the proxy is found to have exited. */
    method ReadHandshakeLength(patience: nat, lifetime: Option<nat>, p: Prefix) returns (status: Status, len: nat)
      modifies this`incoming, this`plan
      ensures status.Done? ==> old(incoming) == p.put(len) + incoming && len < TWO_TO_THE_32
      ensures status.Eof? ==> |old(incoming)| < 4
      ensures patience >= |old(plan)| ==> !status.TimedOut?
      ensures status.ChildExited? ==> lifetime.Some? && lifetime.value < |old(plan)|
      ensures status.Done? || status.Eof? || status.TimedOut? || status.Failed? || status.ChildExited?
      ensures Clean(old(plan)) ==> (status.Done? <==> |old(incoming)| >= 4)
    {
      var lenBuf := new Byte[4];
      var lenOffset, waits := 0, 0;
      len := 0;
      while lenOffset < 4
        invariant lenOffset <= 4
        invariant old(incoming) == lenBuf[..lenOffset] + incoming
        invariant waits + |plan| <= |old(plan)|
        invariant Clean(old(plan)) ==> Clean(plan)
        decreases 4 - lenOffset, |plan|
      {
        var got, result := Read(4 - lenOffset);
        if result.Done? {
          Assoc(lenBuf[..lenOffset], got, incoming);
          Store(lenBuf, lenOffset, got);
          lenOffset := lenOffset + |got|;
        } else if !result.TimedOut? || waits >= patience {
          return result, 0;
        } else if lifetime.Some? && waits >= lifetime.value {
          return ChildExited, 0;
        } else {
          waits := waits + 1;
        }
      }
      len := p.get(lenBuf[..4]);
      status := Done;
    }

    /** A relay's reader: every message body until the stream ends. */
    method ReadMessages(limit: Limit, p: Prefix) returns (bodies: seq<seq<Byte>>)
      modifies this`incoming, this`plan
      ensures bodies <= Parse(old(incoming), limit, p).bodies
      ensures Clean(old(plan)) ==> bodies == Parse(old(incoming), limit, p).bodies
    {
      bodies := [];
      while true
        invariant Clean(old(plan)) ==> Clean(plan)
        invariant Parse(old(incoming), limit, p).bodies == bodies + Parse(incoming, limit, p).bodies
        decreases |incoming|
      {
        var got, more := ReadMessage(limit, p);
        if !more {
          return;
        }
        Assoc(bodies, got, Parse(incoming, limit, p).bodies);
        bodies := bodies + got;
      }
    }

    /** One turn of the reader's loop: a message body, or none if its length is passed over. */
    method ReadMessage(limit: Limit, p: Prefix) returns (got: seq<seq<Byte>>, more: bool)
      modifies this`incoming, this`plan
      ensures more ==> Parse(old(incoming), limit, p).bodies == got + Parse(incoming, limit, p).bodies
      ensures more ==> |incoming| < |old(incoming)|
      ensures !more && Clean(old(plan)) ==> Parse(old(incoming), limit, p).bodies == []
      ensures Clean(old(plan)) ==> Clean(plan)
    {
      ghost var stream := incoming;
      got, more := [], false;
      var lenBuf := new Byte[4];
      var status := ReadExact(lenBuf, 4);
      if !status.Done? {
        return;
      }
      var len := p.get(lenBuf[..4]);
      assert stream[..4] == lenBuf[..4] && stream[4..] == incoming;
      if limit.Takes(len) {
        var msgBuf := new Byte[len];
        status := ReadExact(msgBuf, len);
        if !status.Done? {
          return;
        }
        assert stream[4..4 + len] == msgBuf[..len] && stream[4 + len..] == incoming;
        got := [msgBuf[..len]];
      }
      more := true;
    }
  }

  /** A whole message that is not empty is at the front of the stream. */
  predicate Complete(stream: seq<Byte>, p: Prefix) {
    |stream| >= 4 && 0 < p.get(stream[..4]) <= |stream| - 4
  }

  /** What is read is what was written, however either side's transport split it. */
  lemma FramedIsUnique(msg: seq<Byte>, rest: seq<Byte>, body: seq<Byte>, left: seq<Byte>, p: Prefix)
    requires |msg| < TWO_TO_THE_32 && |body| < TWO_TO_THE_32
    requires Framed(msg, p) + rest == Framed(body, p) + left
    ensures body == msg && left == rest
  {
    var stream := Framed(msg, p) + rest;
    assert stream[..4] == p.put(|msg|) && stream[..4] == p.put(|body|);
    assert stream[4..4 + |msg|] == msg && stream[4..4 + |body|] == body;
    assert stream[4 + |msg|..] == rest && stream[4 + |body|..] == left;
  }
}
