/** What the proxy's reader makes of a control message over its limit.  It passes over the length but
    not over the body, so it goes on reading lengths inside the JSON text. */
module Misread {
  import opened Base
  import opened Framing

  /** JSON text has no bytes below the space. */
  predicate Text(json: seq<Byte>) {
    forall i :: 0 <= i < |json| ==> json[i] >= 0x20
  }

  function Top(b: seq<Byte>): int
    requires |b| == 4
  {
    var (first: int, second: int) := (b[0], b[1]);
    first * 0x100_0000 + second * 0x1_0000
  }

  /** The first two bytes of a prefix count as in a big-endian number. */
  ghost predicate TopFirst(p: Prefix) {
    forall b: seq<Byte> :: |b| == 4 ==> p.get(b) >= Top(b)
  }

  lemma BigEndianIsTopFirst()
    ensures Lawful(BIG_ENDIAN) && TopFirst(BIG_ENDIAN)
  {
    BigEndianIsLawful();
  }

  lemma PassOver(group: seq<Byte>, more: seq<Byte>, max: nat, p: Prefix)
    requires TopFirst(p) && |group| == 4 && Top(group) > max
    ensures Parse(group + more, AtMost(max), p) == Parse(more, AtMost(max), p)
  {
    assert (group + more)[..4] == group && (group + more)[4..] == more;
  }

  /** The bytes of a text that are left when groups of four are passed over. */
  function Rest(text: seq<Byte>): seq<Byte> {
    text[|text| - |text| % 4..]
  }

  lemma RestAfterGroup(text: seq<Byte>)
    requires |text| >= 4
    ensures Rest(text[4..]) == Rest(text)
  {
    assert |text[4..]| % 4 == |text| % 4;
  }

  lemma RestOfJson(json: seq<Byte>)
    requires |json| >= 3
    ensures |Rest(json[3..])| == |Encode(Control(json))| % 4
    ensures Text(json) ==> Text(Rest(json[3..]))
  {
  }

  lemma {:induction false} PassOverText(text: seq<Byte>, more: seq<Byte>, max: nat, p: Prefix)
    requires TopFirst(p) && Text(text) && max < 0x2000_0000
    ensures Parse(text + more, AtMost(max), p) == Parse(Rest(text) + more, AtMost(max), p)
    decreases |text|
  {
    if |text| >= 4 {
      PassOver(text[..4], text[4..] + more, max, p);
      assert text[..4] + (text[4..] + more) == text + more;
      PassOverText(text[4..], more, max, p);
      RestAfterGroup(text);
    } else {
      assert Rest(text) == text;
    }
  }

  /** A control message over the limit is passed over in groups of four bytes: the reader goes on with
      what is left of its text, and what follows it. */
  lemma OverlongIsPassedOver(json: seq<Byte>, more: seq<Byte>, max: nat, p: Prefix)
    requires TopFirst(p) && Text(json) && 30 <= max < 0x20_0000 && max < |Encode(Control(json))| < TWO_TO_THE_32
    ensures Parse(Framed(Encode(Control(json)), p) + more, AtMost(max), p)
            == Parse(Rest(json[3..]) + more, AtMost(max), p)
  {
    var body := Encode(Control(json));
    var stream := Framed(body, p) + more;
    assert stream[..4] == p.put(|body|) && stream[4..] == body + more;
    var first := body[..4];
    assert first == [MSG_TYPE_CONTROL] + json[..3];
    PassOver(first, json[3..] + more, max, p);
    assert first + (json[3..] + more) == body + more;
    PassOverText(json[3..], more, max, p);
  }

  /** If its length is a multiple of four, exactly that message is lost, and the reader is in step
      with whatever follows. */
  lemma OverlongIsLost(json: seq<Byte>, msgs: seq<seq<Byte>>, mtu: nat, p: Prefix)
    requires TopFirst(p) && Text(json) && mtu < 0x1_0000 && AllFit(msgs, ProxyLimit(mtu))
    requires !Fits(Encode(Control(json)), ProxyLimit(mtu)) && |Encode(Control(json))| < TWO_TO_THE_32
    requires |Encode(Control(json))| % 4 == 0
    ensures Parse(FramedAll([Encode(Control(json))] + msgs, p), ProxyLimit(mtu), p) == Parsed(msgs, [])
  {
    var max := mtu + ETHERNET_HEADER_SIZE + 16;
    var more := FramedAll(msgs, p);
    OverlongIsPassedOver(json, more, max, p);
    RestOfJson(json);
    assert Rest(json[3..]) + more == more;
    assert ([Encode(Control(json))] + msgs)[1..] == msgs;
    InStepIffWithinLimit(msgs, ProxyLimit(mtu), p);
  }

  lemma PassOverBoundary(rest: seq<Byte>, more: seq<Byte>, max: nat, p: Prefix)
    requires TopFirst(p) && Text(rest) && 0 < |rest| < 4 <= |more| && max < 0x2000_0000
    ensures Parse(rest + more, AtMost(max), p) == Parse(more[4 - |rest|..], AtMost(max), p)
  {
    var k := 4 - |rest|;
    var group := rest + more[..k];
    assert group[0] == rest[0];
    assert group + more[k..] == rest + more;
    PassOver(group, more[k..], max, p);
  }

  /** Otherwise the reader takes the first bytes of the next message for part of a length, and goes on
      in the middle of that message's own length. */
  lemma OverlongPutsOutOfStep(json: seq<Byte>, more: seq<Byte>, mtu: nat, k: nat, p: Prefix)
    requires TopFirst(p) && Text(json) && mtu < 0x1_0000
    requires !Fits(Encode(Control(json)), ProxyLimit(mtu)) && |Encode(Control(json))| < TWO_TO_THE_32
    requires 0 < k < 4 <= |more| && |Encode(Control(json))| % 4 == 4 - k
    ensures Parse(Framed(Encode(Control(json)), p) + more, ProxyLimit(mtu), p) == Parse(more[k..], ProxyLimit(mtu), p)
  {
    var max := mtu + ETHERNET_HEADER_SIZE + 16;
    OverlongIsPassedOver(json, more, max, p);
    RestOfJson(json);
    PassOverBoundary(Rest(json[3..]), more, max, p);
  }

  /** Then a frame behind it can carry, from its third byte on, a framed message of its own, and that
      is what the reader delivers, in place of the two messages sent. */
  lemma OverlongIsMisread(json: seq<Byte>, phantom: Message, mtu: nat)
    requires Text(json) && mtu + 30 < 0x1_0000
    requires !Fits(Encode(Control(json)), ProxyLimit(mtu)) && |Encode(Control(json))| < TWO_TO_THE_32
    requires |Encode(Control(json))| % 4 == 1 && |phantom.payload| + 7 <= mtu + ETHERNET_HEADER_SIZE
    ensures Lawful(BIG_ENDIAN)
    ensures var frame := [0, 0] + Framed(Encode(phantom), BIG_ENDIAN);
            && |frame| <= mtu + ETHERNET_HEADER_SIZE
            && Parse(FramedAll([Encode(Control(json)), Encode(Frame(frame))], BIG_ENDIAN), ProxyLimit(mtu), BIG_ENDIAN)
               == Parsed([Encode(phantom)], [])
  {
    BigEndianIsTopFirst();
    MisreadWith(json, phantom, mtu, BIG_ENDIAN);
  }

  lemma FrameFromLastLengthByte(inner: seq<Byte>, p: Prefix)
    ensures var body := Encode(Frame([0, 0] + inner));
            Framed(body, p)[3..] == [p.put(|body|)[3], MSG_TYPE_FRAME, 0, 0] + inner
  {
  }

  lemma PhantomInFrame(phantom: Message, mtu: nat, p: Prefix)
    requires TopFirst(p) && mtu + 30 < 0x1_0000 && |phantom.payload| + 7 <= mtu + ETHERNET_HEADER_SIZE
    ensures var body := Encode(Frame([0, 0] + Framed(Encode(phantom), p)));
            Parse(Framed(body, p)[3..], ProxyLimit(mtu), p) == Parsed([Encode(phantom)], [])
  {
    var inner := Framed(Encode(phantom), p);
    var body := Encode(Frame([0, 0] + inner));
    FrameFromLastLengthByte(inner, p);
    PassOver([p.put(|body|)[3], MSG_TYPE_FRAME, 0, 0], inner, mtu + ETHERNET_HEADER_SIZE + 16, p);
    ParseFirst(Encode(phantom), [], ProxyLimit(mtu), p);
    assert inner + [] == inner;
  }

  lemma MisreadWith(json: seq<Byte>, phantom: Message, mtu: nat, p: Prefix)
    requires TopFirst(p) && Text(json) && mtu + 30 < 0x1_0000
    requires !Fits(Encode(Control(json)), ProxyLimit(mtu)) && |Encode(Control(json))| < TWO_TO_THE_32
    requires |Encode(Control(json))| % 4 == 1 && |phantom.payload| + 7 <= mtu + ETHERNET_HEADER_SIZE
    ensures var frame := [0, 0] + Framed(Encode(phantom), p);
            && |frame| <= mtu + ETHERNET_HEADER_SIZE
            && Parse(FramedAll([Encode(Control(json)), Encode(Frame(frame))], p), ProxyLimit(mtu), p)
               == Parsed([Encode(phantom)], [])
  {
    var body := Encode(Frame([0, 0] + Framed(Encode(phantom), p)));
    OverlongPutsOutOfStep(json, Framed(body, p), mtu, 3, p);
    PhantomInFrame(phantom, mtu, p);
    FramedPair(Encode(Control(json)), body, p);
  }

  lemma FramedPair(a: seq<Byte>, b: seq<Byte>, p: Prefix)
    ensures FramedAll([a, b], p) == Framed(a, p) + Framed(b, p)
  {
    assert [a, b][1..] == [b];
    FramedAllFirst([b], [], p);
  }
}
