/** The batching writer of one direction of the link: it waits for the first frame or control
    message, drains both queues into a buffered writer, then flushes.  Both the library's and the
    proxy's IPC writer have this shape. */
module Relay {
  import opened Base
  import opened Channels
  import opened Framing

  const FRAME_CHANNEL_CAPACITY: nat := 2048
  const CONTROL_CHANNEL_CAPACITY: nat := 32
  const PROXY_FRAME_CHANNEL_CAPACITY: nat := 4096
  const PROXY_RESPONSE_CHANNEL_CAPACITY: nat := 8

  datatype Phase = Waiting | DrainingFrames | DrainingControls | Flushing | Stopped

  /** `buf` has been written but not flushed, `wire` is what the transport took.  `taken` lists the
      messages given to the buffered writer before the first error, `refused` counts frames that
      found the queue full or the writer gone.  `broken` says that the transport takes nothing more, `torn`
      that a write has failed; `cut` is the message whose write failed first. */
  datatype Writer = Writer(
    frames: Channel<seq<Byte>>, controls: Channel<seq<Byte>>, refused: nat,
    phase: Phase, buf: seq<Byte>, wire: seq<Byte>, broken: bool, torn: bool,
    taken: seq<Message>, cut: seq<Message>, txFrames: nat, txErrors: nat)

  /** `stop` tells the proxy's writer, which returns on an error, from the library's, which leaves
      only the loop it is in.  Before a write fails the transport may take `n` bytes of what is
      buffered and of the message itself. */
  datatype Event =
    | OfferFrame(frame: seq<Byte>)
    | OfferControl(control: seq<Byte>)
    | TakeFrame
    | TakeControl
    | FrameFails(stop: bool, n: nat)
    | ControlFails(stop: bool, n: nat)
    | FramesDrained
    | ControlsDrained
    | Spill(n: nat)
    | Flushed
    | FlushFails
    | Breaks
    | SendersGone(ofControls: bool)
    | SeesClosed

  function NewWriter(frameCap: nat, controlCap: nat): Writer {
    Writer(NewChannel(frameCap), NewChannel(controlCap), 0, Waiting, [], [], false, false, [], [], 0, 0)
  }

  /** `taken` after one more message. */
  function Take(w: Writer, m: Message): seq<Message> {
    if w.torn then w.taken else w.taken + [m]
  }

  /** `m` is not written: the transport took less than all of it, and takes nothing more. */
  function Tear(w: Writer, m: Message, n: nat, p: Prefix): Writer {
    var bytes := w.buf + Framed(Encode(m), p);
    w.(wire := if w.broken then w.wire else w.wire + bytes[..Min(n, |bytes| - 1)],
       cut := if w.torn then w.cut else [m], broken := true, torn := true)
  }

  function AfterError(phase: Phase, stop: bool): Phase {
    if phase.Waiting? || stop then Stopped else if phase.DrainingFrames? then DrainingControls else Flushing
  }

  function Step(w: Writer, e: Event, p: Prefix): Writer {
    match e
    case OfferFrame(f) =>
      if w.frames.Accepts() && !w.phase.Stopped? then w.(frames := w.frames.Push(f)) else w.(refused := w.refused + 1)
    case OfferControl(c) =>
      if w.controls.Accepts() && !w.phase.Stopped? then w.(controls := w.controls.Push(c)) else w
    case TakeFrame =>
      if (w.phase.Waiting? || w.phase.DrainingFrames?) && w.frames.queue != [] then
        var m := Frame(w.frames.queue[0]);
        w.(frames := w.frames.Pop(), buf := w.buf + Framed(Encode(m), p), taken := Take(w, m),
           txFrames := w.txFrames + 1, phase := DrainingFrames)
      else w
    case TakeControl =>
      if (w.phase.Waiting? || w.phase.DrainingControls?) && w.controls.queue != [] then
        var m := Control(w.controls.queue[0]);
        w.(controls := w.controls.Pop(), buf := w.buf + Framed(Encode(m), p), taken := Take(w, m),
           phase := if w.phase.Waiting? then DrainingFrames else w.phase)
      else w
    case FrameFails(stop, n) =>
      if (w.phase.Waiting? || w.phase.DrainingFrames?) && w.frames.queue != [] then
        Tear(w, Frame(w.frames.queue[0]), n, p).(
          frames := w.frames.Pop(), txErrors := w.txErrors + 1, phase := AfterError(w.phase, stop))
      else w
    case ControlFails(stop, n) =>
      if (w.phase.Waiting? || w.phase.DrainingControls?) && w.controls.queue != [] then
        Tear(w, Control(w.controls.queue[0]), n, p).(
          controls := w.controls.Pop(), phase := AfterError(w.phase, stop))
      else w
    case FramesDrained =>
      if w.phase.DrainingFrames? && w.frames.queue == [] then w.(phase := DrainingControls) else w
    case ControlsDrained =>
      if w.phase.DrainingControls? && w.controls.queue == [] then w.(phase := Flushing) else w
    case Spill(n) =>
      if !w.broken && n <= |w.buf| then w.(wire := w.wire + w.buf[..n], buf := w.buf[n..]) else w
    case Flushed =>
      if w.phase.Flushing? && w.buf == [] then w.(phase := Waiting) else w
    case FlushFails =>
      if w.phase.Flushing? && w.broken then w.(phase := Stopped) else w
    case Breaks =>
      w.(broken := true)
    case SendersGone(ofControls) =>
      if ofControls then w.(controls := w.controls.(senders := false))
      else w.(frames := w.frames.(senders := false))
    case SeesClosed =>
      if w.phase.Waiting? && (Closed(w.frames) || Closed(w.controls)) then w.(phase := Stopped) else w
  }

  /** `recv` returns nothing. */
  predicate Closed(channel: Channel<seq<Byte>>) {
    !channel.senders && channel.queue == []
  }

  function Run(w: Writer, es: seq<Event>, p: Prefix): Writer
    decreases |es|
  {
    if es == [] then w else Run(Step(w, es[0], p), es[1..], p)
  }

  // ---------------------------------------------------------------- the simple form

  function Encoded(ms: seq<Message>): seq<seq<Byte>> {
    seq(|ms|, i requires 0 <= i < |ms| => Encode(ms[i]))
  }

  function FramesOf(ms: seq<Message>): seq<seq<Byte>> {
    if ms == [] then []
    else
      var (first, last) := (FramesOf(ms[..|ms| - 1]), ms[|ms| - 1]);
      if last.Frame? then first + [last.payload] else first
  }

  function ControlsOf(ms: seq<Message>): seq<seq<Byte>> {
    if ms == [] then []
    else
      var (first, last) := (ControlsOf(ms[..|ms| - 1]), ms[|ms| - 1]);
      if last.Control? then first + [last.payload] else first
  }

  /** The bytes of a list of messages, framed one after the other. */
  function Plain(ms: seq<Message>, p: Prefix): seq<Byte> {
    FramedAll(Encoded(ms), p)
  }

  /** What went in at one end of a queue is what came out, then what waits in it. */
  predicate Took(channel: Channel<seq<Byte>>, out: seq<seq<Byte>>, torn: bool) {
    && |channel.queue| <= channel.cap
    && out <= channel.sent
    && (!torn ==> channel.sent == out + channel.queue)
  }

  predicate Queues(frames: Channel<seq<Byte>>, controls: Channel<seq<Byte>>, given: seq<Message>, torn: bool) {
    Took(frames, FramesOf(given), torn) && Took(controls, ControlsOf(given), torn)
  }

  /** Wire and buffer hold the plain form.  After an error the wire holds a beginning of it that ends
      before the end of the message whose write failed. */
  predicate OnWire(wire: seq<Byte>, buf: seq<Byte>, torn: bool, taken: seq<Message>, cut: seq<Message>, p: Prefix) {
    if torn then |cut| == 1 && wire < Plain(taken + cut, p)
    else cut == [] && wire + buf == Plain(taken, p)
  }

  /** The messages whose bytes went to the buffered writer or the transport. */
  function Given(w: Writer): seq<Message> {
    w.taken + w.cut
  }

  predicate WriterInv(w: Writer, p: Prefix) {
    && Queues(w.frames, w.controls, Given(w), w.torn)
    && |w.frames.sent| == w.txFrames + w.txErrors + |w.frames.queue|
    && (w.phase.Waiting? ==> w.buf == [])
    && (w.torn ==> w.broken)
    && OnWire(w.wire, w.buf, w.torn, w.taken, w.cut, p)
  }

  lemma PlainPush(ms: seq<Message>, m: Message, p: Prefix)
    ensures Plain(ms + [m], p) == Plain(ms, p) + Framed(Encode(m), p)
  {
    assert Encoded(ms + [m]) == Encoded(ms) + [Encode(m)];
    FramedAllAppend(Encoded(ms), [Encode(m)], p);
    FramedAllFirst([Encode(m)], [], p);
  }

  lemma OfPush(ms: seq<Message>, m: Message)
    ensures FramesOf(ms + [m]) == if m.Frame? then FramesOf(ms) + [m.payload] else FramesOf(ms)
    ensures ControlsOf(ms + [m]) == if m.Control? then ControlsOf(ms) + [m.payload] else ControlsOf(ms)
  {
  }

  lemma TookPop(channel: Channel<seq<Byte>>, out: seq<seq<Byte>>, torn: bool)
    requires Took(channel, out, torn) && channel.queue != []
    ensures Took(channel.Pop(), out, true)
    ensures !torn ==> Took(channel.Pop(), out + [channel.queue[0]], false)
  {
  }

  lemma TookPush(channel: Channel<seq<Byte>>, x: seq<Byte>, out: seq<seq<Byte>>, torn: bool)
    requires Took(channel, out, torn) && channel.Accepts()
    ensures Took(channel.Push(x), out, torn)
  {
  }

  lemma PutOnWire(wire: seq<Byte>, buf: seq<Byte>, taken: seq<Message>, m: Message, p: Prefix)
    requires OnWire(wire, buf, false, taken, [], p)
    ensures OnWire(wire, buf + Framed(Encode(m), p), false, taken + [m], [], p)
  {
    PlainPush(taken, m, p);
    Assoc(wire, buf, Framed(Encode(m), p));
  }

  lemma SpillOnWire(wire: seq<Byte>, buf: seq<Byte>, n: nat, taken: seq<Message>, p: Prefix)
    requires OnWire(wire, buf, false, taken, [], p) && n <= |buf|
    ensures OnWire(wire + buf[..n], buf[n..], false, taken, [], p)
  {
  }

  lemma TornOnWire(wire: seq<Byte>, buf: seq<Byte>, n: nat, taken: seq<Message>, m: Message, p: Prefix)
    requires OnWire(wire, buf, false, taken, [], p) && n < |buf + Framed(Encode(m), p)|
    ensures OnWire(wire + (buf + Framed(Encode(m), p))[..n], buf, true, taken, [m], p)
    ensures OnWire(wire, buf, true, taken, [m], p)
  {
    PutOnWire(wire, buf, taken, m, p);
    var bytes := buf + Framed(Encode(m), p);
    assert wire + bytes == wire + bytes[..n] + bytes[n..];
  }

  lemma TearOnWire(w: Writer, m: Message, n: nat, p: Prefix)
    requires OnWire(w.wire, w.buf, w.torn, w.taken, w.cut, p) && (w.torn ==> w.broken)
    ensures var t := Tear(w, m, n, p); OnWire(t.wire, t.buf, true, t.taken, t.cut, p)
  {
    if !w.torn {
      TornOnWire(w.wire, w.buf, Min(n, |w.buf + Framed(Encode(m), p)| - 1), w.taken, m, p);
    }
  }

  /** A frame is taken off its queue. */
  lemma FramePops(frames: Channel<seq<Byte>>, controls: Channel<seq<Byte>>, given: seq<Message>, torn: bool)
    requires Queues(frames, controls, given, torn) && frames.queue != []
    ensures Queues(frames.Pop(), controls, given, true)
    ensures !torn ==> Queues(frames.Pop(), controls, given + [Frame(frames.queue[0])], false)
  {
    OfPush(given, Frame(frames.queue[0]));
    TookPop(frames, FramesOf(given), torn);
  }

  lemma ControlPops(frames: Channel<seq<Byte>>, controls: Channel<seq<Byte>>, given: seq<Message>, torn: bool)
    requires Queues(frames, controls, given, torn) && controls.queue != []
    ensures Queues(frames, controls.Pop(), given, true)
    ensures !torn ==> Queues(frames, controls.Pop(), given + [Control(controls.queue[0])], false)
  {
    OfPush(given, Control(controls.queue[0]));
    TookPop(controls, ControlsOf(given), torn);
  }

  lemma TornQueues(frames: Channel<seq<Byte>>, controls: Channel<seq<Byte>>, given: seq<Message>)
    requires Queues(frames, controls, given, false)
    ensures Queues(frames, controls, given, true)
  {
  }

  /** `t` has written one more message than `w`. */
  lemma TakenKeeps(w: Writer, t: Writer, m: Message, p: Prefix)
    requires WriterInv(w, p) && !t.phase.Waiting?
    requires Queues(t.frames, t.controls, if w.torn then Given(w) else Given(w) + [m], w.torn)
    requires |t.frames.sent| == t.txFrames + t.txErrors + |t.frames.queue|
    requires t.torn == w.torn && t.broken == w.broken && t.wire == w.wire && t.cut == w.cut
    requires t.taken == Take(w, m) && t.buf == w.buf + Framed(Encode(m), p)
    ensures WriterInv(t, p)
  {
    if !w.torn {
      PutOnWire(w.wire, w.buf, w.taken, m, p);
      assert Given(w) + [m] == Given(t);
    }
  }

  lemma TakeFrameKeeps(w: Writer, p: Prefix)
    requires WriterInv(w, p)
    ensures WriterInv(Step(w, TakeFrame, p), p)
  {
    if (w.phase.Waiting? || w.phase.DrainingFrames?) && w.frames.queue != [] {
      FramePops(w.frames, w.controls, Given(w), w.torn);
      TakenKeeps(w, Step(w, TakeFrame, p), Frame(w.frames.queue[0]), p);
    }
  }

  lemma TakeControlKeeps(w: Writer, p: Prefix)
    requires WriterInv(w, p)
    ensures WriterInv(Step(w, TakeControl, p), p)
  {
    if (w.phase.Waiting? || w.phase.DrainingControls?) && w.controls.queue != [] {
      ControlPops(w.frames, w.controls, Given(w), w.torn);
      TakenKeeps(w, Step(w, TakeControl, p), Control(w.controls.queue[0]), p);
    }
  }

  lemma OfferFrameKeeps(w: Writer, x: seq<Byte>, p: Prefix)
    requires WriterInv(w, p)
    ensures WriterInv(Step(w, OfferFrame(x), p), p)
  {
    if w.frames.Accepts() {
      TookPush(w.frames, x, FramesOf(Given(w)), w.torn);
    }
  }

  lemma OfferControlKeeps(w: Writer, x: seq<Byte>, p: Prefix)
    requires WriterInv(w, p)
    ensures WriterInv(Step(w, OfferControl(x), p), p)
  {
    if w.controls.Accepts() {
      TookPush(w.controls, x, ControlsOf(Given(w)), w.torn);
    }
  }

  /** In `t` the write of one more message than in `w` has failed. */
  lemma TornKeeps(w: Writer, t: Writer, m: Message, n: nat, p: Prefix)
    requires WriterInv(w, p) && !t.phase.Waiting?
    requires Queues(t.frames, t.controls, if w.torn then Given(w) else Given(w) + [m], true)
    requires |t.frames.sent| == t.txFrames + t.txErrors + |t.frames.queue|
    requires t == Tear(w, m, n, p).(frames := t.frames, controls := t.controls, phase := t.phase,
                                    txErrors := t.txErrors)
    ensures WriterInv(t, p)
  {
    TearOnWire(w, m, n, p);
    if !w.torn {
      assert Given(w) + [m] == Given(t);
    }
  }

  lemma FrameFailKeeps(w: Writer, stop: bool, n: nat, p: Prefix)
    requires WriterInv(w, p)
    ensures WriterInv(Step(w, FrameFails(stop, n), p), p)
  {
    if (w.phase.Waiting? || w.phase.DrainingFrames?) && w.frames.queue != [] {
      FramePops(w.frames, w.controls, Given(w), w.torn);
      if !w.torn {
        TornQueues(w.frames.Pop(), w.controls, Given(w) + [Frame(w.frames.queue[0])]);
      }
      TornKeeps(w, Step(w, FrameFails(stop, n), p), Frame(w.frames.queue[0]), n, p);
    }
  }

  lemma ControlFailKeeps(w: Writer, stop: bool, n: nat, p: Prefix)
    requires WriterInv(w, p)
    ensures WriterInv(Step(w, ControlFails(stop, n), p), p)
  {
    if (w.phase.Waiting? || w.phase.DrainingControls?) && w.controls.queue != [] {
      ControlPops(w.frames, w.controls, Given(w), w.torn);
      if !w.torn {
        TornQueues(w.frames, w.controls.Pop(), Given(w) + [Control(w.controls.queue[0])]);
      }
      TornKeeps(w, Step(w, ControlFails(stop, n), p), Control(w.controls.queue[0]), n, p);
    }
  }

  lemma StepKeeps(w: Writer, e: Event, p: Prefix)
    requires WriterInv(w, p)
    ensures WriterInv(Step(w, e, p), p)
  {
    match e
    case OfferFrame(f) => OfferFrameKeeps(w, f, p);
    case OfferControl(c) => OfferControlKeeps(w, c, p);
    case FrameFails(stop, n) => FrameFailKeeps(w, stop, n, p);
    case ControlFails(stop, n) => ControlFailKeeps(w, stop, n, p);
    case TakeFrame => TakeFrameKeeps(w, p);
    case TakeControl => TakeControlKeeps(w, p);
    case Spill(n) =>
      if !w.broken && n <= |w.buf| {
        SpillOnWire(w.wire, w.buf, n, w.taken, p);
      }
    case _ =>
  }

  lemma {:induction false} RunKeeps(w: Writer, es: seq<Event>, p: Prefix)
    requires WriterInv(w, p)
    ensures WriterInv(Run(w, es, p), p)
    decreases |es|
  {
    if es != [] {
      StepKeeps(w, es[0], p);
      RunKeeps(Step(w, es[0], p), es[1..], p);
    }
  }

  lemma NewWriterInv(frameCap: nat, controlCap: nat, p: Prefix)
    ensures WriterInv(NewWriter(frameCap, controlCap), p)
  {
  }

  // ---------------------------------------------------------------- what the other end reads

  /** The messages a reader makes of the bodies; what does not decode is passed over. */
  function Messages(bodies: seq<seq<Byte>>): seq<Message> {
    if bodies == [] then []
    else
      var (first, last) := (Messages(bodies[..|bodies| - 1]), Decode(bodies[|bodies| - 1]));
      if last.Ok? then first + [last.message] else first
  }

  lemma {:induction false} MessagesOfEncoded(ms: seq<Message>)
    ensures Messages(Encoded(ms)) == ms
  {
    if ms != [] {
      var n := |ms| - 1;
      assert Encoded(ms)[..n] == Encoded(ms[..n]);
      MessagesOfEncoded(ms[..n]);
      DecodeInvertsEncode(ms[n], Encode(ms[n]));
    }
  }

  lemma {:induction false} OfPrefix(a: seq<Message>, b: seq<Message>)
    requires a <= b
    ensures FramesOf(a) <= FramesOf(b) && ControlsOf(a) <= ControlsOf(b)
    decreases |b|
  {
    if a != b {
      OfPrefix(a, b[..|b| - 1]);
    }
  }

  /** Every accepted payload makes a message within the reader's limit. */
  predicate AcceptedFit(w: Writer, limit: Limit) {
    && (forall i :: 0 <= i < |w.frames.sent| ==> Fits(Encode(Frame(w.frames.sent[i])), limit))
    && (forall i :: 0 <= i < |w.controls.sent| ==> Fits(Encode(Control(w.controls.sent[i])), limit))
  }

  lemma LastFits(ms: seq<Message>, w: Writer, limit: Limit)
    requires AcceptedFit(w, limit) && ms != []
    requires FramesOf(ms) <= w.frames.sent && ControlsOf(ms) <= w.controls.sent
    ensures Fits(Encode(ms[|ms| - 1]), limit)
  {
    var (first, last) := (ms[..|ms| - 1], ms[|ms| - 1]);
    if last.Frame? {
      assert w.frames.sent[|FramesOf(first)|] == last.payload;
    } else {
      assert w.controls.sent[|ControlsOf(first)|] == last.payload;
    }
  }

  lemma {:induction false} TakenFit(ms: seq<Message>, w: Writer, limit: Limit)
    requires AcceptedFit(w, limit) && FramesOf(ms) <= w.frames.sent && ControlsOf(ms) <= w.controls.sent
    ensures AllFit(Encoded(ms), limit)
  {
    if ms != [] {
      var n := |ms| - 1;
      TakenFit(ms[..n], w, limit);
      LastFits(ms, w, limit);
      assert Encoded(ms) == Encoded(ms[..n]) + [Encode(ms[n])];
    }
  }

  /** What the reader at the other end has made of the first `seen` bytes on the wire. */
  function Received(w: Writer, seen: nat, limit: Limit, p: Prefix): seq<Message>
    requires seen <= |w.wire|
  {
    Messages(Parse(w.wire[..seen], limit, p).bodies)
  }

  /** The messages before the first one over the reader's limit. */
  function Fitting(ms: seq<Message>, limit: Limit): seq<Message> {
    if ms == [] || !Fits(Encode(ms[0]), limit) then [] else [ms[0]] + Fitting(ms[1..], limit)
  }

  /** `r` is the beginning of `ms` before the first message over the limit. */
  predicate Within(r: seq<Message>, ms: seq<Message>, limit: Limit) {
    && |r| <= |ms| && r == ms[..|r|]
    && (forall i :: 0 <= i < |r| ==> Fits(Encode(r[i]), limit))
    && (|r| < |ms| ==> !Fits(Encode(ms[|r|]), limit))
  }

  lemma WithinCons(m: Message, r: seq<Message>, ms: seq<Message>, limit: Limit)
    requires Within(r, ms, limit) && Fits(Encode(m), limit)
    ensures Within([m] + r, [m] + ms, limit)
  {
    assert ([m] + ms)[..1 + |r|] == [m] + ms[..|r|];
    assert |r| < |ms| ==> ([m] + ms)[1 + |r|] == ms[|r|];
  }

  lemma {:induction false} FittingIsWithin(ms: seq<Message>, limit: Limit)
    ensures Within(Fitting(ms, limit), ms, limit)
  {
    if ms != [] && Fits(Encode(ms[0]), limit) {
      FittingIsWithin(ms[1..], limit);
      WithinCons(ms[0], Fitting(ms[1..], limit), ms[1..], limit);
      assert ms == [ms[0]] + ms[1..];
    }
  }

  lemma FittingFits(ms: seq<Message>, limit: Limit)
    ensures Fitting(ms, limit) <= ms && AllFit(Encoded(Fitting(ms, limit)), limit)
    ensures AllFit(Encoded(ms), limit) ==> Fitting(ms, limit) == ms
  {
    FittingIsWithin(ms, limit);
    var n := |Fitting(ms, limit)|;
    if n < |ms| {
      assert Encoded(ms)[n] == Encode(ms[n]);
    }
  }

  lemma PlainPrefix(a: seq<Message>, b: seq<Message>, p: Prefix)
    requires a <= b
    ensures Plain(a, p) <= Plain(b, p)
  {
    assert Encoded(b) == Encoded(a) + Encoded(b[|a|..]);
    FramedAllAppend(Encoded(a), Encoded(b[|a|..]), p);
  }

  /** The wire holds a beginning of the plain form of what was given to it; of a message whose write
      failed, not all. */
  lemma WireIsPlain(w: Writer, p: Prefix)
    requires WriterInv(w, p)
    ensures w.wire <= Plain(Given(w), p) && |w.cut| <= 1
    ensures w.cut != [] ==> |w.wire| < |Plain(Given(w), p)|
  {
    if !w.torn {
      assert Given(w) == w.taken;
    }
  }

  lemma LongerIsLonger(a: seq<Message>, b: seq<Message>, p: Prefix)
    requires a < b
    ensures |Plain(a, p)| < |Plain(b, p)|
  {
    var n := |a|;
    PlainPush(a, b[n], p);
    assert a + [b[n]] == b[..n + 1];
    PlainPrefix(b[..n + 1], b, p);
  }

  lemma CaughtUpHasAll(w: Writer, fit: seq<Message>, limit: Limit, p: Prefix)
    requires WriterInv(w, p) && w.phase.Waiting? && !w.torn
    requires fit <= w.taken && |w.wire| <= |Plain(fit, p)| && AllFit(Encoded(fit), limit)
    ensures Messages(Parse(w.wire, limit, p).bodies) == w.taken
  {
    assert w.wire == Plain(w.taken, p);
    if fit != w.taken {
      LongerIsLonger(fit, w.taken, p);
    }
    InStepIffWithinLimit(Encoded(fit), limit, p);
    MessagesOfEncoded(fit);
  }

  /** A reader that has seen a beginning of the plain form of messages within its limit has a beginning
      of them, and all of them only if it has seen all. */
  lemma ReadsPrefix(ms: seq<Message>, part: seq<Byte>, limit: Limit, p: Prefix)
    requires AllFit(Encoded(ms), limit) && part <= Plain(ms, p)
    ensures var got := Messages(Parse(part, limit, p).bodies);
            got <= ms && (got == ms ==> part == Plain(ms, p))
  {
    ParsePrefix(Encoded(ms), part, limit, p);
    var n := |Parse(part, limit, p).bodies|;
    assert Parse(part, limit, p).bodies == Encoded(ms[..n]);
    MessagesOfEncoded(ms[..n]);
    if n == |ms| {
      assert ms[..n] == ms;
    }
  }

  lemma StopsBeforeCut<T>(got: seq<T>, fit: seq<T>, taken: seq<T>, cut: seq<T>)
    requires got <= fit <= taken + cut && |cut| <= 1
    requires got == fit == taken + cut ==> cut == []
    ensures got <= taken
  {
  }

  lemma ReceivedIsBeginning(w: Writer, seen: nat, limit: Limit, p: Prefix)
    requires WriterInv(w, p) && seen <= |w.wire| && seen <= |Plain(Fitting(Given(w), limit), p)|
    ensures Received(w, seen, limit, p) <= w.taken
  {
    var fit := Fitting(Given(w), limit);
    WireIsPlain(w, p);
    FittingFits(Given(w), limit);
    PlainPrefix(fit, Given(w), p);
    ReadsPrefix(fit, w.wire[..seen], limit, p);
    StopsBeforeCut(Received(w, seen, limit, p), fit, w.taken, w.cut);
  }

  lemma ReceivedIsTaken(w: Writer, seen: nat, limit: Limit, p: Prefix)
    requires WriterInv(w, p) && seen <= |w.wire| && seen <= |Plain(Fitting(Given(w), limit), p)|
    ensures Received(w, seen, limit, p) <= w.taken
    ensures seen == |w.wire| && w.phase.Waiting? && !w.torn ==> Received(w, seen, limit, p) == w.taken
  {
    ReceivedIsBeginning(w, seen, limit, p);
    if seen == |w.wire| && w.phase.Waiting? && !w.torn {
      assert w.wire[..seen] == w.wire && Given(w) == w.taken;
      FittingFits(w.taken, limit);
      CaughtUpHasAll(w, Fitting(w.taken, limit), limit, p);
    }
  }

  /** Batching refines plain framing.  On every run, wherever the reader is before the end of the messages
      within its limit, it has made of the stream a merge of a beginning of the accepted frames and a
      beginning of the accepted control messages, each in order, nothing added; and what it has read up to
      a moment when the writer waits lacks only what is still queued.  If all accepted messages are within
      the limit, that is wherever the reader is. */
  lemma BatchingRefinesFraming(frameCap: nat, controlCap: nat, es: seq<Event>, seen: nat, limit: Limit, p: Prefix)
    requires seen <= |Run(NewWriter(frameCap, controlCap), es, p).wire|
    ensures var w := Run(NewWriter(frameCap, controlCap), es, p);
            AcceptedFit(w, limit) ==> seen <= |Plain(Fitting(Given(w), limit), p)|
    ensures var w := Run(NewWriter(frameCap, controlCap), es, p);
            seen <= |Plain(Fitting(Given(w), limit), p)| ==>
              var got := Received(w, seen, limit, p);
              && FramesOf(got) <= w.frames.sent
              && ControlsOf(got) <= w.controls.sent
              && (seen == |w.wire| && w.phase.Waiting? && !w.torn ==>
                    && w.frames.sent == FramesOf(got) + w.frames.queue
                    && w.controls.sent == ControlsOf(got) + w.controls.queue)
  {
    var w := Run(NewWriter(frameCap, controlCap), es, p);
    NewWriterInv(frameCap, controlCap, p);
    RunKeeps(NewWriter(frameCap, controlCap), es, p);
    WireIsPlain(w, p);
    if AcceptedFit(w, limit) {
      TakenFit(Given(w), w, limit);
      FittingFits(Given(w), limit);
    }
    if seen <= |Plain(Fitting(Given(w), limit), p)| {
      ReceivedIsTaken(w, seen, limit, p);
      OfPrefix(Received(w, seen, limit, p), Given(w));
      if !w.torn {
        assert Given(w) == w.taken;
      }
    }
  }

  // ---------------------------------------------------------------- one round of the loop

  lemma RunFirst(w: Writer, es: seq<Event>, more: seq<Event>, p: Prefix) returns (next: Writer, rest: seq<Event>)
    requires es != []
    ensures rest == es[1..] && Run(w, es, p) == Run(next, rest, p)
    ensures Run(w, es + more, p) == Run(next, rest + more, p)
  {
    next, rest := Step(w, es[0], p), es[1..];
    assert (es + more)[1..] == rest + more;
  }

  lemma {:induction false} RunAppend(w: Writer, es: seq<Event>, more: seq<Event>, p: Prefix)
    ensures Run(w, es + more, p) == Run(Run(w, es, p), more, p)
    decreases |es|
  {
    if es == [] {
      assert es + more == more;
    } else {
      var next, rest := RunFirst(w, es, more, p);
      RunAppend(next, rest, more, p);
    }
  }

  lemma RunOne(start: Writer, es: seq<Event>, w: Writer, e: Event, p: Prefix)
    requires w == Run(start, es, p)
    ensures Step(w, e, p) == Run(start, es + [e], p)
  {
    RunAppend(start, es, [e], p);
    assert Run(w, [e], p) == Run(Step(w, e, p), [], p);
  }

  lemma Advanced(start: Writer, es: seq<Event>, w: Writer, e: Event, p: Prefix)
    requires w == Run(start, es, p) && WriterInv(w, p)
    ensures Step(w, e, p) == Run(start, es + [e], p) && WriterInv(Step(w, e, p), p)
  {
    RunOne(start, es, w, e, p);
    StepKeeps(w, e, p);
  }

  /** What others do while the writer works. */
  predicate Outside(e: Event) {
    e.OfferFrame? || e.OfferControl? || e.Spill? || e.Breaks? || e.SendersGone?
  }

  /** Before one write of a pass `e` happens outside; `fails` says whether the write fails, after the
      transport took `n` bytes. */
  datatype Turn = Turn(e: Event, fails: bool, n: nat)

  predicate Fails(w: Writer, script: seq<Turn>) {
    if script == [] then w.broken else script[0].fails
  }

  function Taking(script: seq<Turn>): nat {
    if script == [] then 0 else script[0].n
  }

  function After(script: seq<Turn>): seq<Turn> {
    if script == [] then [] else script[1..]
  }

  /** The writer after what happens outside before its next write. */
  function Interrupted(w: Writer, script: seq<Turn>, p: Prefix): Writer {
    if script != [] && Outside(script[0].e) then Step(w, script[0].e, p) else w
  }

  lemma OutsideAddsOnly(w: Writer, e: Event, p: Prefix)
    requires Outside(e)
    ensures var t := Step(w, e, p);
            && t.torn == w.torn && t.phase == w.phase
            && w.frames.queue <= t.frames.queue && w.controls.queue <= t.controls.queue
  {
    match e
    case OfferFrame(f) => assert w.frames.queue <= w.frames.queue + [f];
    case OfferControl(c) => assert w.controls.queue <= w.controls.queue + [c];
    case _ =>
  }

  lemma InterruptionsAddOnly(w: Writer, script: seq<Turn>, p: Prefix)
    ensures var t := Interrupted(w, script, p);
            && t.torn == w.torn && t.phase == w.phase
            && w.frames.queue <= t.frames.queue && w.controls.queue <= t.controls.queue
            && (script == [] ==> t == w)
  {
    if script != [] && Outside(script[0].e) {
      OutsideAddsOnly(w, script[0].e, p);
    }
  }

  /** The transport works and nothing happens outside: nothing is lost and nothing new comes in. */
  predicate Undisturbed(start: Writer, w: Writer, script: seq<Turn>) {
    script == [] && !w.broken && w.frames.sent == start.frames.sent && w.controls.sent == start.controls.sent
  }

  lemma OneWrite(start: Writer, es: seq<Event>, w: Writer, script: seq<Turn>, ofControl: bool, stop: bool, p: Prefix)
    returns (more: seq<Event>, t: Writer)
    requires w == Run(start, es, p) && WriterInv(w, p)
    requires if ofControl then w.phase.DrainingControls? && w.controls.queue != []
             else w.phase.DrainingFrames? && w.frames.queue != []
    ensures t == NextWrite(w, script, ofControl, stop, p) && t == Run(start, more, p) && WriterInv(t, p)
    ensures t.phase == w.phase
            || t.phase == (if stop then Stopped else if ofControl then Flushing else DrainingControls)
    ensures !w.torn ==> (t.phase == w.phase <==> !t.torn)
    ensures script == [] ==>
              if ofControl then |t.controls.queue| < |w.controls.queue| && t.frames.queue == w.frames.queue
              else |t.frames.queue| < |w.frames.queue|
    ensures Undisturbed(start, w, script) ==> Undisturbed(start, t, script) && t.phase == w.phase
  {
    var v := Interrupted(w, script, p);
    InterruptionsAddOnly(w, script, p);
    more := es;
    if script != [] && Outside(script[0].e) {
      Advanced(start, es, w, script[0].e, p);
      more := es + [script[0].e];
    }
    var e := WriteEvent(v, script, ofControl, stop);
    Advanced(start, more, v, e, p);
    WriteEffects(v, script, ofControl, stop, p);
    t, more := Step(v, e, p), more + [e];
  }

  lemma WriteEffects(v: Writer, script: seq<Turn>, ofControl: bool, stop: bool, p: Prefix)
    requires if ofControl then v.phase.DrainingControls? && v.controls.queue != []
             else v.phase.DrainingFrames? && v.frames.queue != []
    ensures var t := Step(v, WriteEvent(v, script, ofControl, stop), p);
            && t.phase == (if !Fails(v, script) then v.phase
                           else if stop then Stopped
                           else if ofControl then Flushing else DrainingControls)
            && t.torn == (v.torn || Fails(v, script))
            && (if ofControl then |t.controls.queue| < |v.controls.queue| && t.frames == v.frames
                else |t.frames.queue| < |v.frames.queue| && t.controls == v.controls)
            && t.frames.sent == v.frames.sent && t.controls.sent == v.controls.sent
            && t.broken == (v.broken || Fails(v, script))
  {
  }

  function WriteEvent(w: Writer, script: seq<Turn>, ofControl: bool, stop: bool): Event {
    if Fails(w, script) then
      (if ofControl then ControlFails(stop, Taking(script)) else FrameFails(stop, Taking(script)))
    else if ofControl then TakeControl else TakeFrame
  }

  function NextWrite(w: Writer, script: seq<Turn>, ofControl: bool, stop: bool, p: Prefix): Writer {
    var v := Interrupted(w, script, p);
    Step(v, WriteEvent(v, script, ofControl, stop), p)
  }

  lemma DrainEnds(w: Writer, p: Prefix)
    ensures w.phase.DrainingFrames? && w.frames.queue == [] ==>
              Step(w, FramesDrained, p) == w.(phase := DrainingControls)
    ensures w.phase.DrainingControls? && w.controls.queue == [] ==>
              Step(w, ControlsDrained, p) == w.(phase := Flushing)
  {
  }

  method DrainFrames(start: Writer, script: seq<Turn>, stop: bool, p: Prefix)
    returns (w: Writer, left: seq<Turn>, ghost es: seq<Event>)
    requires WriterInv(start, p) && start.phase.DrainingFrames?
    ensures w == Run(start, es, p) && WriterInv(w, p) && (w.phase.DrainingControls? || w.phase.Stopped?)
    ensures !stop ==> w.phase.DrainingControls?
    ensures stop && !start.torn ==> (w.phase.Stopped? <==> w.torn)
    ensures Undisturbed(start, start, script) ==>
              Undisturbed(start, w, left) && w.phase.DrainingControls? && w.frames.queue == []
  {
    w, left, es := start, script, [];
    while w.phase.DrainingFrames? && w.frames.queue != []
      invariant w == Run(start, es, p) && WriterInv(w, p)
      invariant w.phase.DrainingFrames? || w.phase == (if stop then Stopped else DrainingControls)
      invariant !start.torn ==> (w.phase.DrainingFrames? <==> !w.torn)
      invariant Undisturbed(start, start, script) ==> Undisturbed(start, w, left) && w.phase.DrainingFrames?
      decreases |left|, |w.frames.queue|
    {
      ghost var more, t := OneWrite(start, es, w, left, false, stop, p);
      w, left, es := NextWrite(w, left, false, stop, p), After(left), more;
    }
    if w.phase.DrainingFrames? {
      Advanced(start, es, w, FramesDrained, p);
      DrainEnds(w, p);
      w, es := Step(w, FramesDrained, p), es + [FramesDrained];
    }
  }

  method DrainControls(start: Writer, script: seq<Turn>, stop: bool, p: Prefix)
    returns (w: Writer, left: seq<Turn>, ghost es: seq<Event>)
    requires WriterInv(start, p) && start.phase.DrainingControls?
    ensures w == Run(start, es, p) && WriterInv(w, p) && (w.phase.Flushing? || w.phase.Stopped?)
    ensures !stop ==> w.phase.Flushing?
    ensures stop && !start.torn ==> (w.phase.Stopped? <==> w.torn)
    ensures Undisturbed(start, start, script) ==>
              Undisturbed(start, w, left) && w.phase.Flushing? && w.controls.queue == []
              && w.frames.queue == start.frames.queue
  {
    w, left, es := start, script, [];
    while w.phase.DrainingControls? && w.controls.queue != []
      invariant w == Run(start, es, p) && WriterInv(w, p)
      invariant w.phase.DrainingControls? || w.phase == (if stop then Stopped else Flushing)
      invariant !start.torn ==> (w.phase.DrainingControls? <==> !w.torn)
      invariant Undisturbed(start, start, script) ==>
                  Undisturbed(start, w, left) && w.phase.DrainingControls? && w.frames.queue == start.frames.queue
      decreases |left|, |w.controls.queue|
    {
      ghost var more, t := OneWrite(start, es, w, left, true, stop, p);
      w, left, es := NextWrite(w, left, true, stop, p), After(left), more;
    }
    if w.phase.DrainingControls? {
      Advanced(start, es, w, ControlsDrained, p);
      DrainEnds(w, p);
      w, es := Step(w, ControlsDrained, p), es + [ControlsDrained];
    }
  }

  method Flush(start: Writer, p: Prefix) returns (w: Writer, ghost es: seq<Event>)
    requires WriterInv(start, p) && start.phase.Flushing?
    ensures w == Run(start, es, p) && WriterInv(w, p) && (w.phase.Waiting? || w.phase.Stopped?)
    ensures !start.broken ==> w.phase.Waiting?
    ensures (w.phase.Waiting? <==> w.buf == []) && w.torn == start.torn
    ensures w.frames == start.frames && w.controls == start.controls && w.broken == start.broken
  {
    var all := Spill(|start.buf|);
    Advanced(start, [], start, all, p) by {
      assert start == Run(start, [], p);
    }
    w, es := Step(start, all, p), [] + [all];
    SpilledAll(start, p);
    var last := if w.buf == [] then Flushed else FlushFails;
    Advanced(start, es, w, last, p);
    FlushEnds(w, p);
    w, es := Step(w, last, p), es + [last];
  }

  lemma FlushEnds(w: Writer, p: Prefix)
    requires w.phase.Flushing? && (w.buf != [] ==> w.broken)
    ensures var t := Step(w, if w.buf == [] then Flushed else FlushFails, p);
            t == w.(phase := if w.buf == [] then Waiting else Stopped)
  {
  }

  lemma SpilledAll(start: Writer, p: Prefix)
    ensures var w := Step(start, Spill(|start.buf|), p);
            && w.phase == start.phase && w.broken == start.broken && w.torn == start.torn
            && w.frames == start.frames && w.controls == start.controls
            && (!start.broken ==> w.buf == [])
  {
  }

  /** One pass of the writer's loop, with whatever happens meanwhile: it is a run of the machine and
      ends waiting or stopped.  It stops if its first write fails.  On a later failure the proxy's writer
      stops at once; the library's goes on to the flush, and stops if that leaves something.  When it ends
      waiting without an error everything taken is on the wire in its plain form.  If nothing disturbs it,
      that is all that was queued. */
  method WriteBatch(start: Writer, controlFirst: bool, script: seq<Turn>, stop: bool, p: Prefix)
    returns (w: Writer, ghost es: seq<Event>)
    requires WriterInv(start, p) && start.phase.Waiting?
    requires if controlFirst then start.controls.queue != [] else start.frames.queue != []
    ensures w == Run(start, es, p) && WriterInv(w, p)
    ensures w.phase.Waiting? || w.phase.Stopped?
    ensures Fails(start, script) ==> w.phase.Stopped?
    ensures stop && !start.torn && w.torn ==> w.phase.Stopped?
    ensures !Fails(start, script) && (!stop || (!start.torn && !w.torn)) ==> (w.phase.Waiting? <==> w.buf == [])
    ensures w.phase.Waiting? && !w.torn ==> w.wire == Plain(w.taken, p)
    ensures Undisturbed(start, start, script) ==>
              && w.phase.Waiting? && w.frames.queue == [] && w.controls.queue == []
              && FramesOf(w.taken) == start.frames.sent && ControlsOf(w.taken) == start.controls.sent
  {
    var left;
    w, left, es := FirstWrite(start, controlFirst, script, stop, p);
    ghost var more;
    if w.phase.DrainingFrames? {
      w, left, more := DrainFrames(w, left, stop, p);
      RunAppend(start, es, more, p);
      es := es + more;
    }
    if w.phase.DrainingControls? {
      w, left, more := DrainControls(w, left, stop, p);
      RunAppend(start, es, more, p);
      es := es + more;
    }
    if w.phase.Flushing? {
      w, more := Flush(w, p);
      RunAppend(start, es, more, p);
      es := es + more;
    }
    WaitingIsPlain(w, p);
  }

  method FirstWrite(start: Writer, controlFirst: bool, script: seq<Turn>, stop: bool, p: Prefix)
    returns (w: Writer, left: seq<Turn>, ghost es: seq<Event>)
    requires WriterInv(start, p) && start.phase.Waiting?
    requires if controlFirst then start.controls.queue != [] else start.frames.queue != []
    ensures w == Run(start, es, p) && WriterInv(w, p) && (w.phase.DrainingFrames? || w.phase.Stopped?)
    ensures (w.phase.Stopped? <==> Fails(start, script)) && w.torn == (start.torn || Fails(start, script))
    ensures Undisturbed(start, start, script) ==> Undisturbed(start, w, left) && w.phase.DrainingFrames?
  {
    var first := WriteEvent(start, script, controlFirst, stop);
    Advanced(start, [], start, first, p) by {
      assert start == Run(start, [], p);
    }
    FirstEffects(start, controlFirst, script, stop, p);
    w, left, es := Step(start, first, p), After(script), [] + [first];
  }

  lemma FirstEffects(v: Writer, controlFirst: bool, script: seq<Turn>, stop: bool, p: Prefix)
    requires v.phase.Waiting? && if controlFirst then v.controls.queue != [] else v.frames.queue != []
    ensures var t := Step(v, WriteEvent(v, script, controlFirst, stop), p);
            && t.phase == (if Fails(v, script) then Stopped else DrainingFrames)
            && t.torn == (v.torn || Fails(v, script))
            && t.frames.sent == v.frames.sent && t.controls.sent == v.controls.sent
            && t.broken == (v.broken || Fails(v, script))
  {
  }

  lemma WaitingIsPlain(w: Writer, p: Prefix)
    requires WriterInv(w, p)
    ensures w.phase.Waiting? && !w.torn ==> w.wire == Plain(w.taken, p)
    ensures !w.broken && w.frames.queue == [] ==> FramesOf(w.taken) == w.frames.sent
    ensures !w.broken && w.controls.queue == [] ==> ControlsOf(w.taken) == w.controls.sent
  {
    if !w.torn {
      assert Given(w) == w.taken;
    }
  }

  /** The transmit counters, at every moment of every run: `device_tx_frames` counts what the queue
      accepted. */
  lemma TransmitCounters(frameCap: nat, controlCap: nat, es: seq<Event>, p: Prefix)
    ensures var w := Run(NewWriter(frameCap, controlCap), es, p);
            && |w.frames.sent| == w.txFrames + w.txErrors + |w.frames.queue|
            && |w.frames.queue| <= frameCap
            && |w.controls.queue| <= controlCap
            && Offered(es) == |w.frames.sent| + w.refused
  {
    NewWriterInv(frameCap, controlCap, p);
    RunKeeps(NewWriter(frameCap, controlCap), es, p);
    RunCounts(NewWriter(frameCap, controlCap), es, p);
  }

  function Offered(es: seq<Event>): nat {
    if es == [] then 0 else (if es[0].OfferFrame? then 1 else 0) + Offered(es[1..])
  }

  lemma StepCounts(w: Writer, e: Event, p: Prefix)
    ensures var t := Step(w, e, p);
            && |t.frames.sent| + t.refused == |w.frames.sent| + w.refused + (if e.OfferFrame? then 1 else 0)
            && t.frames.cap == w.frames.cap && t.controls.cap == w.controls.cap
  {
  }

  lemma {:induction false} RunCounts(w: Writer, es: seq<Event>, p: Prefix)
    ensures var t := Run(w, es, p);
            && |t.frames.sent| + t.refused == |w.frames.sent| + w.refused + Offered(es)
            && t.frames.cap == w.frames.cap && t.controls.cap == w.controls.cap
    decreases |es|
  {
    if es != [] {
      StepCounts(w, es[0], p);
      RunCounts(Step(w, es[0], p), es[1..], p);
    }
  }

  lemma {:induction false} RunKeepsReceivers(w: Writer, es: seq<Event>, p: Prefix)
    ensures var t := Run(w, es, p); t.frames.receiver == w.frames.receiver && t.controls.receiver == w.controls.receiver
    decreases |es|
  {
    if es != [] {
      StepKeepsReceivers(w, es[0], p);
      RunKeepsReceivers(Step(w, es[0], p), es[1..], p);
    }
  }

  lemma StepKeepsReceivers(w: Writer, e: Event, p: Prefix)
    ensures var t := Step(w, e, p); t.frames.receiver == w.frames.receiver && t.controls.receiver == w.controls.receiver
  {
  }

  /** On every run a frame or control message that is offered is queued, behind the others, if and only
      if the writer has not stopped and fewer are queued than the queue holds; otherwise a frame is
      counted as refused. */
  lemma OfferIsTakenIff(frameCap: nat, controlCap: nat, es: seq<Event>, x: seq<Byte>, p: Prefix)
    ensures var w := Run(NewWriter(frameCap, controlCap), es, p);
            var (t, u) := (Step(w, OfferFrame(x), p), Step(w, OfferControl(x), p));
            && (if |w.frames.queue| < frameCap && !w.phase.Stopped?
                then t.frames.sent == w.frames.sent + [x] && t.frames.queue == w.frames.queue + [x]
                     && t.refused == w.refused
                else t.frames == w.frames && t.refused == w.refused + 1)
            && (if |w.controls.queue| < controlCap && !w.phase.Stopped?
                then u.controls.sent == w.controls.sent + [x] && u.controls.queue == w.controls.queue + [x]
                else u.controls == w.controls)
  {
    RunKeepsReceivers(NewWriter(frameCap, controlCap), es, p);
    RunCounts(NewWriter(frameCap, controlCap), es, p);
  }

  lemma EmptyIsTaken(channel: Channel<seq<Byte>>, out: seq<seq<Byte>>)
    requires Took(channel, out, false) && channel.queue == []
    ensures out == channel.sent
  {
    assert out + [] == out;
  }

  lemma SendersGo(w: Writer, p: Prefix)
    ensures Step(w, SendersGone(false), p).frames == w.frames.(senders := false)
    ensures Step(w, SendersGone(true), p).controls == w.controls.(senders := false)
    ensures w.phase.Waiting? ==>
              (Step(w, SeesClosed, p).phase.Stopped? <==> Closed(w.frames) || Closed(w.controls))
  {
  }

  /** A writer that finds one of its queues closed stops, and everything that queue ever accepted is on
      the wire by then. */
  lemma ClosedQueueIsWritten(w: Writer, p: Prefix)
    requires WriterInv(w, p) && w.phase.Waiting? && !w.torn
    ensures Step(w, SeesClosed, p).phase.Stopped? <==> Closed(w.frames) || Closed(w.controls)
    ensures w.wire == Plain(w.taken, p)
    ensures Closed(w.frames) ==> FramesOf(w.taken) == w.frames.sent
    ensures Closed(w.controls) ==> ControlsOf(w.taken) == w.controls.sent
    ensures Closed(Step(w, SendersGone(false), p).frames) <==> w.frames.queue == []
    ensures Closed(Step(w, SendersGone(true), p).controls) <==> w.controls.queue == []
  {
    SendersGo(w, p);
    WaitingIsPlain(w, p);
    assert Given(w) == w.taken;
    if w.frames.queue == [] {
      EmptyIsTaken(w.frames, FramesOf(w.taken));
    }
    if w.controls.queue == [] {
      EmptyIsTaken(w.controls, ControlsOf(w.taken));
    }
  }

  /** `ipc_tx_frames` counts exactly the frames written, `ipc_tx_errors` exactly those whose write failed. */
  lemma CountersTellApart(w: Writer, e: Event, p: Prefix)
    ensures var t := Step(w, e, p);
            && t.txFrames == w.txFrames + (if e.TakeFrame? then |w.frames.queue| - |t.frames.queue| else 0)
            && t.txErrors == w.txErrors + (if e.FrameFails? then |w.frames.queue| - |t.frames.queue| else 0)
            && (e.TakeFrame? && !w.torn ==>
                |FramesOf(t.taken)| == |FramesOf(w.taken)| + |w.frames.queue| - |t.frames.queue|)
  {
    if e.TakeFrame? && w.frames.queue != [] {
      OfPush(w.taken, Frame(w.frames.queue[0]));
    }
  }

  /** Once the transport is broken nothing more gets on the wire. */
  lemma BrokenWireIsFinal(w: Writer, es: seq<Event>, p: Prefix)
    ensures Run(Step(w, Breaks, p), es, p).wire == w.wire
  {
    BrokenStays(Step(w, Breaks, p), es, p);
  }

  lemma {:induction false} BrokenStays(w: Writer, es: seq<Event>, p: Prefix)
    requires w.broken
    ensures Run(w, es, p).broken && Run(w, es, p).wire == w.wire
    decreases |es|
  {
    if es != [] {
      BrokenStep(w, es[0], p);
      BrokenStays(Step(w, es[0], p), es[1..], p);
    }
  }

  lemma BrokenStep(w: Writer, e: Event, p: Prefix)
    requires w.broken
    ensures Step(w, e, p).broken && Step(w, e, p).wire == w.wire
  {
  }
}
