/** The library's end of the link: the IPC reader hands frames to a bounded queue, the device takes
    them for the stack, and offers the stack's own frames to the writer. */
module Device {
  import opened Base
  import opened Channels
  import opened Framing
  import Relay

  /** `decoded` lists the frames read off the link, `received` those the device gave to the stack.
      `stopped` says that the reader found the queue closed. */
  datatype Inbound = Inbound(
    queue: Channel<seq<Byte>>, decoded: seq<seq<Byte>>, received: seq<seq<Byte>>,
    ipcRxFrames: nat, ipcRxDropped: nat, deviceRxFrames: nat, stopped: bool)

  datatype Event = Arrives(m: Message) | Receives | DeviceGone

  function NewInbound(cap: nat): Inbound {
    Inbound(NewChannel(cap), [], [], 0, 0, 0, false)
  }

  /** The reader's treatment of one frame. */
  function Deliver(i: Inbound, frame: seq<Byte>): Inbound {
    var j := i.(ipcRxFrames := i.ipcRxFrames + 1, decoded := i.decoded + [frame]);
    if !i.queue.receiver then j.(stopped := true)
    else if i.queue.Full() then j.(ipcRxDropped := i.ipcRxDropped + 1)
    else j.(queue := i.queue.Push(frame))
  }

  function Receive(i: Inbound): Inbound {
    if i.queue.queue == [] then i
    else i.(queue := i.queue.Pop(), deviceRxFrames := i.deviceRxFrames + 1,
            received := i.received + [i.queue.queue[0]])
  }

  function Step(i: Inbound, e: Event): Inbound {
    match e
    case Arrives(m) => if i.stopped || m.Control? then i else Deliver(i, m.payload)
    case Receives => if i.queue.receiver then Receive(i) else i
    case DeviceGone => i.(queue := i.queue.(receiver := false))
  }

  function Run(i: Inbound, es: seq<Event>): Inbound
    decreases |es|
  {
    if es == [] then i else Run(Step(i, es[0]), es[1..])
  }

  /** a is b with some elements left out. */
  predicate Subsequence<T(==)>(a: seq<T>, b: seq<T>)
    decreases |b|
  {
    if a == [] then true
    else if b == [] then false
    else
      var (m, n) := (|a| - 1, |b| - 1);
      (a[m] == b[n] && Subsequence(a[..m], b[..n])) || Subsequence(a, b[..n])
  }

  lemma SubsequencePush<T>(a: seq<T>, b: seq<T>, x: T)
    requires Subsequence(a, b)
    ensures Subsequence(a, b + [x]) && Subsequence(a + [x], b + [x])
  {
    assert (b + [x])[..|b|] == b && (a + [x])[..|a|] == a;
  }

  lemma {:induction false} SubsequenceOfLonger<T>(a: seq<T>, b: seq<T>, c: seq<T>)
    requires Subsequence(a, b) && b <= c
    ensures Subsequence(a, c)
    decreases |c|
  {
    if b != c {
      SubsequenceOfLonger(a, b, c[..|c| - 1]);
    }
  }

  lemma {:induction false} ShorterSubsequence<T>(a: seq<T>, b: seq<T>, short: seq<T>)
    requires Subsequence(a, b) && short <= a
    ensures Subsequence(short, b)
    decreases |b|
  {
    if short != a && b != [] {
      var (m, n) := (|a| - 1, |b| - 1);
      if a[m] == b[n] && Subsequence(a[..m], b[..n]) {
        ShorterSubsequence(a[..m], b[..n], short);
      } else {
        ShorterSubsequence(a, b[..n], short);
      }
    }
  }

  /** Every frame read off the link was received, is queued, was dropped, or found the queue closed;
      the received and queued ones are in order, and all of them if none was dropped. */
  predicate InboundInv(i: Inbound) {
    && |i.decoded| == i.ipcRxFrames
    && |i.received| == i.deviceRxFrames
    && i.ipcRxFrames == i.deviceRxFrames + |i.queue.queue| + i.ipcRxDropped + (if i.stopped then 1 else 0)
    && |i.queue.queue| <= i.queue.cap
    && i.queue.sent == i.received + i.queue.queue
    && Subsequence(i.queue.sent, i.decoded)
    && (i.ipcRxDropped == 0 && !i.stopped ==> i.queue.sent == i.decoded)
  }

  lemma DeliverKeeps(i: Inbound, frame: seq<Byte>)
    requires InboundInv(i) && !i.stopped
    ensures InboundInv(Deliver(i, frame))
  {
    SubsequencePush(i.queue.sent, i.decoded, frame);
    assert i.received + i.queue.queue + [frame] == i.received + (i.queue.queue + [frame]);
  }

  lemma StepKeeps(i: Inbound, e: Event)
    requires InboundInv(i)
    ensures InboundInv(Step(i, e)) && Step(i, e).queue.cap == i.queue.cap
  {
    if e.Arrives? && !i.stopped {
      DeliverKeeps(i, e.m.payload);
    }
  }

  lemma {:induction false} RunKeeps(i: Inbound, es: seq<Event>)
    requires InboundInv(i)
    ensures InboundInv(Run(i, es)) && Run(i, es).queue.cap == i.queue.cap
    decreases |es|
  {
    if es != [] {
      StepKeeps(i, es[0]);
      RunKeeps(Step(i, es[0]), es[1..]);
    }
  }

  /** The receive counters, at every moment of every run. */
  lemma ReceiveCounters(es: seq<Event>)
    ensures var i := Run(NewInbound(Relay.FRAME_CHANNEL_CAPACITY), es);
            && i.ipcRxFrames == i.deviceRxFrames + |i.queue.queue| + i.ipcRxDropped + (if i.stopped then 1 else 0)
            && |i.queue.queue| <= Relay.FRAME_CHANNEL_CAPACITY
            && Subsequence(i.received + i.queue.queue, i.decoded)
  {
    RunKeeps(NewInbound(Relay.FRAME_CHANNEL_CAPACITY), es);
  }

  /** The device's two ends of the frame queues and its counters, updated in place. */
  class ProxyDevice {
    var rx: Channel<seq<Byte>>
    var tx: Channel<seq<Byte>>
    var rxFrames: nat
    var txFrames: nat
    var txDropped: nat

    constructor (rx: Channel<seq<Byte>>, tx: Channel<seq<Byte>>)
      ensures this.rx == rx && this.tx == tx && rxFrames == 0 && txFrames == 0 && txDropped == 0
    {
      this.rx, this.tx, rxFrames, txFrames, txDropped := rx, tx, 0, 0, 0;
    }

    /** The oldest queued frame, if there is one. */
    method Receive() returns (frame: Option<seq<Byte>>)
      modifies this`rx, this`rxFrames
      ensures old(rx.queue) == (if frame.Some? then [frame.value] else []) + rx.queue
      ensures frame.None? ==> rx.queue == []
      ensures rx.sent == old(rx.sent) && rx.cap == old(rx.cap)
      ensures rxFrames + |rx.queue| == old(rxFrames + |rx.queue|)
    {
      if rx.queue == [] {
        frame := None;
      } else {
        frame, rx, rxFrames := Some(rx.queue[0]), rx.Pop(), rxFrames + 1;
      }
    }

    /** Hands a frame to the writer, or drops and counts it. */
    method Consume(frame: seq<Byte>)
      modifies this`tx, this`txFrames, this`txDropped
      ensures tx == if old(tx.Accepts()) then old(tx).Push(frame) else old(tx)
      ensures txFrames - |tx.sent| == old(txFrames - |tx.sent|)
      ensures txFrames + txDropped == old(txFrames + txDropped) + 1
      ensures old(|tx.queue| <= tx.cap) ==> |tx.queue| <= tx.cap
    {
      if tx.Accepts() {
        tx, txFrames := tx.Push(frame), txFrames + 1;
      } else {
        txDropped := txDropped + 1;
      }
    }
  }

  // ---------------------------------------------------------------- from TAP to stack

  function Arrivals(es: seq<Event>): seq<Message> {
    if es == [] then []
    else
      var (first, last) := (Arrivals(es[..|es| - 1]), es[|es| - 1]);
      if last.Arrives? then first + [last.m] else first
  }

  lemma {:induction false} RunLast(i: Inbound, es: seq<Event>)
    requires es != []
    ensures Run(i, es) == Step(Run(i, es[..|es| - 1]), es[|es| - 1])
    decreases |es|
  {
    if |es| > 1 {
      RunLast(Step(i, es[0]), es[1..]);
      assert es[1..][..|es| - 2] == es[..|es| - 1][1..];
    }
  }

  /** The frames decoded are those that arrived, up to the one that found the queue closed. */
  lemma {:induction false} DecodedArrived(cap: nat, es: seq<Event>)
    ensures var i := Run(NewInbound(cap), es);
            && i.decoded <= Relay.FramesOf(Arrivals(es))
            && (!i.stopped ==> i.decoded == Relay.FramesOf(Arrivals(es)))
    decreases |es|
  {
    if es != [] {
      var n := |es| - 1;
      DecodedArrived(cap, es[..n]);
      RunLast(NewInbound(cap), es);
      if es[n].Arrives? {
        Relay.OfPush(Arrivals(es[..n]), es[n].m);
      }
    }
  }

  predicate FrameArrives(e: Event) {
    e.Arrives? && e.m.Frame?
  }

  /** The queue is open exactly as long as the device is there, and the reader stops only after that. */
  lemma {:induction false} OpenWhileThere(cap: nat, es: seq<Event>)
    ensures var i := Run(NewInbound(cap), es);
            (i.queue.receiver <==> DeviceGone !in es) && (i.stopped ==> DeviceGone in es)
    decreases |es|
  {
    if es != [] {
      OpenWhileThere(cap, es[..|es| - 1]);
      RunLast(NewInbound(cap), es);
      assert es == es[..|es| - 1] + [es[|es| - 1]];
    }
  }

  /** What becomes of a frame that arrives while the device is there, on every run: it is dropped and
      counted if the queue is full, and queued otherwise.  Nothing else is counted as dropped. */
  lemma FrameIsDroppedIffFull(cap: nat, es: seq<Event>, e: Event)
    ensures var (i, j) := (Run(NewInbound(cap), es), Run(NewInbound(cap), es + [e]));
            && (j.ipcRxDropped != i.ipcRxDropped <==>
                FrameArrives(e) && DeviceGone !in es && |i.queue.queue| == cap)
            && (j.ipcRxDropped != i.ipcRxDropped ==> j.ipcRxDropped == i.ipcRxDropped + 1 && j.queue == i.queue)
            && (FrameArrives(e) && DeviceGone !in es && |i.queue.queue| < cap ==>
                j.queue.queue == i.queue.queue + [e.m.payload] && j.queue.sent == i.queue.sent + [e.m.payload])
  {
    OpenWhileThere(cap, es);
    RunKeeps(NewInbound(cap), es);
    RunLast(NewInbound(cap), es + [e]);
    assert (es + [e])[..|es|] == es;
  }

  /** How many frames have arrived that the stack was not given. */
  function Outstanding(cap: nat, es: seq<Event>): int {
    |Relay.FramesOf(Arrivals(es))| - Run(NewInbound(cap), es).deviceRxFrames
  }

  /** Each frame that arrives while the device is there finds fewer than `cap` outstanding. */
  predicate KeptUp(cap: nat, es: seq<Event>) {
    forall n :: 0 <= n < |es| && FrameArrives(es[n]) && DeviceGone !in es[..n] ==> Outstanding(cap, es[..n]) < cap
  }

  lemma KeptUpPush(cap: nat, es: seq<Event>, e: Event)
    ensures KeptUp(cap, es + [e]) <==>
            KeptUp(cap, es) && (FrameArrives(e) && DeviceGone !in es ==> Outstanding(cap, es) < cap)
  {
    var all := es + [e];
    assert all[..|es|] == es && all[|es|] == e;
    assert forall n :: 0 <= n < |es| ==> all[n] == es[n] && all[..n] == es[..n];
  }

  /** With nothing dropped, what is outstanding while the device is there is what is queued. */
  lemma OutstandingIsQueued(cap: nat, es: seq<Event>)
    requires DeviceGone !in es && Run(NewInbound(cap), es).ipcRxDropped == 0
    ensures Outstanding(cap, es) == |Run(NewInbound(cap), es).queue.queue|
  {
    OpenWhileThere(cap, es);
    RunKeeps(NewInbound(cap), es);
    DecodedArrived(cap, es);
  }

  /** On every run, no frame is dropped if and only if the stack keeps up. */
  lemma {:induction false} NoneDroppedIffKeptUp(cap: nat, es: seq<Event>)
    ensures Run(NewInbound(cap), es).ipcRxDropped == 0 <==> KeptUp(cap, es)
    decreases |es|
  {
    if es != [] {
      var (before, e) := (es[..|es| - 1], es[|es| - 1]);
      assert es == before + [e];
      NoneDroppedIffKeptUp(cap, before);
      KeptUpPush(cap, before, e);
      FrameIsDroppedIffFull(cap, before, e);
      RunKeeps(NewInbound(cap), before);
      if DeviceGone !in before && Run(NewInbound(cap), before).ipcRxDropped == 0 {
        OutstandingIsQueued(cap, before);
      }
    }
  }

  /** The device gives the stack everything that is queued, if it goes on receiving. */
  lemma {:induction false} ReceivesDrain(i: Inbound, n: nat)
    requires InboundInv(i) && i.queue.receiver && n >= |i.queue.queue|
    ensures var j := Run(i, seq(n, _ => Receives)); j.received == i.queue.sent && j.queue.queue == []
    decreases n
  {
    if n > 0 {
      StepKeeps(i, Receives);
      ReceivesDrain(Step(i, Receives), n - 1);
      assert seq(n, _ => Receives)[1..] == seq(n - 1, _ => Receives);
    }
  }

  /** From the proxy's TAP reader to the stack: on every run of the proxy's writer and of the
      library's reader, with the reader anywhere in the stream, the frames the stack was given are
      frames the proxy's queue accepted, in order and none twice; and if nothing was dropped on the
      way, no queue holds a frame and the reader has caught up, they are all of them. */
  lemma FramesReachTheStack(ws: seq<Relay.Event>, seen: nat, es: seq<Event>, p: Prefix)
    requires var w := Relay.Run(ProxyWriter(), ws, p);
             seen <= |w.wire| && Relay.AcceptedFit(w, NoLimit) && Arrivals(es) == Relay.Received(w, seen, NoLimit, p)
    ensures var w := Relay.Run(ProxyWriter(), ws, p);
            var i := Run(NewInbound(Relay.FRAME_CHANNEL_CAPACITY), es);
            && Subsequence(i.received, w.frames.sent)
            && (CaughtUp(w, seen) && i.queue.queue == [] && i.ipcRxDropped == 0 && !i.stopped ==>
                  i.received == w.frames.sent)
  {
    var w := Relay.Run(ProxyWriter(), ws, p);
    var i := Run(NewInbound(Relay.FRAME_CHANNEL_CAPACITY), es);
    Relay.BatchingRefinesFraming(Relay.PROXY_FRAME_CHANNEL_CAPACITY, Relay.PROXY_RESPONSE_CHANNEL_CAPACITY, ws, seen,
                                 NoLimit, p);
    RunKeeps(NewInbound(Relay.FRAME_CHANNEL_CAPACITY), es);
    DecodedArrived(Relay.FRAME_CHANNEL_CAPACITY, es);
    ShorterSubsequence(i.queue.sent, i.decoded, i.received);
    SubsequenceOfLonger(i.received, i.decoded, w.frames.sent);
  }

  /** Everything the writer accepted has been read at the other end. */
  predicate CaughtUp(w: Relay.Writer, seen: nat) {
    seen == |w.wire| && w.phase.Waiting? && !w.torn && w.frames.queue == []
  }

  function ProxyWriter(): Relay.Writer {
    Relay.NewWriter(Relay.PROXY_FRAME_CHANNEL_CAPACITY, Relay.PROXY_RESPONSE_CHANNEL_CAPACITY)
  }

  function LibraryWriter(): Relay.Writer {
    Relay.NewWriter(Relay.FRAME_CHANNEL_CAPACITY, Relay.CONTROL_CHANNEL_CAPACITY)
  }

  /** The frames no larger than the device's, and control messages of at most 15 bytes more. */
  predicate DeviceSized(w: Relay.Writer, mtu: nat) {
    && (forall i :: 0 <= i < |w.frames.sent| ==> |w.frames.sent[i]| <= mtu + ETHERNET_HEADER_SIZE)
    && (forall i :: 0 <= i < |w.controls.sent| ==> |w.controls.sent[i]| <= mtu + ETHERNET_HEADER_SIZE + 15)
  }

  /** With frames of the device's size, the proxy's bounded reader is in step with the library's writer
      whenever that waits, if and only if no command taken is over the limit. */
  lemma TapInStepIff(ws: seq<Relay.Event>, mtu: nat, p: Prefix)
    requires mtu < 0x1_0000
    requires var w := Relay.Run(LibraryWriter(), ws, p);
             && w.phase.Waiting? && !w.torn
             && forall i :: 0 <= i < |w.frames.sent| ==> |w.frames.sent[i]| <= mtu + ETHERNET_HEADER_SIZE
    ensures var w := Relay.Run(LibraryWriter(), ws, p);
            Parse(w.wire, ProxyLimit(mtu), p) == Parsed(Relay.Encoded(w.taken), []) <==>
            forall i :: 0 <= i < |w.taken| && w.taken[i].Control? ==>
              |w.taken[i].payload| <= mtu + ETHERNET_HEADER_SIZE + 15
  {
    var w := Relay.Run(LibraryWriter(), ws, p);
    Relay.NewWriterInv(Relay.FRAME_CHANNEL_CAPACITY, Relay.CONTROL_CHANNEL_CAPACITY, p);
    Relay.RunKeeps(LibraryWriter(), ws, p);
    assert w.wire + w.buf == w.wire && Relay.Given(w) == w.taken;
    InStepIffWithinLimit(Relay.Encoded(w.taken), ProxyLimit(mtu), p);
    forall i | 0 <= i < |w.taken|
      ensures w.taken[i].Frame? ==> |w.taken[i].payload| <= mtu + ETHERNET_HEADER_SIZE
      ensures Fits(Relay.Encoded(w.taken)[i], ProxyLimit(mtu)) <==>
              |w.taken[i].payload| <= mtu + ETHERNET_HEADER_SIZE + 15
    {
      TakenWasSent(w.taken, i, w.frames.sent);
      FitsProxyIff(w.taken[i], mtu);
    }
  }

  lemma {:induction false} TakenWasSent(ms: seq<Message>, i: nat, sent: seq<seq<Byte>>)
    requires i < |ms| && Relay.FramesOf(ms) <= sent
    ensures ms[i].Frame? ==> ms[i].payload in sent
    decreases |ms|
  {
    var n := |ms| - 1;
    if i < n {
      TakenWasSent(ms[..n], i, sent);
    } else if ms[n].Frame? {
      assert sent[|Relay.FramesOf(ms[..n])|] == ms[n].payload;
    }
  }

  /** From the stack to the TAP device: wherever the proxy's bounded reader is before the first message
      over its limit, it has written to the device exactly a beginning of the frames handed over, and
      handled a beginning of the commands, in order.  With frames of the device's size and no command
      over the limit that is wherever it is. */
  lemma FramesReachTheTap(ws: seq<Relay.Event>, seen: nat, mtu: nat, p: Prefix)
    requires mtu < 0x1_0000
    requires seen <= |Relay.Run(LibraryWriter(), ws, p).wire|
    ensures var w := Relay.Run(LibraryWriter(), ws, p);
            DeviceSized(w, mtu) ==> seen <= |Relay.Plain(Relay.Fitting(Relay.Given(w), ProxyLimit(mtu)), p)|
    ensures var w := Relay.Run(LibraryWriter(), ws, p);
            seen <= |Relay.Plain(Relay.Fitting(Relay.Given(w), ProxyLimit(mtu)), p)| ==>
              var got := Relay.Received(w, seen, ProxyLimit(mtu), p);
              && Relay.FramesOf(got) <= w.frames.sent
              && Relay.ControlsOf(got) <= w.controls.sent
              && (seen == |w.wire| && w.phase.Waiting? && !w.torn ==>
                    && w.frames.sent == Relay.FramesOf(got) + w.frames.queue
                    && w.controls.sent == Relay.ControlsOf(got) + w.controls.queue)
  {
    var w := Relay.Run(LibraryWriter(), ws, p);
    if DeviceSized(w, mtu) {
      forall i | 0 <= i < |w.frames.sent| ensures Fits(Encode(Frame(w.frames.sent[i])), ProxyLimit(mtu)) {
        FitsProxyIff(Frame(w.frames.sent[i]), mtu);
      }
      forall i | 0 <= i < |w.controls.sent| ensures Fits(Encode(Control(w.controls.sent[i])), ProxyLimit(mtu)) {
        FitsProxyIff(Control(w.controls.sent[i]), mtu);
      }
    }
    Relay.BatchingRefinesFraming(Relay.FRAME_CHANNEL_CAPACITY, Relay.CONTROL_CHANNEL_CAPACITY, ws, seen,
                                 ProxyLimit(mtu), p);
  }
}
