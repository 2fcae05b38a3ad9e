/** One UDP socket: the loops that move datagrams between its two channels and smoltcp. */
module UdpPath {
  import opened Base
  import opened Channels

  const UDP_READ_BUF_SIZE: nat := 9216
  const UDP_PACKET_METADATA_SLOTS: nat := 256
  const UDP_CHANNEL_CAPACITY: nat := 512

  datatype Datagram = Datagram(data: seq<Byte>, addr: SocketAddr)

  /** A socket's share of the tunnel-wide UDP counters. */
  datatype UdpStats = UdpStats(txPackets: nat, txFailed: nat, rxPackets: nat, rxDropped: nat)

  /** A smoltcp UDP socket.  `arrived` is every datagram the network put into `rx`, and the first
      `passed` of them were taken out.  `tried` is every datagram that was passed to `send_slice`, and
      `kept` says of each whether smoltcp took it.  Of those it took, `gone` were transmitted and
      `lost` were in the buffer when the socket closed. */
  datatype UdpSocket = UdpSocket(
    open: bool,
    tx: seq<Datagram>,
    rx: seq<Datagram>,
    arrived: seq<Datagram>,
    passed: nat,
    tried: seq<Datagram>,
    kept: seq<bool>,
    gone: seq<Datagram>,
    lost: seq<Datagram>,
    stats: UdpStats)
  {
    predicate CanSend() {
      |tx| < UDP_PACKET_METADATA_SLOTS
    }

    /** `close` unbinds the socket and empties its packet buffers. */
    function Close(): UdpSocket {
      this.(open := false, tx := [], rx := [], lost := lost + tx)
    }

    /** The interface transmits the first `n` datagrams of the buffer. */
    function Transmit(n: nat): UdpSocket
      requires n <= |tx|
    {
      this.(tx := tx[n..], gone := gone + tx[..n])
    }
  }

  datatype UdpSocketState = UdpSocketState(write: Channel<Datagram>, read: Channel<Datagram>)

  datatype UdpPair = UdpPair(socket: UdpSocket, st: UdpSocketState)

  /** Whether smoltcp takes a datagram (addressable, and fitting its packet buffer) is its own
      decision, so it is a parameter. */
  type Decision = (UdpSocket, Datagram) -> bool

  function NewUdpSocket(): UdpSocket {
    UdpSocket(true, [], [], [], 0, [], [], [], [], UdpStats(0, 0, 0, 0))
  }

  /** The stack task lets go of its channel ends. */
  function Detach(st: UdpSocketState): UdpSocketState {
    UdpSocketState(st.write.(receiver := false), st.read.(senders := false))
  }

  function NewUdpState(): UdpSocketState {
    UdpSocketState(NewChannel(UDP_CHANNEL_CAPACITY), NewChannel(UDP_CHANNEL_CAPACITY))
  }

  function SendOne(socket: UdpSocket, d: Datagram, takes: Decision): UdpSocket {
    if takes(socket, d)
    then socket.(tx := socket.tx + [d], tried := socket.tried + [d], kept := socket.kept + [true],
                 stats := socket.stats.(txPackets := socket.stats.txPackets + 1))
    else socket.(tried := socket.tried + [d], kept := socket.kept + [false],
                 stats := socket.stats.(txFailed := socket.stats.txFailed + 1))
  }

  function UdpWriteStep(socket: UdpSocket, st: UdpSocketState, takes: Decision): UdpPair
    decreases |st.write.queue|
  {
    if !socket.CanSend() then
      UdpPair(socket, st)
    else if st.write.queue == [] then
      UdpPair(if st.write.senders then socket else socket.Close(), st)
    else
      UdpWriteStep(SendOne(socket, st.write.queue[0], takes), st.(write := st.write.Pop()), takes)
  }

  method ProcessUdpWrite(socket: UdpSocket, st: UdpSocketState, takes: Decision) returns (r: UdpPair)
    ensures r == UdpWriteStep(socket, st, takes)
  {
    var s, t := socket, st;
    while s.CanSend()
      invariant UdpWriteStep(s, t, takes) == UdpWriteStep(socket, st, takes)
      decreases |t.write.queue|
    {
      if t.write.queue != [] {
        s, t := SendOne(s, t.write.queue[0], takes), t.(write := t.write.Pop());
      } else if t.write.senders {
        break;
      } else {
        s := s.Close();
        return UdpPair(s, t);
      }
    }
    r := UdpPair(s, t);
  }

  /** `recv_slice` takes the datagram off the socket even when the buffer is too small for it, and
      then fails. */
  function UdpReadStep(socket: UdpSocket, st: UdpSocketState): UdpPair
    decreases |socket.rx|
  {
    if socket.rx == [] then
      UdpPair(socket, st)
    else if !st.read.Accepts() then
      UdpPair(socket.(stats := socket.stats.(rxDropped := socket.stats.rxDropped + 1)), st)
    else
      var d := socket.rx[0];
      var socket1 := socket.(rx := socket.rx[1..], passed := socket.passed + 1);
      if |d.data| > UDP_READ_BUF_SIZE then
        UdpPair(socket1, st)
      else
        UdpReadStep(socket1.(stats := socket.stats.(rxPackets := socket.stats.rxPackets + 1)),
                    st.(read := st.read.Push(d)))
  }

  method ProcessUdpRead(socket: UdpSocket, st: UdpSocketState) returns (r: UdpPair)
    ensures r == UdpReadStep(socket, st)
  {
    var s, t := socket, st;
    while s.rx != []
      invariant UdpReadStep(s, t) == UdpReadStep(socket, st)
      decreases |s.rx|
    {
      if !t.read.Accepts() {
        s := s.(stats := s.stats.(rxDropped := s.stats.rxDropped + 1));
        return UdpPair(s, t);
      }
      var d := s.rx[0];
      s := s.(rx := s.rx[1..], passed := s.passed + 1);
      if |d.data| > UDP_READ_BUF_SIZE {
        return UdpPair(s, t);
      }
      s := s.(stats := s.stats.(rxPackets := s.stats.rxPackets + 1));
      t := t.(read := t.read.Push(d));
    }
    r := UdpPair(s, t);
  }

  /** The poll ends with a datagram left behind a channel that takes no more. */
  predicate EndsBlocked(r: UdpPair) {
    r.socket.rx != [] && !r.st.read.Accepts()
  }

  /** What left `rx` is at the end of the queue, in order, and the rest is still there. */
  predicate Moved(rx: seq<Datagram>, queue: seq<Datagram>, rx1: seq<Datagram>, queue1: seq<Datagram>) {
    |rx1| <= |rx| && rx1 == rx[|rx| - |rx1|..] && queue1 == queue + rx[..|rx| - |rx1|]
  }

  lemma MovedOneMore(rx: seq<Datagram>, queue: seq<Datagram>, rx1: seq<Datagram>, queue1: seq<Datagram>)
    requires rx != [] && Moved(rx[1..], queue + [rx[0]], rx1, queue1)
    ensures Moved(rx, queue, rx1, queue1)
  {
    var n := |rx| - |rx1|;
    assert rx[1..][n - 1..] == rx[n..];
    assert [rx[0]] + rx[1..][..n - 1] == rx[..n];
  }

  /** The socket and its state after one datagram went to the channel. */
  function PassOne(socket: UdpSocket, st: UdpSocketState): UdpPair
    requires socket.rx != []
  {
    UdpPair(socket.(rx := socket.rx[1..], passed := socket.passed + 1,
                    stats := socket.stats.(rxPackets := socket.stats.rxPackets + 1)),
            st.(read := st.read.Push(socket.rx[0])))
  }

  lemma {:induction false} BlockedPollsLoseNothing(socket: UdpSocket, st: UdpSocketState)
    ensures var r := UdpReadStep(socket, st);
            EndsBlocked(r) ==> Moved(socket.rx, st.read.queue, r.socket.rx, r.st.read.queue)
    decreases |socket.rx|
  {
    if socket.rx != [] && st.read.Accepts() && |socket.rx[0].data| <= UDP_READ_BUF_SIZE {
      var (next, r) := (PassOne(socket, st), UdpReadStep(socket, st));
      BlockedPollsLoseNothing(next.socket, next.st);
      assert r == UdpReadStep(next.socket, next.st);
      if EndsBlocked(r) {
        MovedOneMore(socket.rx, st.read.queue, r.socket.rx, r.st.read.queue);
      }
    } else {
      assert socket.rx[..0] == [] && st.read.queue + [] == st.read.queue;
    }
  }

  /** `udp_rx_dropped` counts polls that end so, and such a poll drops nothing: what left the socket
      is in the channel, the rest is still in the socket. */
  lemma {:induction false} BlockedPollsCounted(socket: UdpSocket, st: UdpSocketState)
    ensures var r := UdpReadStep(socket, st);
            && r.socket.stats.rxDropped == socket.stats.rxDropped + (if EndsBlocked(r) then 1 else 0)
            && (EndsBlocked(r) ==> Moved(socket.rx, st.read.queue, r.socket.rx, r.st.read.queue))
    decreases |socket.rx|
  {
    BlockedPollsLoseNothing(socket, st);
    if socket.rx != [] && st.read.Accepts() && |socket.rx[0].data| <= UDP_READ_BUF_SIZE {
      var next := PassOne(socket, st);
      BlockedPollsCounted(next.socket, next.st);
      assert UdpReadStep(socket, st) == UdpReadStep(next.socket, next.st);
    }
  }

  datatype Received = Received(n: nat, addr: SocketAddr) | Waits | BrokenPipe

  /** One `recv_from`: the next datagram, cut to the buffer.  The caller has all of it exactly when
      it fits. */
  method RecvFrom(read: Channel<Datagram>, buf: array<Byte>) returns (r: Received, rest: Channel<Datagram>)
    modifies buf
    ensures read.queue == [] ==> rest == read && r == (if read.senders then Waits else BrokenPipe)
    ensures read.queue != [] ==>
              && rest == read.Pop() && r.Received? && r.addr == read.queue[0].addr
              && r.n <= buf.Length && buf[..r.n] <= read.queue[0].data
              && (buf[..r.n] == read.queue[0].data <==> |read.queue[0].data| <= buf.Length)
    ensures r.Received? ==> r.n <= buf.Length && buf[r.n..] == old(buf[r.n..])
  {
    if read.queue == [] {
      return if read.senders then Waits else BrokenPipe, read;
    }
    var d := read.queue[0];
    var len := Min(|d.data|, buf.Length);
    forall i | 0 <= i < len {
      buf[i] := d.data[i];
    }
    assert buf[..len] == d.data[..len];
    return Received(len, d.addr), read.Pop();
  }

  // ---------------------------------------------------------------- the life of a UDP socket

  /** `attached` says that the stack task still has an entry; `received` is what the application
      took off the read channel. */
  datatype UdpLife = UdpLife(socket: UdpSocket, st: UdpSocketState, attached: bool, received: seq<Datagram>)

  /** What the application does with its ends of the channels. */
  datatype UdpAction =
    | Send(d: Datagram)                 // it sends
    | Receive                           // it takes a datagram
    | DropSocket                        // it drops the socket object

  datatype UdpEvent =
    | App(a: UdpAction)
    | StackWrite(takes: Decision)       // the stack task polls the write channel
    | StackRead                         // the stack task polls the socket
    | Transmitted(n: nat)               // smoltcp sends up to `n` datagrams out
    | Arrived(d: Datagram)              // the network delivers a datagram
    | UdpClose                          // the stack task handles a close command
    | LetGo                             // the stack task exits

  function UdpAct(u: UdpLife, a: UdpAction): UdpLife {
    match a
    case Send(d) =>
      if u.st.write.senders && u.st.write.Accepts()
      then u.(st := u.st.(write := u.st.write.Push(d))) else u
    case Receive =>
      if u.st.read.receiver && u.st.read.queue != []
      then u.(st := u.st.(read := u.st.read.Pop()), received := u.received + [u.st.read.queue[0]]) else u
    case DropSocket =>
      u.(st := UdpSocketState(u.st.write.(senders := false), u.st.read.(receiver := false)))
  }

  function UdpStep(u: UdpLife, e: UdpEvent): UdpLife {
    match e
    case App(a) => UdpAct(u, a)
    case StackWrite(takes) =>
      if !u.attached then u else
      var r := UdpWriteStep(u.socket, u.st, takes);
      u.(socket := r.socket, st := r.st)
    case StackRead =>
      if !u.attached then u else
      var r := UdpReadStep(u.socket, u.st);
      u.(socket := r.socket, st := r.st)
    case Transmitted(n) => u.(socket := u.socket.Transmit(Min(n, |u.socket.tx|)))
    case Arrived(d) =>
      if u.socket.open
      then u.(socket := u.socket.(rx := u.socket.rx + [d], arrived := u.socket.arrived + [d])) else u
    case UdpClose =>
      u.(socket := u.socket.Close(), attached := false, st := Detach(u.st))
    case LetGo => u.(attached := false, st := Detach(u.st))
  }

  function UdpRun(u: UdpLife, events: seq<UdpEvent>): UdpLife
    decreases |events|
  {
    if events == [] then u else UdpRun(UdpStep(u, events[0]), events[1..])
  }

  /** The datagrams that fit the read buffer. */
  function Small(ds: seq<Datagram>): seq<Datagram> {
    if ds == [] then []
    else Small(ds[..|ds| - 1]) + (if |ds[|ds| - 1].data| <= UDP_READ_BUF_SIZE then [ds[|ds| - 1]] else [])
  }

  lemma SmallPush(ds: seq<Datagram>, d: Datagram)
    ensures Small(ds + [d]) == Small(ds) + (if |d.data| <= UDP_READ_BUF_SIZE then [d] else [])
  {
  }

  /** The datagrams that smoltcp took, of those passed to it. */
  function Took(ds: seq<Datagram>, kept: seq<bool>): seq<Datagram>
    requires |ds| == |kept|
  {
    if ds == [] then []
    else
      var n := |ds| - 1;
      Took(ds[..n], kept[..n]) + (if kept[n] then [ds[n]] else [])
  }

  lemma TookPush(ds: seq<Datagram>, kept: seq<bool>, d: Datagram, k: bool)
    requires |ds| == |kept|
    ensures Took(ds + [d], kept + [k]) == Took(ds, kept) + (if k then [d] else [])
  {
    assert (ds + [d])[..|ds|] == ds && (kept + [k])[..|ds|] == kept;
  }

  /** What smoltcp took, in order, is what it transmitted, what waits in its buffer, and what it lost
      when it closed; `udp_tx_packets` counts it, `udp_tx_failed` the rest of what was passed to it. */
  predicate TxBooked(socket: UdpSocket) {
    && |socket.tried| == |socket.kept| == socket.stats.txPackets + socket.stats.txFailed
    && Took(socket.tried, socket.kept) == socket.gone + socket.tx + socket.lost
    && |Took(socket.tried, socket.kept)| == socket.stats.txPackets
    && (if socket.open then socket.lost == [] else socket.tx == [])
    && |socket.tx| <= UDP_PACKET_METADATA_SLOTS
  }

  /** A socket that is closed while the task has its entry was closed by the write loop. */
  predicate TxAccounted(u: UdpLife) {
    && u.st.write.sent == u.socket.tried + u.st.write.queue
    && TxBooked(u.socket)
    && (u.socket.open || !u.attached || (!u.st.write.senders && u.st.write.queue == []))
  }

  predicate RxSplit(socket: UdpSocket, st: UdpSocketState) {
    && socket.passed <= |socket.arrived|
    && st.read.sent == Small(socket.arrived[..socket.passed])
    && (socket.open ==> socket.rx == socket.arrived[socket.passed..])
    && (!socket.open ==> socket.rx == [])
  }

  /** What was taken out of the socket is the first part of what arrived; what fits the read buffer
      went to the application, in order. */
  predicate RxAccounted(u: UdpLife) {
    && |u.st.read.sent| == u.socket.stats.rxPackets
    && u.st.read.sent == u.received + u.st.read.queue
    && RxSplit(u.socket, u.st)
  }

  predicate UdpInv(u: UdpLife) {
    && TxAccounted(u) && RxAccounted(u)
    && u.attached == u.st.write.receiver == u.st.read.senders
    && |u.st.write.queue| <= u.st.write.cap && |u.st.read.queue| <= u.st.read.cap
  }

  lemma SendOneBooks(socket: UdpSocket, d: Datagram, takes: Decision)
    requires TxBooked(socket) && socket.open && socket.CanSend()
    ensures TxBooked(SendOne(socket, d, takes))
  {
    TookPush(socket.tried, socket.kept, d, takes(socket, d));
    assert takes(socket, d) ==>
        socket.gone + socket.tx + socket.lost + [d] == socket.gone + (socket.tx + [d]) + socket.lost;
  }

  lemma CloseBooks(socket: UdpSocket)
    requires TxBooked(socket)
    ensures TxBooked(socket.Close())
  {
    assert socket.gone + socket.tx + socket.lost == socket.gone + [] + (socket.lost + socket.tx);
  }

  lemma TransmitBooks(socket: UdpSocket, n: nat)
    requires TxBooked(socket) && n <= |socket.tx|
    ensures TxBooked(socket.Transmit(n))
  {
    assert socket.gone + socket.tx == (socket.gone + socket.tx[..n]) + socket.tx[n..];
  }

  /** What one poll of the write channel leaves as it was. */
  predicate WriteFrame(socket: UdpSocket, st: UdpSocketState, r: UdpPair) {
    && r.st == st.(write := st.write.(queue := r.st.write.queue))
    && |r.st.write.queue| <= |st.write.queue|
    && r.socket.stats.rxPackets == socket.stats.rxPackets
    && r.socket.arrived == socket.arrived && r.socket.passed == socket.passed && r.socket.gone == socket.gone
    && (r.socket.open ==> socket.open && r.socket.rx == socket.rx)
  }

  lemma {:induction false} WriteStepAccounts(socket: UdpSocket, st: UdpSocketState, takes: Decision)
    requires st.write.sent == socket.tried + st.write.queue && TxBooked(socket)
    requires socket.open || (!st.write.senders && st.write.queue == [])
    ensures var r := UdpWriteStep(socket, st, takes);
            && r.st.write.sent == r.socket.tried + r.st.write.queue && TxBooked(r.socket)
            && WriteFrame(socket, st, r)
            && (r.socket.open || (!st.write.senders && r.st.write.queue == []))
    decreases |st.write.queue|
  {
    CloseBooks(socket);
    if socket.CanSend() && st.write.queue != [] {
      var d := st.write.queue[0];
      assert socket.tried + st.write.queue == (socket.tried + [d]) + st.write.queue[1..];
      SendOneBooks(socket, d, takes);
      WriteStepAccounts(SendOne(socket, d, takes), st.(write := st.write.Pop()), takes);
    }
  }

  lemma {:induction false} ReadStepAccounts(socket: UdpSocket, st: UdpSocketState, taken: seq<Datagram>)
    requires st.read.sent == taken + st.read.queue && |st.read.sent| == socket.stats.rxPackets
    ensures var r := UdpReadStep(socket, st);
            && r.st.read.sent == taken + r.st.read.queue && |r.st.read.sent| == r.socket.stats.rxPackets
            && r.st == st.(read := st.read.(queue := r.st.read.queue, sent := r.st.read.sent))
            && (|st.read.queue| <= st.read.cap ==> |r.st.read.queue| <= st.read.cap)
            && r.socket == socket.(rx := r.socket.rx, passed := r.socket.passed, stats := r.socket.stats)
            && r.socket.stats.txPackets == socket.stats.txPackets
            && r.socket.stats.txFailed == socket.stats.txFailed
    decreases |socket.rx|
  {
    if socket.rx != [] && st.read.Accepts() && |socket.rx[0].data| <= UDP_READ_BUF_SIZE {
      var d := socket.rx[0];
      assert taken + st.read.queue + [d] == taken + (st.read.queue + [d]);
      var next := PassOne(socket, st);
      ReadStepAccounts(next.socket, next.st, taken);
    }
  }

  /** One more datagram leaves the socket, for the read channel if it fits the buffer. */
  lemma SplitMoves(socket: UdpSocket, st: UdpSocketState)
    requires RxSplit(socket, st) && socket.rx != []
    ensures |socket.rx[0].data| <= UDP_READ_BUF_SIZE ==>
              RxSplit(PassOne(socket, st).socket, PassOne(socket, st).st)
    ensures |socket.rx[0].data| > UDP_READ_BUF_SIZE ==>
              RxSplit(socket.(rx := socket.rx[1..], passed := socket.passed + 1), st)
  {
    var (d, n) := (socket.rx[0], socket.passed);
    assert socket.arrived[..n + 1] == socket.arrived[..n] + [d];
    SmallPush(socket.arrived[..n], d);
  }

  lemma {:induction false} ReadStepSplits(socket: UdpSocket, st: UdpSocketState)
    requires RxSplit(socket, st)
    ensures var r := UdpReadStep(socket, st); RxSplit(r.socket, r.st)
    decreases |socket.rx|
  {
    if socket.rx != [] && st.read.Accepts() {
      SplitMoves(socket, st);
      if |socket.rx[0].data| <= UDP_READ_BUF_SIZE {
        var next := PassOne(socket, st);
        ReadStepSplits(next.socket, next.st);
        assert UdpReadStep(socket, st) == UdpReadStep(next.socket, next.st);
      }
    }
  }

  /** A poll that ends with the socket closed leaves nothing in it. */
  lemma {:induction false} ClosedIsEmpty(socket: UdpSocket, st: UdpSocketState, takes: Decision)
    requires socket.open || (socket.rx == [] && st.write.queue == [])
    ensures var r := UdpWriteStep(socket, st, takes); !r.socket.open ==> r.socket.rx == []
    decreases |st.write.queue|
  {
    if socket.CanSend() && st.write.queue != [] {
      ClosedIsEmpty(SendOne(socket, st.write.queue[0], takes), st.(write := st.write.Pop()), takes);
    }
  }

  lemma StackReadKeeps(u: UdpLife)
    requires UdpInv(u)
    ensures UdpInv(UdpStep(u, StackRead))
  {
    if u.attached {
      ReadStepAccounts(u.socket, u.st, u.received);
      ReadStepSplits(u.socket, u.st);
    }
  }

  lemma StackWriteKeeps(u: UdpLife, takes: Decision)
    requires UdpInv(u)
    ensures UdpInv(UdpStep(u, StackWrite(takes)))
  {
    if u.attached {
      WriteStepAccounts(u.socket, u.st, takes);
      ClosedIsEmpty(u.socket, u.st, takes);
    }
  }

  lemma ArrivedKeeps(u: UdpLife, d: Datagram)
    requires UdpInv(u)
    ensures UdpInv(UdpStep(u, Arrived(d)))
  {
    var n := u.socket.passed;
    assert (u.socket.arrived + [d])[..n] == u.socket.arrived[..n];
    assert (u.socket.arrived + [d])[n..] == u.socket.arrived[n..] + [d];
  }

  lemma ActKeepsUdp(u: UdpLife, a: UdpAction)
    requires UdpInv(u)
    ensures UdpInv(UdpAct(u, a))
  {
  }

  lemma TransmittedKeeps(u: UdpLife, n: nat)
    requires UdpInv(u)
    ensures UdpInv(UdpStep(u, Transmitted(n)))
  {
    TransmitBooks(u.socket, Min(n, |u.socket.tx|));
  }

  lemma CloseKeeps(u: UdpLife)
    requires UdpInv(u)
    ensures UdpInv(UdpStep(u, UdpClose))
  {
    CloseBooks(u.socket);
  }

  lemma StepKeepsUdp(u: UdpLife, e: UdpEvent)
    requires UdpInv(u)
    ensures UdpInv(UdpStep(u, e))
  {
    match e
    case StackWrite(takes) => StackWriteKeeps(u, takes);
    case StackRead => StackReadKeeps(u);
    case Arrived(d) => ArrivedKeeps(u, d);
    case App(a) => ActKeepsUdp(u, a);
    case Transmitted(n) => TransmittedKeeps(u, n);
    case UdpClose => CloseKeeps(u);
    case LetGo => assert UdpInv(UdpStep(u, LetGo));
  }

  /** Every datagram accepted from the application is queued or was passed to smoltcp, and what smoltcp
      took is transmitted, in the socket or lost by its close; every datagram passed to the application
      came off the socket in order, before and after the close. */
  lemma {:induction false} RunKeepsUdp(u: UdpLife, events: seq<UdpEvent>)
    requires UdpInv(u)
    ensures UdpInv(UdpRun(u, events))
    decreases |events|
  {
    if events != [] {
      StepKeepsUdp(u, events[0]);
      RunKeepsUdp(UdpStep(u, events[0]), events[1..]);
    }
  }

  lemma {:induction false} SmallLength(ds: seq<Datagram>)
    ensures |Small(ds)| <= |ds|
    ensures AllSmall(ds) ==> Small(ds) == ds
    ensures |Small(ds)| == |ds| ==> AllSmall(ds)
  {
    if ds != [] {
      var last := ds[|ds| - 1];
      SmallLength(ds[..|ds| - 1]);
      assert ds == ds[..|ds| - 1] + [last];
    }
  }

  predicate AllSmall(ds: seq<Datagram>) {
    forall d <- ds :: |d.data| <= UDP_READ_BUF_SIZE
  }

  /** The datagrams that have left the socket for the application. */
  function PassedOn(u: UdpLife): seq<Datagram> {
    if u.socket.passed <= |u.socket.arrived| then u.socket.arrived[..u.socket.passed] else []
  }

  /** Every datagram that arrived was received, is queued, or is still in the socket, in this order. */
  predicate NothingLost(u: UdpLife) {
    u.socket.arrived == u.received + u.st.read.queue + u.socket.rx
  }

  lemma CutTail<T>(a: seq<T>, b: seq<T>, tail: seq<T>)
    ensures a + tail == b + tail <==> a == b
  {
    if a + tail == b + tail {
      assert a == (a + tail)[..|a|] && b == (b + tail)[..|b|];
    }
  }

  lemma SmallIsAllIff(passed: seq<Datagram>, rest: seq<Datagram>)
    ensures passed + rest == Small(passed) + rest <==> AllSmall(passed)
  {
    SmallLength(passed);
    CutTail(passed, Small(passed), rest);
  }

  lemma NoneLostFrom(u: UdpLife)
    requires UdpInv(u) && u.socket.open
    ensures NothingLost(u) <==> AllSmall(PassedOn(u))
  {
    SmallIsAllIff(PassedOn(u), u.socket.rx);
    assert u.socket.arrived == PassedOn(u) + u.socket.rx;
    assert u.received + u.st.read.queue == Small(PassedOn(u));
  }

  lemma NewUdpInv()
    ensures UdpInv(UdpLife(NewUdpSocket(), NewUdpState(), true, []))
  {
  }

  /** No arriving datagram is lost on the way to the application, in any run of an open socket, if
      and only if each one that left the socket fits the read buffer. */
  lemma NoneLostIffSmall(events: seq<UdpEvent>)
    requires UdpRun(UdpLife(NewUdpSocket(), NewUdpState(), true, []), events).socket.open
    ensures var u := UdpRun(UdpLife(NewUdpSocket(), NewUdpState(), true, []), events);
            NothingLost(u) <==> AllSmall(PassedOn(u))
  {
    var u := UdpLife(NewUdpSocket(), NewUdpState(), true, []);
    NewUdpInv();
    RunKeepsUdp(u, events);
    NoneLostFrom(UdpRun(u, events));
  }

  // ---------------------------------------------------------------- what a close loses

  /** A closed socket that the task has let go of, or whose channel is used up. */
  predicate Silent(u: UdpLife) {
    && !u.socket.open && u.socket.tx == [] && u.socket.rx == []
    && u.attached == u.st.write.receiver
    && (!u.attached || (!u.st.write.senders && u.st.write.queue == []))
  }

  /** Between `u` and `v` no datagram moved, except off the read channel. */
  predicate Unmoved(u: UdpLife, v: UdpLife) {
    && v.socket.tried == u.socket.tried && v.socket.gone == u.socket.gone && v.socket.lost == u.socket.lost
    && v.socket.arrived == u.socket.arrived && v.socket.passed == u.socket.passed
    && v.st.write == u.st.write.(senders := v.st.write.senders, receiver := v.st.write.receiver)
  }

  lemma StepStaysSilent(u: UdpLife, e: UdpEvent)
    requires Silent(u)
    ensures Silent(UdpStep(u, e)) && Unmoved(u, UdpStep(u, e))
  {
  }

  lemma {:induction false} SilentForever(u: UdpLife, events: seq<UdpEvent>)
    requires Silent(u)
    ensures Silent(UdpRun(u, events)) && Unmoved(u, UdpRun(u, events))
    ensures !u.attached ==> !UdpRun(u, events).attached
    decreases |events|
  {
    if events != [] {
      StepStaysSilent(u, events[0]);
      SilentForever(UdpStep(u, events[0]), events[1..]);
    }
  }

  /** Only the exit of the task leaves an open socket behind. */
  lemma {:induction false} OnlyLetGoLeavesOpen(u: UdpLife, events: seq<UdpEvent>)
    requires UdpInv(u) && (u.attached || !u.socket.open) && LetGo !in events
    ensures var v := UdpRun(u, events); v.attached || !v.socket.open
    decreases |events|
  {
    if events != [] {
      StepKeepsUdp(u, events[0]);
      if !u.attached {
        StepStaysSilent(u, events[0]);
      }
      OnlyLetGoLeavesOpen(UdpStep(u, events[0]), events[1..]);
    }
  }

  /** What the application does with a socket that the task has let go of. */
  lemma DetachedActs(u: UdpLife, events: seq<UdpEvent>)
    requires UdpInv(u) && !u.attached && (events == [] || exists a :: events == [App(a)])
    ensures var v := UdpRun(u, events); !v.attached && Unmoved(u, v) && v.socket.tx == u.socket.tx
  {
    if events != [] {
      var a :| events == [App(a)];
      assert UdpRun(u, events) == UdpAct(u, a);
    }
  }

  /** A close command loses exactly the datagrams queued in the channel and those in the socket, in every
      later run: nothing more is transmitted, though `udp_tx_packets` counts those in the socket, and
      nothing that was still in the socket is received. */
  lemma CloseLosesDatagrams(u: UdpLife, events: seq<UdpEvent>)
    requires UdpInv(u)
    ensures var v := UdpRun(UdpStep(u, UdpClose), events);
            && v.socket.tried == u.socket.tried && v.socket.gone == u.socket.gone
            && v.st.write.queue == u.st.write.queue && v.st.write.sent == u.st.write.sent
            && v.socket.lost == u.socket.lost + u.socket.tx
            && v.received + v.st.read.queue == u.received + u.st.read.queue
            && u.socket.stats.txPackets == v.socket.stats.txPackets == |v.socket.gone| + |v.socket.lost|
  {
    var c := UdpStep(u, UdpClose);
    StepKeepsUdp(u, UdpClose);
    SilentForever(c, events);
    RunKeepsUdp(c, events);
  }

  /** Once the application has dropped its socket, a poll whose datagrams all find a slot closes the socket
      behind them. */
  lemma {:induction false} ShortQueueCloses(socket: UdpSocket, st: UdpSocketState, takes: Decision)
    requires !st.write.senders && |socket.tx| + |st.write.queue| < UDP_PACKET_METADATA_SLOTS
    ensures var r := UdpWriteStep(socket, st, takes);
            !r.socket.open && r.socket.tx == [] && r.st.write.queue == [] && r.socket.gone == socket.gone
            && r.st.write.senders == st.write.senders
    decreases |st.write.queue|
  {
    if st.write.queue != [] {
      ShortQueueCloses(SendOne(socket, st.write.queue[0], takes), st.(write := st.write.Pop()), takes);
    }
  }

  /** Otherwise, when smoltcp takes every datagram, the poll fills the buffer and leaves the socket open. */
  lemma {:induction false} LongQueueFills(socket: UdpSocket, st: UdpSocketState, takes: Decision)
    requires |socket.tx| <= UDP_PACKET_METADATA_SLOTS <= |socket.tx| + |st.write.queue|
    requires forall s, d :: takes(s, d)
    ensures var r := UdpWriteStep(socket, st, takes);
            r.socket.open == socket.open && |r.socket.tx| == UDP_PACKET_METADATA_SLOTS && r.socket.gone == socket.gone
    decreases |st.write.queue|
  {
    if socket.CanSend() {
      LongQueueFills(SendOne(socket, st.write.queue[0], takes), st.(write := st.write.Pop()), takes);
    }
  }

  /** Whether anything more can be transmitted after `u`. */
  ghost predicate CanTransmit(u: UdpLife) {
    exists events :: Transmits(u, events)
  }

  predicate Transmits(u: UdpLife, events: seq<UdpEvent>) {
    UdpRun(u, events).socket.gone != u.socket.gone
  }

  /** When the application drops its socket, the next poll of the write channel loses every datagram
      that waits in the channel or in the socket, whatever happens later, unless together they fill all
      slots of the buffer; the counters then show as sent what never left. */
  lemma DropLosesDatagrams(u: UdpLife, takes: Decision)
    requires UdpInv(u) && u.attached && u.socket.open
    ensures var v := UdpStep(UdpStep(u, App(DropSocket)), StackWrite(takes));
            var short := |u.socket.tx| + |u.st.write.queue| < UDP_PACKET_METADATA_SLOTS;
            && (short ==> !CanTransmit(v) && v.socket.tried == u.socket.tried + u.st.write.queue
                          && v.socket.stats.txPackets == |u.socket.gone| + |v.socket.lost|)
            && ((forall s, d :: takes(s, d)) ==> (CanTransmit(v) <==> !short))
  {
    StepKeepsUdp(u, App(DropSocket));
    DroppedLoses(UdpStep(u, App(DropSocket)), takes);
  }

  lemma DroppedLoses(u: UdpLife, takes: Decision)
    requires UdpInv(u) && u.attached && u.socket.open && !u.st.write.senders
    ensures var (v, short) :=
              (UdpStep(u, StackWrite(takes)), |u.socket.tx| + |u.st.write.queue| < UDP_PACKET_METADATA_SLOTS);
            && (short ==> !CanTransmit(v) && v.socket.tried == u.socket.tried + u.st.write.queue
                          && v.socket.stats.txPackets == |u.socket.gone| + |v.socket.lost|)
            && ((forall s, d :: takes(s, d)) ==> (CanTransmit(v) <==> !short))
  {
    var v := UdpStep(u, StackWrite(takes));
    StepKeepsUdp(u, StackWrite(takes));
    WriteStepAccounts(u.socket, u.st, takes);
    if |u.socket.tx| + |u.st.write.queue| < UDP_PACKET_METADATA_SLOTS {
      ShortQueueCloses(u.socket, u.st, takes);
      forall events
        ensures !Transmits(v, events)
      {
        SilentForever(v, events);
      }
    } else if forall s, d :: takes(s, d) {
      LongQueueFills(u.socket, u.st, takes);
      assert UdpRun(v, [Transmitted(1)]) == UdpStep(v, Transmitted(1));
      assert |UdpStep(v, Transmitted(1)).socket.gone| == |v.socket.gone| + 1;
      assert Transmits(v, [Transmitted(1)]);
    }
  }
}
