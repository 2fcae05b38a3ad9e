/** One TCP socket as the stack task drives it: the part of smoltcp's socket that the source relies
    on, the two data channels, and the loops that move bytes between them. */
module TcpPath {
  import opened Base
  import opened Channels

  const TCP_SOCKET_BUFFER_SIZE: nat := 65535
  const TCP_CHANNEL_CAPACITY: nat := 8

  /** The connection states of section 3.3.2 of RFC 9293. */
  datatype TcpState =
    | Closed | Listen | SynSent | SynReceived | Established | FinWait1 | FinWait2
    | CloseWait | Closing | LastAck | TimeWait

  /** The CLOSE call of section 3.10.4 of RFC 9293. */
  function AfterClose(state: TcpState): TcpState {
    match state
    case Listen => Closed
    case SynSent => Closed
    case SynReceived => FinWait1
    case Established => FinWait1
    case CloseWait => LastAck
    case _ => state
  }

  /** After a CLOSE nobody may send any more, a second one changes nothing, and the connection is gone at
      once exactly if it was never made. */
  lemma CloseIsFinal(state: TcpState)
    ensures AfterClose(state) != Established && AfterClose(state) != CloseWait
    ensures AfterClose(AfterClose(state)) == AfterClose(state)
    ensures AfterClose(state) == Closed <==> state in {Closed, Listen, SynSent}
    ensures Ended(state) ==> Ended(AfterClose(state))
  {
  }

  /** The states on the way out: by figure 5 of section 3.3.2 of RFC 9293, a connection in one of
      them can only reach others of them. */
  predicate Ended(state: TcpState) {
    match state
    case Listen => false
    case SynSent => false
    case SynReceived => false
    case Established => false
    case _ => true
  }

  /** A smoltcp TCP socket.  `tx` and `rx` are the contents of its two buffers.  `handed` is every
      byte it ever took from `send_slice`, `taken` every byte it ever gave to `recv_slice`, and
      `arrived` every byte the network ever put into `rx`.  Only a reset, which leaves the socket
      closed for good, makes it forget buffered bytes. */
  datatype TcpSocket = TcpSocket(
    state: TcpState,
    local: Option<SocketAddr>,
    remote: Option<SocketAddr>,
    tx: seq<Byte>,
    rx: seq<Byte>,
    handed: seq<Byte>,
    taken: seq<Byte>,
    arrived: seq<Byte>)
  {
    predicate MaySend() {
      state == Established || state == CloseWait
    }

    function Room(): nat {
      if |tx| < TCP_SOCKET_BUFFER_SIZE then TCP_SOCKET_BUFFER_SIZE - |tx| else 0
    }

    predicate CanSend() {
      MaySend() && Room() > 0
    }

    predicate CanRecv() {
      rx != []
    }

    /** How much of `data` a call of `send_slice` takes.  The call fails only on a socket that may
        not send, which both of its call sites rule out. */
    function Takes(data: seq<Byte>): (n: nat)
      requires MaySend()
      ensures n <= |data|
    {
      Min(Room(), |data|)
    }

    function Send(data: seq<Byte>): TcpSocket {
      this.(tx := tx + data, handed := handed + data)
    }

    function Recv(n: nat): TcpSocket
      requires n <= |rx|
    {
      this.(rx := rx[n..], taken := taken + rx[..n])
    }

    function Close(): TcpSocket {
      this.(state := AfterClose(state))
    }

    predicate Valid() {
      && |tx| <= TCP_SOCKET_BUFFER_SIZE
      && |tx| <= |handed| && tx == handed[|handed| - |tx|..]
      && taken + rx <= arrived
      && (state != Closed ==> arrived == taken + rx)
    }
  }

  function NewSocket(state: TcpState): TcpSocket {
    TcpSocket(state, None, None, [], [], [], [], [])
  }

  /** What the stack task keeps for each socket: `write` is the channel behind `write_rx`, `read`
      the one behind `read_tx`. */
  datatype TcpSocketState = TcpSocketState(
    write: Channel<seq<Byte>>,
    read: Channel<seq<Byte>>,
    pendingWrite: Option<seq<Byte>>)
  {
    /** The bytes accepted from the application and not yet handed to the socket. */
    function Backlog(): seq<Byte> {
      (if pendingWrite.Some? then pendingWrite.value else []) + Flat(write.queue)
    }
  }

  /** The stack task lets go of its channel ends; the application may still hold the others. */
  function Detach(st: TcpSocketState): TcpSocketState {
    st.(write := st.write.(receiver := false), read := st.read.(senders := false))
  }

  function NewTcpState(): TcpSocketState {
    TcpSocketState(NewChannel(TCP_CHANNEL_CAPACITY), NewChannel(TCP_CHANNEL_CAPACITY), None)
  }

  datatype Pair = Pair(socket: TcpSocket, st: TcpSocketState)

  // ---------------------------------------------------------------- write path

  /** The loop that pulls chunks from the write channel. */
  function PullChunks(socket: TcpSocket, st: TcpSocketState): Pair
    decreases |st.write.queue|
  {
    if !socket.CanSend() then
      Pair(socket, st)
    else if st.write.queue == [] then
      Pair(if st.write.senders then socket else socket.Close(), st)
    else
      var data := st.write.queue[0];
      var n := socket.Takes(data);
      var socket1 := socket.Send(data[..n]);
      var st1 := st.(write := st.write.Pop());
      if n < |data| then
        Pair(socket1, st1.(pendingWrite := Some(data[n..])))
      else
        PullChunks(socket1, st1)
  }

  function WriteStep(socket: TcpSocket, st: TcpSocketState): Pair {
    match st.pendingWrite
    case None => PullChunks(socket, st)
    case Some(data) =>
      if !socket.MaySend() then
        Pair(socket, st)
      else
        var n := socket.Takes(data);
        var socket1 := socket.Send(data[..n]);
        if n < |data| then
          Pair(socket1, st.(pendingWrite := Some(data[n..])))
        else
          PullChunks(socket1, st.(pendingWrite := None))
  }

  method ProcessTcpWrite(socket: TcpSocket, st: TcpSocketState) returns (r: Pair)
    ensures r == WriteStep(socket, st)
  {
    var s, t := socket, st;
    if t.pendingWrite.Some? {
      var data := t.pendingWrite.value;
      t := t.(pendingWrite := None);
      if s.MaySend() {
        var n := s.Takes(data);
        s := s.Send(data[..n]);
        if n < |data| {
          t := t.(pendingWrite := Some(data[n..]));
          return Pair(s, t);
        }
      } else {
        t := t.(pendingWrite := Some(data));
        return Pair(s, t);
      }
    }
    ghost var goal := PullChunks(s, t);
    while s.CanSend()
      invariant PullChunks(s, t) == goal
      decreases |t.write.queue|
    {
      if t.write.queue != [] {
        var data := t.write.queue[0];
        var n := s.Takes(data);
        s, t := s.Send(data[..n]), t.(write := t.write.Pop());
        if n < |data| {
          t := t.(pendingWrite := Some(data[n..]));
          return Pair(s, t);
        }
      } else if t.write.senders {
        break;
      } else {
        s := s.Close();
        return Pair(s, t);
      }
    }
    r := Pair(s, t);
  }

  /** The reference the write loop refines: a socket that may send takes the longest prefix of the
      backlog that fits, and is closed exactly when the senders are gone and the whole backlog
      fitted with room to spare. */
  predicate GreedyWrite(socket: TcpSocket, st: TcpSocketState, r: Pair) {
    var backlog := st.Backlog();
    var n := if socket.MaySend() then Min(socket.Room(), |backlog|) else 0;
    && r.socket.handed == socket.handed + backlog[..n]
    && r.socket.tx == socket.tx + backlog[..n]
    && r.st.Backlog() == backlog[n..]
    && r.socket.state ==
       (if socket.MaySend() && !st.write.senders && |backlog| < socket.Room()
        then AfterClose(socket.state) else socket.state)
    && r.socket == socket.(state := r.socket.state, tx := r.socket.tx, handed := r.socket.handed)
    && r.st == st.(pendingWrite := r.st.pendingWrite, write := st.write.(queue := r.st.write.queue))
    && |r.st.write.queue| <= |st.write.queue|
  }

  /** Sending one whole chunk and then behaving greedily is behaving greedily. */
  lemma GreedyAfterChunk(socket: TcpSocket, st: TcpSocketState, data: seq<Byte>, st1: TcpSocketState, r: Pair)
    requires socket.MaySend() && |data| <= socket.Room()
    requires st.Backlog() == data + st1.Backlog()
    requires st1 == st.(pendingWrite := None, write := st.write.(queue := st1.write.queue))
    requires |st1.write.queue| <= |st.write.queue|
    requires GreedyWrite(socket.Send(data), st1, r)
    ensures GreedyWrite(socket, st, r)
  {
  }

  /** So is sending the part of the first chunk that fits and keeping its tail. */
  lemma GreedyWithinChunk(socket: TcpSocket, st: TcpSocketState, data: seq<Byte>, st1: TcpSocketState)
    requires socket.MaySend() && socket.Room() < |data|
    requires st.Backlog() == data + Flat(st1.write.queue)
    requires st1 == st.(pendingWrite := Some(data[socket.Room()..]), write := st.write.(queue := st1.write.queue))
    requires |st1.write.queue| <= |st.write.queue|
    ensures GreedyWrite(socket, st, Pair(socket.Send(data[..socket.Room()]), st1))
  {
  }

  lemma GreedyIdle(socket: TcpSocket, st: TcpSocketState)
    requires socket.MaySend() ==> socket.Room() == 0
    ensures GreedyWrite(socket, st, Pair(socket, st))
  {
  }

  lemma {:induction false} PullChunksIsGreedy(socket: TcpSocket, st: TcpSocketState)
    requires st.pendingWrite.None?
    ensures GreedyWrite(socket, st, PullChunks(socket, st))
    decreases |st.write.queue|
  {
    if !socket.CanSend() {
      GreedyIdle(socket, st);
    } else if st.write.queue != [] {
      var data := st.write.queue[0];
      var n := socket.Takes(data);
      var st1 := st.(write := st.write.Pop());
      if n == |data| {
        assert data[..n] == data;
        PullChunksIsGreedy(socket.Send(data), st1);
        GreedyAfterChunk(socket, st, data, st1, PullChunks(socket.Send(data), st1));
      } else {
        GreedyWithinChunk(socket, st, data, st1.(pendingWrite := Some(data[n..])));
      }
    }
  }

  lemma WriteStepIsGreedy(socket: TcpSocket, st: TcpSocketState)
    ensures GreedyWrite(socket, st, WriteStep(socket, st))
  {
    if st.pendingWrite.None? {
      PullChunksIsGreedy(socket, st);
    } else if !socket.MaySend() {
      GreedyIdle(socket, st);
    } else {
      var data := st.pendingWrite.value;
      var n := socket.Takes(data);
      if n == |data| {
        assert data[..n] == data;
        var st1 := st.(pendingWrite := None);
        PullChunksIsGreedy(socket.Send(data), st1);
        GreedyAfterChunk(socket, st, data, st1, PullChunks(socket.Send(data), st1));
      } else {
        GreedyWithinChunk(socket, st, data, st.(pendingWrite := Some(data[n..])));
      }
    }
  }

  // ---------------------------------------------------------------- read path

  function ReadStep(socket: TcpSocket, st: TcpSocketState): Pair
    decreases |socket.rx|
  {
    if !socket.CanRecv() || !st.read.Accepts() then
      Pair(socket, st)
    else
      var n := Min(|socket.rx|, TCP_SOCKET_BUFFER_SIZE);
      ReadStep(socket.Recv(n), st.(read := st.read.Push(socket.rx[..n])))
  }

  method ProcessTcpRead(socket: TcpSocket, st: TcpSocketState) returns (r: Pair)
    ensures r == ReadStep(socket, st)
  {
    var s, t := socket, st;
    while s.CanRecv()
      invariant ReadStep(s, t) == ReadStep(socket, st)
      decreases |s.rx|
    {
      if !t.read.Accepts() {
        break;
      }
      var n := Min(|s.rx|, TCP_SOCKET_BUFFER_SIZE);
      s, t := s.Recv(n), t.(read := t.read.Push(s.rx[..n]));
    }
    r := Pair(s, t);
  }

  /** What the read loop achieves: `moved` leaves `rx` in order and enters the channel as the
      non-empty chunks `added`, until `rx` is empty or the channel takes no more. */
  predicate OrderlyRead(socket: TcpSocket, st: TcpSocketState, r: Pair, moved: seq<Byte>, added: seq<seq<Byte>>) {
    && socket.rx == moved + r.socket.rx
    && r.socket == socket.(rx := r.socket.rx, taken := socket.taken + moved)
    && r.st == st.(read := st.read.(queue := st.read.queue + added, sent := st.read.sent + added))
    && Flat(added) == moved
    && [] !in added
    && (|st.read.queue| <= st.read.cap ==> |r.st.read.queue| <= st.read.cap)
    && (r.socket.rx == [] || !r.st.read.Accepts())
  }

  lemma OrderlyAfterChunk(socket: TcpSocket, st: TcpSocketState, n: nat, r: Pair,
                          moved: seq<Byte>, added: seq<seq<Byte>>)
    requires 0 < n <= |socket.rx| && st.read.Accepts()
    requires OrderlyRead(socket.Recv(n), st.(read := st.read.Push(socket.rx[..n])), r, moved, added)
    ensures OrderlyRead(socket, st, r, socket.rx[..n] + moved, [socket.rx[..n]] + added)
  {
  }

  lemma {:induction false} ReadStepIsOrderly(socket: TcpSocket, st: TcpSocketState)
    returns (moved: seq<Byte>, added: seq<seq<Byte>>)
    ensures OrderlyRead(socket, st, ReadStep(socket, st), moved, added)
    decreases |socket.rx|
  {
    if !socket.CanRecv() || !st.read.Accepts() {
      moved, added := [], [];
    } else {
      var n := Min(|socket.rx|, TCP_SOCKET_BUFFER_SIZE);
      var chunk := socket.rx[..n];
      var socket1, st1 := socket.Recv(n), st.(read := st.read.Push(chunk));
      moved, added := ReadStepIsOrderly(socket1, st1);
      OrderlyAfterChunk(socket, st, n, ReadStep(socket1, st1), moved, added);
      moved, added := chunk + moved, [chunk] + added;
    }
  }
}
