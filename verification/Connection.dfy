/** The application's end of a TCP connection, and the whole life of one connection: application,
    channels, stack task and socket, under every interleaving of their steps. */
module Connection {
  import opened Base
  import opened Channels
  import opened TcpPath

  // ---------------------------------------------------------------- the application's end

  /** `ready` is false when the call has to wait for data. */
  datatype ReadResult = ReadResult(bytes: seq<Byte>, readBuf: seq<Byte>, read: Channel<seq<Byte>>, ready: bool)

  function AppRead(readBuf: seq<Byte>, read: Channel<seq<Byte>>, want: nat): ReadResult {
    if readBuf != [] then
      var n := Min(|readBuf|, want);
      ReadResult(readBuf[..n], readBuf[n..], read, true)
    else if read.queue != [] then
      var data := read.queue[0];
      var n := Min(|data|, want);
      ReadResult(data[..n], data[n..], read.Pop(), true)
    else
      ReadResult([], [], read, !read.senders)
  }

  datatype WriteOutcome = Wrote(n: nat) | WouldBlock | BrokenPipe

  /** A stream, or one of its two owned halves, which lacks the other half's channel end. */
  class TcpStream {
    var readBuf: seq<Byte>
    var readRx: Option<Channel<seq<Byte>>>
    var writeTx: Option<Channel<seq<Byte>>>

    constructor FromChannels(readBuf: seq<Byte>, readRx: Option<Channel<seq<Byte>>>,
                             writeTx: Option<Channel<seq<Byte>>>)
      ensures this.readBuf == readBuf && this.readRx == readRx && this.writeTx == writeTx
    {
      this.readBuf, this.readRx, this.writeTx := readBuf, readRx, writeTx;
    }

    /** One `read` or `poll_read`: the bytes stored in `buf` are the next ones in order, and none
        are lost, whatever the size of `buf`.  It waits only while there is nothing to read and more
        can come, and stores as much as fits of what is buffered, or of the next chunk. */
    method Read(buf: array<Byte>) returns (n: nat, ready: bool)
      requires readRx.Some?
      modifies this`readBuf, this`readRx, buf
      ensures readRx.Some? && n <= buf.Length && buf[n..] == old(buf[n..])
      ensures ReadResult(buf[..n], readBuf, readRx.value, ready) == AppRead(old(readBuf), old(readRx).value, buf.Length)
      ensures old(readBuf) + Flat(old(readRx).value.queue) == buf[..n] + readBuf + Flat(readRx.value.queue)
      ensures ready <==> old(readBuf) != [] || old(readRx).value.queue != [] || !old(readRx).value.senders
      ensures n == if old(readBuf) != [] then Min(buf.Length, |old(readBuf)|)
                   else if old(readRx).value.queue != [] then Min(buf.Length, |old(readRx).value.queue[0]|)
                   else 0
    {
      n, ready := 0, true;
      var read := readRx.value;
      if readBuf != [] {
        n := Min(|readBuf|, buf.Length);
        forall i | 0 <= i < n {
          buf[i] := readBuf[i];
        }
        assert buf[..n] == readBuf[..n];
        readBuf := readBuf[n..];
      } else if read.queue != [] {
        var data := read.queue[0];
        readRx := Some(read.Pop());
        n := Min(|data|, buf.Length);
        forall i | 0 <= i < n {
          buf[i] := data[i];
        }
        assert buf[..n] == data[..n];
        assert data == data[..n] + data[n..];
        readBuf := data[n..];
      } else {
        assert buf[..0] == [];
        ready := !read.senders;
      }
    }

    /** One `poll_write`: a chunk is taken whole, or not at all. */
    method PollWrite(data: seq<Byte>) returns (r: WriteOutcome)
      requires writeTx.Some?
      modifies this`writeTx
      ensures r.Wrote? <==> old(writeTx).value.Accepts()
      ensures r.BrokenPipe? <==> !old(writeTx).value.receiver
      ensures r.Wrote? ==> r.n == |data| && writeTx == Some(old(writeTx).value.Push(data))
      ensures !r.Wrote? ==> writeTx == old(writeTx)
    {
      if !writeTx.value.receiver {
        r := BrokenPipe;
      } else if writeTx.value.Full() {
        r := WouldBlock;
      } else {
        writeTx := Some(writeTx.value.Push(data));
        r := Wrote(|data|);
      }
    }

    /** Splitting moves each channel end into one half and leaves nothing in the stream; the bytes
        already buffered go with the read half. */
    method IntoSplit() returns (reader: TcpStream, writer: TcpStream)
      modifies this
      ensures fresh(reader) && fresh(writer) && reader != writer
      ensures reader.readBuf == old(readBuf) && reader.readRx == old(readRx) && reader.writeTx.None?
      ensures writer.readBuf == [] && writer.readRx.None? && writer.writeTx == old(writeTx)
      ensures readBuf == [] && readRx.None? && writeTx.None?
    {
      reader := new TcpStream.FromChannels(readBuf, readRx, None);
      writer := new TcpStream.FromChannels([], None, writeTx);
      readBuf, readRx, writeTx := [], None, None;
    }
  }

  // ---------------------------------------------------------------- the life of a connection

  /** `attached` says that the stack task still has an entry for the socket; `delivered` is every
      byte returned to the application. */
  datatype Conn = Conn(
    socket: TcpSocket,
    st: TcpSocketState,
    attached: bool,
    readBuf: seq<Byte>,
    delivered: seq<Byte>)

  /** What the application does with its ends of the channels. */
  datatype Action =
    | Write(data: seq<Byte>)        // it writes
    | Read(want: nat)               // it reads into a buffer of `want` bytes
    | DropWriter                    // the last sender of the write channel goes away
    | DropReader                    // the receiver of the read channel goes away

  datatype Event =
    | App(a: Action)
    | StackWrite                    // the stack task polls the write channel
    | StackRead                     // the stack task polls the socket for data
    | Acked(n: nat)                 // the network acknowledges up to `n` bytes
    | Arrived(data: seq<Byte>)      // the network delivers data in order
    | StateChange(to: TcpState, local: Option<SocketAddr>, remote: Option<SocketAddr>)
                                    // the network changes the connection state and its endpoints
    | Reset(local: Option<SocketAddr>, remote: Option<SocketAddr>)
                                    // smoltcp resets the connection, which empties its buffers
    | TcpClose                      // the stack task handles a close command
    | LetGo                         // the stack task drops its channel ends only

  function Act(c: Conn, a: Action): Conn {
    match a
    case Write(data) =>
      if c.st.write.senders && c.st.write.Accepts()
      then c.(st := c.st.(write := c.st.write.Push(data))) else c
    case Read(want) =>
      if !c.st.read.receiver then c else
      var r := AppRead(c.readBuf, c.st.read, want);
      c.(st := c.st.(read := r.read), readBuf := r.readBuf, delivered := c.delivered + r.bytes)
    case DropWriter => c.(st := c.st.(write := c.st.write.(senders := false)))
    case DropReader => c.(st := c.st.(read := c.st.read.(receiver := false)))
  }

  function Step(c: Conn, e: Event): Conn {
    match e
    case App(a) => Act(c, a)
    case StackWrite =>
      if !c.attached then c else
      var r := WriteStep(c.socket, c.st);
      c.(socket := r.socket, st := r.st)
    case StackRead =>
      if !c.attached then c else
      var r := ReadStep(c.socket, c.st);
      c.(socket := r.socket, st := r.st)
    case Acked(n) => c.(socket := c.socket.(tx := c.socket.tx[Min(n, |c.socket.tx|)..]))
    case Arrived(data) =>
      if c.socket.state == Closed then c else
      c.(socket := c.socket.(rx := c.socket.rx + data, arrived := c.socket.arrived + data))
    case StateChange(to, local, remote) =>
      if c.socket.state == Closed then c else
      c.(socket := c.socket.(state := to, local := local, remote := remote))
    case Reset(local, remote) =>
      c.(socket := c.socket.(state := Closed, tx := [], rx := [], local := local, remote := remote))
    case TcpClose =>
      c.(socket := c.socket.Close(), attached := false, st := Detach(c.st))
    case LetGo => c.(attached := false, st := Detach(c.st))
  }

  function Run(c: Conn, events: seq<Event>): Conn
    decreases |events|
  {
    if events == [] then c else Run(Step(c, events[0]), events[1..])
  }

  /** A connection when its channels are created. */
  predicate Opened(c: Conn) {
    && c.socket.Valid() && c.socket.handed == [] && c.socket.taken == []
    && c.st == NewTcpState() && c.attached && c.readBuf == [] && c.delivered == []
  }

  predicate SendConserved(c: Conn) {
    if c.attached
    then Flat(c.st.write.sent) == c.socket.handed + c.st.Backlog()
    else c.socket.handed <= Flat(c.st.write.sent)
  }

  predicate ReceiveConserved(c: Conn) {
    c.socket.taken == c.delivered + c.readBuf + Flat(c.st.read.queue)
  }

  predicate ConnInv(c: Conn) {
    && c.socket.Valid()
    && SendConserved(c)
    && ReceiveConserved(c)
    && [] !in c.st.read.queue
    && c.attached == c.st.write.receiver == c.st.read.senders
    && |c.st.write.queue| <= c.st.write.cap && |c.st.read.queue| <= c.st.read.cap
  }

  lemma OpenedIsConserved(c: Conn)
    requires Opened(c)
    ensures ConnInv(c)
  {
  }

  lemma WriteKeeps(c: Conn, data: seq<Byte>)
    requires ConnInv(c)
    ensures ConnInv(Act(c, Write(data)))
  {
    if c.st.write.senders && c.st.write.Accepts() {
      FlatPush(c.st.write.queue, data);
      FlatPush(c.st.write.sent, data);
    }
  }

  lemma AppReadConserves(readBuf: seq<Byte>, read: Channel<seq<Byte>>, want: nat)
    ensures var r := AppRead(readBuf, read, want);
            readBuf + Flat(read.queue) == r.bytes + r.readBuf + Flat(r.read.queue)
  {
  }

  lemma Reassociate(done: seq<Byte>, a: seq<Byte>, b: seq<Byte>, x: seq<Byte>, y: seq<Byte>, z: seq<Byte>)
    requires a + b == x + y + z
    ensures done + a + b == (done + x) + y + z
  {
    assert done + a + b == done + (a + b);
    assert done + (x + y + z) == (done + x) + y + z;
  }

  lemma ReadKeeps(c: Conn, want: nat)
    requires ConnInv(c)
    ensures ConnInv(Act(c, Read(want)))
  {
    if c.st.read.receiver {
      AppReadConserves(c.readBuf, c.st.read, want);
      var r := AppRead(c.readBuf, c.st.read, want);
      Reassociate(c.delivered, c.readBuf, Flat(c.st.read.queue), r.bytes, r.readBuf, Flat(r.read.queue));
      assert forall x <- r.read.queue :: x in c.st.read.queue;
    }
  }

  lemma GreedyConserves(socket: TcpSocket, st: TcpSocketState, r: Pair)
    requires GreedyWrite(socket, st, r) && socket.Valid()
    ensures r.socket.Valid() && socket.handed + st.Backlog() == r.socket.handed + r.st.Backlog()
  {
    var backlog := st.Backlog();
    var n := if socket.MaySend() then Min(socket.Room(), |backlog|) else 0;
    SuffixGrows(socket.tx, socket.handed, backlog[..n]);
    SplitBacklog(socket.handed, backlog, n);
  }

  lemma SplitBacklog(handed: seq<Byte>, backlog: seq<Byte>, n: nat)
    requires n <= |backlog|
    ensures handed + backlog == (handed + backlog[..n]) + backlog[n..]
  {
  }

  lemma SuffixGrows(tx: seq<Byte>, handed: seq<Byte>, more: seq<Byte>)
    requires |tx| <= |handed| && tx == handed[|handed| - |tx|..]
    ensures tx + more == (handed + more)[|handed| - |tx|..]
  {
  }

  lemma StackWriteKeeps(c: Conn)
    requires ConnInv(c)
    ensures ConnInv(Step(c, StackWrite))
  {
    if c.attached {
      WriteStepIsGreedy(c.socket, c.st);
      GreedyConserves(c.socket, c.st, WriteStep(c.socket, c.st));
    }
  }

  lemma StackReadKeeps(c: Conn)
    requires ConnInv(c)
    ensures ConnInv(Step(c, StackRead))
  {
    if c.attached {
      var moved, added := ReadStepIsOrderly(c.socket, c.st);
      FlatAppend(c.st.read.queue, added);
    }
  }

  lemma ActKeeps(c: Conn, a: Action)
    requires ConnInv(c)
    ensures ConnInv(Act(c, a))
  {
    match a
    case Write(data) => WriteKeeps(c, data);
    case Read(want) => ReadKeeps(c, want);
    case _ =>
  }

  lemma StepKeepsConn(c: Conn, e: Event)
    requires ConnInv(c)
    ensures ConnInv(Step(c, e))
  {
    match e
    case App(a) => ActKeeps(c, a);
    case StackWrite => StackWriteKeeps(c);
    case StackRead => StackReadKeeps(c);
    case _ =>
  }

  /** Conservation in both directions, over every run. */
  lemma {:induction false} RunKeepsConn(c: Conn, events: seq<Event>)
    requires ConnInv(c)
    ensures ConnInv(Run(c, events))
    decreases |events|
  {
    if events != [] {
      StepKeepsConn(c, events[0]);
      RunKeepsConn(Step(c, events[0]), events[1..]);
    }
  }

  /** End to end: what was handed to the socket is a prefix of what the application wrote, and what
      the application read is a prefix of what arrived from the network. */
  lemma InOrderDelivery(c: Conn, events: seq<Event>)
    requires Opened(c)
    ensures var d := Run(c, events);
            && d.socket.handed <= Flat(d.st.write.sent)
            && d.delivered <= d.socket.arrived
            && (d.attached ==> Flat(d.st.write.sent) == d.socket.handed + d.st.Backlog())
            && (d.socket.state != Closed ==>
                d.socket.arrived == d.delivered + d.readBuf + Flat(d.st.read.queue) + d.socket.rx)
  {
    OpenedIsConserved(c);
    RunKeepsConn(c, events);
  }

  /** A read into a non-empty buffer returns no bytes exactly when the stack task has let go of the
      connection and every byte it took from the socket was delivered. */
  lemma EofExactlyAtEnd(c: Conn, want: nat)
    requires ConnInv(c) && want > 0
    ensures var r := AppRead(c.readBuf, c.st.read, want);
            r.ready && r.bytes == [] <==> !c.attached && c.delivered == c.socket.taken
  {
  }

  /** Dropping the write half: polling the write channel closes the socket exactly when the last
      accepted byte fits into the send buffer with room to spare, and never before every accepted
      byte was handed over. */
  lemma HalfCloseFlushes(c: Conn)
    requires ConnInv(c) && c.attached
    ensures var d := Step(c, StackWrite);
            && (d.socket.state != c.socket.state <==>
                c.socket.MaySend() && !c.st.write.senders && |c.st.Backlog()| < c.socket.Room())
            && (d.socket.state != c.socket.state ==>
                d.socket.handed == Flat(d.st.write.sent) && d.st.Backlog() == [])
  {
    WriteStepIsGreedy(c.socket, c.st);
    StackWriteKeeps(c);
  }

  /** After a close command nothing more is handed over or accepted, so the bytes lost are exactly
      the backlog at that moment: the stream is sent completely if and only if it was empty. */
  lemma {:induction false} CloseLosesBacklog(c: Conn, events: seq<Event>)
    requires ConnInv(c) && c.attached
    ensures var d := Run(Step(c, TcpClose), events);
            && d.socket.handed == c.socket.handed
            && Flat(d.st.write.sent) == d.socket.handed + c.st.Backlog()
            && (d.socket.handed == Flat(d.st.write.sent) <==> c.st.Backlog() == [])
  {
    DetachedIsFinal(Step(c, TcpClose), events);
  }

  lemma {:induction false} DetachedIsFinal(c: Conn, events: seq<Event>)
    requires !c.attached && !c.st.write.receiver
    ensures var d := Run(c, events);
            !d.attached && d.socket.handed == c.socket.handed && d.st.write.sent == c.st.write.sent
    decreases |events|
  {
    if events != [] {
      DetachedIsFinal(Step(c, events[0]), events[1..]);
    }
  }

  /** `k` rounds in which the peer acknowledges everything and the stack task then polls. */
  function Rounds(k: nat): seq<Event> {
    if k == 0 then [] else [Acked(TCP_SOCKET_BUFFER_SIZE), StackWrite] + Rounds(k - 1)
  }

  lemma OneRound(c: Conn, k: nat) returns (d: Conn)
    requires k > 0
    ensures d == Step(Step(c, Acked(TCP_SOCKET_BUFFER_SIZE)), StackWrite)
    ensures Run(c, Rounds(k)) == Run(d, Rounds(k - 1))
  {
    d := Step(Step(c, Acked(TCP_SOCKET_BUFFER_SIZE)), StackWrite);
    RunTwo(c, Acked(TCP_SOCKET_BUFFER_SIZE), StackWrite, Rounds(k - 1));
  }

  lemma OneRoundDrains(c: Conn)
    requires ConnInv(c) && c.attached && (c.socket.MaySend() || c.st.Backlog() == [])
    ensures var d := Step(Step(c, Acked(TCP_SOCKET_BUFFER_SIZE)), StackWrite);
            && ConnInv(d) && d.attached && (d.socket.MaySend() || d.st.Backlog() == [])
            && |d.st.Backlog()| == |c.st.Backlog()| - Min(TCP_SOCKET_BUFFER_SIZE, |c.st.Backlog()|)
            && d.st.write.sent == c.st.write.sent
  {
    var a := Step(c, Acked(TCP_SOCKET_BUFFER_SIZE));
    Acknowledged(c);
    StackWriteKeeps(a);
    WriteStepIsGreedy(a.socket, a.st);
    HalfCloseFlushes(a);
  }

  predicate Drained(c: Conn, d: Conn, n: nat) {
    && |d.st.Backlog()| == |c.st.Backlog()| - Min(n, |c.st.Backlog()|)
    && Flat(c.st.write.sent) == d.socket.handed + d.st.Backlog()
  }

  lemma DrainedTwice(c: Conn, d: Conn, e: Conn, n: nat, m: nat)
    requires |d.st.Backlog()| == |c.st.Backlog()| - Min(n, |c.st.Backlog()|)
    requires d.st.write.sent == c.st.write.sent && Drained(d, e, m)
    ensures Drained(c, e, n + m)
  {
  }

  /** Nothing stalls: each such round hands over one more buffer's worth of the backlog. */
  lemma {:induction false} BacklogDrains(c: Conn, k: nat)
    requires ConnInv(c) && c.attached && (c.socket.MaySend() || c.st.Backlog() == [])
    ensures Drained(c, Run(c, Rounds(k)), k * TCP_SOCKET_BUFFER_SIZE)
    decreases k
  {
    if k == 0 {
      assert Run(c, []) == c;
    } else {
      var d := Step(Step(c, Acked(TCP_SOCKET_BUFFER_SIZE)), StackWrite);
      OneRoundDrains(c);
      BacklogDrains(d, k - 1);
      RunTwo(c, Acked(TCP_SOCKET_BUFFER_SIZE), StackWrite, Rounds(k - 1));
      DrainedTwice(c, d, Run(d, Rounds(k - 1)), TCP_SOCKET_BUFFER_SIZE, (k - 1) * TCP_SOCKET_BUFFER_SIZE);
      assert k * TCP_SOCKET_BUFFER_SIZE == TCP_SOCKET_BUFFER_SIZE + (k - 1) * TCP_SOCKET_BUFFER_SIZE;
    }
  }

  lemma OneRoundCloses(c: Conn)
    requires ConnInv(c) && c.attached && c.socket.MaySend() && !c.st.write.senders
    ensures var d := Step(Step(c, Acked(TCP_SOCKET_BUFFER_SIZE)), StackWrite);
            && ConnInv(d) && d.attached && !d.st.write.senders
            && (if |c.st.Backlog()| < TCP_SOCKET_BUFFER_SIZE
                then d.socket.state == AfterClose(c.socket.state) && d.st.Backlog() == []
                else d.socket.state == c.socket.state && |d.st.Backlog()| == |c.st.Backlog()| - TCP_SOCKET_BUFFER_SIZE)
  {
    var a := Step(c, Acked(TCP_SOCKET_BUFFER_SIZE));
    Acknowledged(c);
    StackWriteKeeps(a);
    WriteStepIsGreedy(a.socket, a.st);
  }

  lemma Acknowledged(c: Conn)
    requires ConnInv(c)
    ensures var a := Step(c, Acked(TCP_SOCKET_BUFFER_SIZE));
            && ConnInv(a) && a.st == c.st && a.attached == c.attached && a.socket.state == c.socket.state
            && a.socket.Room() == TCP_SOCKET_BUFFER_SIZE
  {
    StepKeepsConn(c, Acked(TCP_SOCKET_BUFFER_SIZE));
  }

  lemma ClosedRound(c: Conn)
    requires ConnInv(c) && c.attached && !c.socket.MaySend() && c.st.Backlog() == []
    ensures var d := Step(Step(c, Acked(TCP_SOCKET_BUFFER_SIZE)), StackWrite);
            ConnInv(d) && d.attached && d.socket.state == c.socket.state && d.st.Backlog() == []
  {
    var a := Step(c, Acked(TCP_SOCKET_BUFFER_SIZE));
    Acknowledged(c);
    StackWriteKeeps(a);
    WriteStepIsGreedy(a.socket, a.st);
  }

  lemma {:induction false} ClosedRounds(c: Conn, k: nat)
    requires ConnInv(c) && c.attached && !c.socket.MaySend() && c.st.Backlog() == []
    ensures var d := Run(c, Rounds(k));
            d.attached && d.socket.state == c.socket.state && d.st.Backlog() == [] && ConnInv(d)
    decreases k
  {
    if k > 0 {
      ClosedRound(c);
      var d := OneRound(c, k);
      ClosedRounds(d, k - 1);
    }
  }

  /** A stream whose writer is dropped needs no close command: once enough rounds have passed for its
      backlog, every byte is handed over and the write loop has closed the socket.  The entry of the
      stack task stays. */
  lemma DroppedStreamCloses(c: Conn, k: nat)
    requires ConnInv(c) && c.attached && c.socket.MaySend() && |c.st.Backlog()| < k * TCP_SOCKET_BUFFER_SIZE
    ensures var d := Run(Step(c, App(DropWriter)), Rounds(k));
            && d.socket.state == AfterClose(c.socket.state)
            && d.socket.handed == Flat(d.st.write.sent)
            && d.attached
  {
    StepKeepsConn(c, App(DropWriter));
    WriterlessCloses(Step(c, App(DropWriter)), k);
  }

  lemma {:induction false} WriterlessCloses(c: Conn, k: nat)
    requires ConnInv(c) && c.attached && c.socket.MaySend() && !c.st.write.senders
    requires |c.st.Backlog()| < k * TCP_SOCKET_BUFFER_SIZE
    ensures var d := Run(c, Rounds(k));
            && d.socket.state == AfterClose(c.socket.state)
            && d.socket.handed == Flat(d.st.write.sent)
            && d.attached
    decreases k
  {
    if k > 0 {
      var d := Step(Step(c, Acked(TCP_SOCKET_BUFFER_SIZE)), StackWrite);
      OneRoundCloses(c);
      RunTwo(c, Acked(TCP_SOCKET_BUFFER_SIZE), StackWrite, Rounds(k - 1));
      if |c.st.Backlog()| < TCP_SOCKET_BUFFER_SIZE {
        ClosedRounds(d, k - 1);
      } else {
        assert (k - 1) * TCP_SOCKET_BUFFER_SIZE == k * TCP_SOCKET_BUFFER_SIZE - TCP_SOCKET_BUFFER_SIZE;
        WriterlessCloses(d, k - 1);
      }
    }
  }

  lemma RunTwo(c: Conn, e: Event, f: Event, rest: seq<Event>)
    ensures Run(c, [e, f] + rest) == Run(Step(Step(c, e), f), rest)
  {
  }

  // ---------------------------------------------------------------- nothing stays behind

  /** What the application writes while its channel has room is handed to the socket, behind everything
      accepted before, once enough rounds have passed. */
  lemma WrittenIsHandedOver(c: Conn, data: seq<Byte>, k: nat)
    requires ConnInv(c) && c.attached && c.socket.MaySend() && c.st.write.senders
    requires |c.st.write.queue| < c.st.write.cap && |c.st.Backlog()| + |data| <= k * TCP_SOCKET_BUFFER_SIZE
    ensures Run(Step(c, App(Write(data))), Rounds(k)).socket.handed == Flat(c.st.write.sent) + data
  {
    var d := Step(c, App(Write(data)));
    StepKeepsConn(c, App(Write(data)));
    FlatPush(c.st.write.sent, data);
    FlatPush(c.st.write.queue, data);
    BacklogDrains(d, k);
    assert Run(d, Rounds(k)).st.Backlog() == [];
  }

  /** `n` reads into a buffer of `want` bytes. */
  function Reads(n: nat, want: nat): seq<Event> {
    if n == 0 then [] else [App(Read(want))] + Reads(n - 1, want)
  }

  /** The application can still read. */
  predicate Reading(c: Conn) {
    ConnInv(c) && c.st.read.receiver
  }

  /** How many reads there can be before everything is delivered. */
  function Unread(c: Conn): nat {
    |c.readBuf| + |Flat(c.st.read.queue)| + |c.st.read.queue|
  }

  lemma ReadAdvances(c: Conn, want: nat)
    requires Reading(c) && want > 0
    ensures var d := Step(c, App(Read(want)));
            Reading(d) && d.socket == c.socket && d.attached == c.attached && d.st.read.cap == c.st.read.cap
            && (Unread(c) > 0 ==> Unread(d) < Unread(c)) && (Unread(c) == 0 ==> Unread(d) == 0)
  {
    StepKeepsConn(c, App(Read(want)));
    if c.readBuf == [] && c.st.read.queue != [] {
      FlatFirst(c.st.read.queue);
    }
  }

  lemma FlatFirst(chunks: seq<seq<Byte>>)
    requires chunks != []
    ensures |Flat(chunks)| == |chunks[0]| + |Flat(chunks[1..])|
  {
  }

  /** Nothing that the stack task took from the socket stays unread: so many reads, into a buffer of any
      size, deliver all of it. */
  lemma {:induction false} ReadsDeliver(c: Conn, n: nat, want: nat)
    requires Reading(c) && want > 0 && n >= Unread(c)
    ensures var d := Run(c, Reads(n, want));
            Reading(d) && d.socket == c.socket && d.delivered == c.socket.taken && d.st.read.queue == []
            && d.readBuf == [] && d.attached == c.attached && d.st.read.cap == c.st.read.cap
    decreases n
  {
    if n > 0 {
      ReadAdvances(c, want);
      ReadsDeliver(Step(c, App(Read(want))), n - 1, want);
      assert ([App(Read(want))] + Reads(n - 1, want))[1..] == Reads(n - 1, want);
    }
  }

  /** The stack task polls for data and the application reads, nothing else. */
  predicate OnlyReads(events: seq<Event>) {
    forall i :: 0 <= i < |events| ==> events[i].StackRead? || (events[i].App? && events[i].a.Read?)
  }

  /** Some run of polls and reads leads from `c` to `d`. */
  ghost predicate ReadsTo(c: Conn, d: Conn) {
    exists events :: OnlyReads(events) && Run(c, events) == d
  }

  lemma {:induction false} RunAppend(c: Conn, events: seq<Event>, more: seq<Event>)
    ensures Run(c, events + more) == Run(Run(c, events), more)
    decreases |events|
  {
    if events == [] {
      assert events + more == more;
    } else {
      RunAppend(Step(c, events[0]), events[1..], more);
      assert (events + more)[1..] == events[1..] + more;
    }
  }

  lemma ReadsFurther(c: Conn, events: seq<Event>, d: Conn, e: Conn)
    requires OnlyReads(events) && Run(c, events) == d && ReadsTo(d, e)
    ensures ReadsTo(c, e)
  {
    var more :| OnlyReads(more) && Run(d, more) == e;
    RunAppend(c, events, more);
    assert OnlyReads(events + more);
  }

  lemma {:induction false} ReadsAreReads(n: nat, want: nat)
    ensures OnlyReads(Reads(n, want))
  {
    if n > 0 {
      ReadsAreReads(n - 1, want);
    }
  }

  lemma FlatNonEmpty(chunks: seq<seq<Byte>>)
    requires [] !in chunks
    ensures Flat(chunks) == [] <==> chunks == []
  {
    if chunks != [] {
      FlatFirst(chunks);
    }
  }

  /** A poll behind an empty channel takes something off the socket. */
  lemma PollTakes(c: Conn)
    requires Reading(c) && c.attached && c.st.read.cap > 0 && c.st.read.queue == [] && c.socket.rx != []
    ensures var d := Step(c, StackRead);
            && Reading(d) && d.attached && |d.socket.rx| < |c.socket.rx| && d.st.read.cap == c.st.read.cap
            && d.socket == c.socket.(rx := d.socket.rx, taken := d.socket.taken)
  {
    StepKeepsConn(c, StackRead);
    var moved, added := ReadStepIsOrderly(c.socket, c.st);
    FlatNonEmpty(added);
  }

  /** Polls and reads alone bring the application everything that arrived, in order, whatever the size of
      its buffer. */
  lemma {:induction false} EverythingIsRead(c: Conn, want: nat) returns (d: Conn)
    requires Reading(c) && c.attached && c.st.read.cap > 0 && c.socket.state != Closed && want > 0
    ensures ReadsTo(c, d) && d.socket.arrived == c.socket.arrived && d.delivered == c.socket.arrived
    decreases |c.socket.rx|
  {
    var n := Unread(c);
    var b := Run(c, Reads(n, want));
    ReadsDeliver(c, n, want);
    ReadsAreReads(n, want);
    if c.socket.rx == [] {
      d := b;
    } else {
      PollTakes(b);
      var next := Step(b, StackRead);
      d := EverythingIsRead(next, want);
      assert OnlyReads([StackRead]) && Run(b, [StackRead]) == next;
      ReadsFurther(b, [StackRead], next, d);
      ReadsFurther(c, Reads(n, want), b, d);
    }
  }

  /** Once the application has dropped its reader, nothing more is taken from the socket, so that the peer
      is held back, and nothing more is delivered, in every later run. */
  lemma DroppedReaderHoldsBack(c: Conn, events: seq<Event>)
    ensures var d := Run(Step(c, App(DropReader)), events);
            d.socket.taken == c.socket.taken && d.delivered == c.delivered
  {
    ReaderlessTakesNothing(Step(c, App(DropReader)), events);
  }

  lemma {:induction false} ReaderlessTakesNothing(c: Conn, events: seq<Event>)
    requires !c.st.read.receiver
    ensures var d := Run(c, events);
            !d.st.read.receiver && d.socket.taken == c.socket.taken && d.delivered == c.delivered
    decreases |events|
  {
    if events != [] {
      ReaderlessStep(c, events[0]);
      ReaderlessTakesNothing(Step(c, events[0]), events[1..]);
    }
  }

  lemma ReaderlessStep(c: Conn, e: Event)
    requires !c.st.read.receiver
    ensures var d := Step(c, e); !d.st.read.receiver && d.socket.taken == c.socket.taken && d.delivered == c.delivered
  {
    match e
    case StackWrite => WriteStepIsGreedy(c.socket, c.st);
    case _ =>
  }
}
