/** What the two UDP loops achieve: exactly which datagrams one poll moves and where it stops, and that
    repeated polls and receives leave nothing behind. */
module UdpDelivery {
  import opened Base
  import opened Channels
  import opened UdpPath

  // ---------------------------------------------------------------- one poll of the socket

  lemma {:induction false} SmallCons(d: Datagram, ds: seq<Datagram>)
    ensures Small([d] + ds) == (if |d.data| <= UDP_READ_BUF_SIZE then [d] else []) + Small(ds)
    decreases |ds|
  {
    if ds == [] {
      assert [d] + ds == [] + [d];
      SmallPush([], d);
    } else {
      var (front, last) := (ds[..|ds| - 1], ds[|ds| - 1]);
      SmallCons(d, front);
      assert ds == front + [last] && [d] + ds == ([d] + front) + [last];
      SmallPush(front, last);
      SmallPush([d] + front, last);
    }
  }

  /** The channel with more behind what is queued. */
  function Extended(channel: Channel<Datagram>, more: seq<Datagram>): Channel<Datagram> {
    channel.(queue := channel.queue + more, sent := channel.sent + more)
  }

  function ReadStats(stats: UdpStats, moved: nat, blocked: bool): UdpStats {
    stats.(rxPackets := stats.rxPackets + moved, rxDropped := stats.rxDropped + if blocked then 1 else 0)
  }

  /** The poll takes the first `k` datagrams out of the socket, and those of them that fit the buffer
      go behind what is queued.  It stops when the socket is empty, when the channel takes no more, or
      behind the first datagram that does not fit. */
  predicate OrderlyUdpRead(socket: UdpSocket, st: UdpSocketState, r: UdpPair, k: nat) {
    && k <= |socket.rx|
    && r.st == st.(read := Extended(st.read, Small(socket.rx[..k])))
    && r.socket == socket.(rx := socket.rx[k..], passed := socket.passed + k,
                           stats := ReadStats(socket.stats, |Small(socket.rx[..k])|, EndsBlocked(r)))
    && (forall i :: 0 <= i < k - 1 ==> |socket.rx[i].data| <= UDP_READ_BUF_SIZE)
    && (|st.read.queue| <= st.read.cap ==> |r.st.read.queue| <= st.read.cap)
    && (r.socket.rx == [] || !r.st.read.Accepts() || (k > 0 && |socket.rx[k - 1].data| > UDP_READ_BUF_SIZE))
  }

  lemma ExtendedTwice(channel: Channel<Datagram>, d: Datagram, more: seq<Datagram>)
    ensures Extended(channel.Push(d), more) == Extended(channel, [d] + more)
  {
    assert channel.queue + [d] + more == channel.queue + ([d] + more);
    assert channel.sent + [d] + more == channel.sent + ([d] + more);
  }

  lemma ExtendedNot(channel: Channel<Datagram>)
    ensures Extended(channel, []) == channel
  {
    assert channel.queue + [] == channel.queue && channel.sent + [] == channel.sent;
  }

  /** One datagram more in front. */
  lemma OrderlyAfterOne(socket: UdpSocket, st: UdpSocketState, r: UdpPair, k: nat)
    requires socket.rx != [] && |socket.rx[0].data| <= UDP_READ_BUF_SIZE && st.read.Accepts()
    requires OrderlyUdpRead(PassOne(socket, st).socket, PassOne(socket, st).st, r, k)
    ensures OrderlyUdpRead(socket, st, r, k + 1)
  {
    var (d, rest) := (socket.rx[0], socket.rx[1..]);
    SmallCons(d, rest[..k]);
    assert socket.rx[..k + 1] == [d] + rest[..k] && socket.rx[k + 1..] == rest[k..];
    ExtendedTwice(st.read, d, Small(rest[..k]));
    assert forall i :: 0 < i < |socket.rx| ==> socket.rx[i] == rest[i - 1];
  }

  lemma {:induction false} UdpReadIsOrderly(socket: UdpSocket, st: UdpSocketState) returns (k: nat)
    ensures OrderlyUdpRead(socket, st, UdpReadStep(socket, st), k)
    decreases |socket.rx|
  {
    if socket.rx == [] || !st.read.Accepts() {
      k := 0;
      NothingMoved(socket, st);
    } else if |socket.rx[0].data| > UDP_READ_BUF_SIZE {
      k := 1;
      OneIsDropped(socket, st);
    } else {
      var next := PassOne(socket, st);
      k := UdpReadIsOrderly(next.socket, next.st);
      assert UdpReadStep(socket, st) == UdpReadStep(next.socket, next.st);
      OrderlyAfterOne(socket, st, UdpReadStep(socket, st), k);
      k := k + 1;
    }
  }

  lemma NothingMoved(socket: UdpSocket, st: UdpSocketState)
    requires socket.rx == [] || !st.read.Accepts()
    ensures OrderlyUdpRead(socket, st, UdpReadStep(socket, st), 0)
  {
    assert socket.rx[..0] == [] && socket.rx[0..] == socket.rx;
    ExtendedNot(st.read);
  }

  lemma OneIsDropped(socket: UdpSocket, st: UdpSocketState)
    requires socket.rx != [] && st.read.Accepts() && |socket.rx[0].data| > UDP_READ_BUF_SIZE
    ensures OrderlyUdpRead(socket, st, UdpReadStep(socket, st), 1)
  {
    var d := socket.rx[0];
    assert socket.rx[..1] == [] + [d];
    SmallPush([], d);
    assert Small(socket.rx[..1]) == [];
    ExtendedNot(st.read);
  }

  // ---------------------------------------------------------------- one poll of the write channel

  /** The socket after `ds` were passed to it one by one, with smoltcp's verdicts. */
  function Passed(socket: UdpSocket, ds: seq<Datagram>, verdicts: seq<bool>): UdpSocket
    requires |ds| == |verdicts|
  {
    var took := Took(ds, verdicts);
    socket.(tx := socket.tx + took, tried := socket.tried + ds, kept := socket.kept + verdicts,
            stats := socket.stats.(txPackets := socket.stats.txPackets + |took|,
                                   txFailed := socket.stats.txFailed + Refused(ds, verdicts)))
  }

  /** How many were refused. */
  function Refused(ds: seq<Datagram>, verdicts: seq<bool>): nat
    requires |ds| == |verdicts|
  {
    if |Took(ds, verdicts)| <= |ds| then |ds| - |Took(ds, verdicts)| else 0
  }

  lemma {:induction false} TookIsShorter(ds: seq<Datagram>, verdicts: seq<bool>)
    requires |ds| == |verdicts|
    ensures |Took(ds, verdicts)| <= |ds|
    decreases |ds|
  {
    if ds != [] {
      TookIsShorter(ds[..|ds| - 1], verdicts[..|ds| - 1]);
    }
  }

  /** `TookPush` for lists that are given whole. */
  lemma TookLast(ds: seq<Datagram>, verdicts: seq<bool>, front: seq<Datagram>, before: seq<bool>)
    requires |ds| == |verdicts| > 0 && front == ds[..|ds| - 1] && before == verdicts[..|ds| - 1]
    ensures Took(ds, verdicts) == Took(front, before) + (if verdicts[|ds| - 1] then [ds[|ds| - 1]] else [])
  {
  }

  lemma {:induction false} TookCons(d: Datagram, b: bool, ds: seq<Datagram>, verdicts: seq<bool>)
    requires |ds| == |verdicts|
    ensures Took([d] + ds, [b] + verdicts) == (if b then [d] else []) + Took(ds, verdicts)
    decreases |ds|
  {
    var n := |ds|;
    if n == 0 {
      TookLast([d] + ds, [b] + verdicts, [], []);
    } else {
      TookCons(d, b, ds[..n - 1], verdicts[..n - 1]);
      TookLast(ds, verdicts, ds[..n - 1], verdicts[..n - 1]);
      TookLast([d] + ds, [b] + verdicts, [d] + ds[..n - 1], [b] + verdicts[..n - 1]);
    }
  }

  lemma PassedCons(socket: UdpSocket, d: Datagram, takes: Decision, ds: seq<Datagram>, verdicts: seq<bool>)
    requires |ds| == |verdicts|
    ensures Passed(SendOne(socket, d, takes), ds, verdicts) == Passed(socket, [d] + ds, [takes(socket, d)] + verdicts)
  {
    var b := takes(socket, d);
    var took := Took(ds, verdicts);
    TookCons(d, b, ds, verdicts);
    TookIsShorter(ds, verdicts);
    assert socket.tried + [d] + ds == socket.tried + ([d] + ds);
    assert socket.kept + [b] + verdicts == socket.kept + ([b] + verdicts);
    assert socket.tx + [d] + took == socket.tx + ([d] + took) && [] + took == took;
  }

  /** smoltcp decided on each datagram when its turn came, and had a free slot each time. */
  predicate InTurn(socket: UdpSocket, ds: seq<Datagram>, verdicts: seq<bool>, takes: Decision) {
    && |ds| == |verdicts|
    && forall j :: 0 <= j < |ds| ==>
         && Passed(socket, ds[..j], verdicts[..j]).CanSend()
         && verdicts[j] == takes(Passed(socket, ds[..j], verdicts[..j]), ds[j])
  }

  /** The poll passes the first `k` queued datagrams to smoltcp, each when its turn comes, and stops
      only when the queue is empty or no slot is free; it closes the socket behind the last one if and
      only if nobody can send any more. */
  predicate OrderlyUdpWrite(socket: UdpSocket, st: UdpSocketState, r: UdpPair, takes: Decision,
                            k: nat, verdicts: seq<bool>) {
    && k <= |st.write.queue|
    && InTurn(socket, st.write.queue[..k], verdicts, takes)
    && r.st == st.(write := st.write.(queue := st.write.queue[k..]))
    && WriteEnds(Passed(socket, st.write.queue[..k], verdicts), r.socket, r.st.write)
  }

  predicate WriteEnds(s: UdpSocket, after: UdpSocket, write: Channel<Datagram>) {
    && (s.CanSend() ==> write.queue == [])
    && after == if s.CanSend() && !write.senders then s.Close() else s
  }

  lemma InTurnCons(socket: UdpSocket, d: Datagram, takes: Decision, ds: seq<Datagram>, verdicts: seq<bool>)
    requires socket.CanSend() && InTurn(SendOne(socket, d, takes), ds, verdicts, takes)
    ensures InTurn(socket, [d] + ds, [takes(socket, d)] + verdicts, takes)
  {
    var (all, vs) := ([d] + ds, [takes(socket, d)] + verdicts);
    forall j | 0 <= j < |all|
      ensures Passed(socket, all[..j], vs[..j]).CanSend()
      ensures vs[j] == takes(Passed(socket, all[..j], vs[..j]), all[j])
    {
      if j == 0 {
        PassedNone(socket);
        assert all[..0] == [] && vs[..0] == [];
      } else {
        PassedCons(socket, d, takes, ds[..j - 1], verdicts[..j - 1]);
        assert all[..j] == [d] + ds[..j - 1] && vs[..j] == [takes(socket, d)] + verdicts[..j - 1];
      }
    }
  }

  lemma PassedNone(socket: UdpSocket)
    ensures Passed(socket, [], []) == socket
  {
    assert socket.tx + [] == socket.tx && socket.tried + [] == socket.tried && socket.kept + [] == socket.kept;
  }

  lemma WriteAfterOne(socket: UdpSocket, st: UdpSocketState, r: UdpPair, takes: Decision, k: nat, verdicts: seq<bool>)
    requires socket.CanSend() && st.write.queue != []
    requires OrderlyUdpWrite(SendOne(socket, st.write.queue[0], takes), st.(write := st.write.Pop()), r, takes,
                             k, verdicts)
    ensures OrderlyUdpWrite(socket, st, r, takes, k + 1, [takes(socket, st.write.queue[0])] + verdicts)
  {
    var (queue, d, rest) := (st.write.queue, st.write.queue[0], st.write.queue[1..]);
    var (first, vs) := ([d] + rest[..k], [takes(socket, d)] + verdicts);
    assert queue[..k + 1] == first && queue[k + 1..] == rest[k..];
    InTurnCons(socket, d, takes, rest[..k], verdicts);
    PassedCons(socket, d, takes, rest[..k], verdicts);
    assert WriteEnds(Passed(socket, first, vs), r.socket, r.st.write);
  }

  lemma {:induction false} UdpWriteIsOrderly(socket: UdpSocket, st: UdpSocketState, takes: Decision)
    returns (k: nat, verdicts: seq<bool>)
    ensures OrderlyUdpWrite(socket, st, UdpWriteStep(socket, st, takes), takes, k, verdicts)
    decreases |st.write.queue|
  {
    var queue := st.write.queue;
    if !socket.CanSend() || queue == [] {
      k, verdicts := 0, [];
      PassedNone(socket);
      assert queue[..0] == [] && queue[0..] == queue;
    } else {
      var (next, st1) := (SendOne(socket, queue[0], takes), st.(write := st.write.Pop()));
      k, verdicts := UdpWriteIsOrderly(next, st1, takes);
      WriteAfterOne(socket, st, UdpWriteStep(next, st1, takes), takes, k, verdicts);
      k, verdicts := k + 1, [takes(socket, queue[0])] + verdicts;
    }
  }

  // ---------------------------------------------------------------- nothing stays behind

  /** A datagram that the application sends finds its way to smoltcp, behind those queued before it, at
      the next poll that has slots for them all. */
  lemma SentIsPassedOn(u: UdpLife, d: Datagram, takes: Decision)
    requires UdpInv(u) && u.attached && u.st.write.senders && |u.st.write.queue| < u.st.write.cap
    requires |u.socket.tx| + |u.st.write.queue| < UDP_PACKET_METADATA_SLOTS
    ensures var v := UdpStep(UdpStep(u, App(Send(d))), StackWrite(takes));
            && v.socket.tried == u.socket.tried + u.st.write.queue + [d]
            && v.st.write.queue == [] && v.st.write.sent == u.st.write.sent + [d]
            && v.socket.open == u.socket.open
  {
    var u1 := UdpStep(u, App(Send(d)));
    var queue := u.st.write.queue + [d];
    var k, verdicts := UdpWriteIsOrderly(u1.socket, u1.st, takes);
    TookIsShorter(queue[..k], verdicts);
    assert k == |queue|;
    assert queue[..k] == queue && queue[k..] == [];
    assert u.socket.tried + queue == u.socket.tried + u.st.write.queue + [d];
  }

  /** The stack task polls and the application receives, nothing else. */
  predicate OnlyReads(events: seq<UdpEvent>) {
    forall i :: 0 <= i < |events| ==> events[i].StackRead? || (events[i].App? && events[i].a.Receive?)
  }

  /** Some run of polls and receives leads from `u` to `v`. */
  ghost predicate ReadsTo(u: UdpLife, v: UdpLife) {
    exists events :: OnlyReads(events) && UdpRun(u, events) == v
  }

  lemma ReadsNothing(u: UdpLife)
    ensures ReadsTo(u, u)
  {
    assert OnlyReads([]) && UdpRun(u, []) == u;
  }

  lemma ReadsFirst(u: UdpLife, e: UdpEvent, v: UdpLife)
    requires (e.StackRead? || (e.App? && e.a.Receive?)) && ReadsTo(UdpStep(u, e), v)
    ensures ReadsTo(u, v)
  {
    var events :| OnlyReads(events) && UdpRun(UdpStep(u, e), events) == v;
    assert ([e] + events)[1..] == events;
    assert OnlyReads([e] + events) && UdpRun(u, [e] + events) == v;
  }

  /** The application can still read. */
  predicate Reading(u: UdpLife) {
    UdpInv(u) && u.attached && u.st.read.receiver && u.st.read.cap > 0
  }

  lemma ReceiveTakes(u: UdpLife)
    requires Reading(u) && u.st.read.queue != []
    ensures var v := UdpStep(u, App(Receive));
            Reading(v) && v.socket == u.socket && |v.st.read.queue| == |u.st.read.queue| - 1
  {
    StepKeepsUdp(u, App(Receive));
  }

  lemma PollTakes(u: UdpLife)
    requires Reading(u) && u.st.read.queue == [] && u.socket.rx != []
    ensures var v := UdpStep(u, StackRead);
            && Reading(v) && |v.socket.rx| < |u.socket.rx|
            && v.socket.open == u.socket.open && v.socket.arrived == u.socket.arrived
  {
    StepKeepsUdp(u, StackRead);
    var k := UdpReadIsOrderly(u.socket, u.st);
    ExtendedNot(u.st.read);
    assert u.socket.rx[..0] == [];
  }

  /** Polls and receives alone bring the application every datagram that arrived and fits the read
      buffer, in order. */
  lemma {:induction false} EverythingIsReceived(u: UdpLife) returns (v: UdpLife)
    requires Reading(u) && u.socket.open
    ensures ReadsTo(u, v) && v.socket.arrived == u.socket.arrived
    ensures v.received == Small(u.socket.arrived) && v.socket.rx == [] && v.st.read.queue == []
    decreases |u.socket.rx|, |u.st.read.queue|
  {
    if u.st.read.queue != [] {
      ReceiveTakes(u);
      v := EverythingIsReceived(UdpStep(u, App(Receive)));
      ReadsFirst(u, App(Receive), v);
    } else if u.socket.rx != [] {
      PollTakes(u);
      v := EverythingIsReceived(UdpStep(u, StackRead));
      ReadsFirst(u, StackRead, v);
    } else {
      v := u;
      ReadsNothing(u);
      assert u.socket.arrived[..u.socket.passed] == u.socket.arrived;
    }
  }

  /** Once the application has dropped its socket it receives nothing more, in every later run. */
  lemma DroppedReceivesNothing(u: UdpLife, events: seq<UdpEvent>)
    ensures var v := UdpRun(UdpStep(u, App(DropSocket)), events);
            v.received == u.received && v.st.write.sent == u.st.write.sent
  {
    ReaderlessReceivesNothing(UdpStep(u, App(DropSocket)), events);
  }

  lemma {:induction false} ReaderlessReceivesNothing(u: UdpLife, events: seq<UdpEvent>)
    requires !u.st.read.receiver && !u.st.write.senders
    ensures var v := UdpRun(u, events); v.received == u.received && v.st.write.sent == u.st.write.sent
    decreases |events|
  {
    if events != [] {
      ReaderlessStep(u, events[0]);
      ReaderlessReceivesNothing(UdpStep(u, events[0]), events[1..]);
    }
  }

  lemma ReaderlessStep(u: UdpLife, e: UdpEvent)
    requires !u.st.read.receiver && !u.st.write.senders
    ensures var v := UdpStep(u, e);
            && !v.st.read.receiver && !v.st.write.senders
            && v.received == u.received && v.st.write.sent == u.st.write.sent
  {
    match e
    case StackWrite(takes) =>
      var k, verdicts := UdpWriteIsOrderly(u.socket, u.st, takes);
    case _ =>
  }
}
