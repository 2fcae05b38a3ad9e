/** What the stack task guarantees over every run from its start, in plain terms. */
module Theorems {
  import opened Base
  import opened TcpPath
  import opened UdpPath
  import opened Stack
  import opened Ownership
  import opened Accounting
  import opened Machine
  import opened Safety
  import opened Conservation
  import opened UdpConservation
  import Wakeup
  import Replies
  import C = Connection

  /** A state that some run from the start reaches. */
  ghost predicate Reachable(w: World) {
    exists local, events :: Run(Init(local), events) == Next(w)
  }

  lemma ReachableKeeps(w: World)
    requires Reachable(w)
    ensures Kept(w) && Conserves(w) && UdpConserves(w)
  {
    var local, events :| Run(Init(local), events) == Next(w);
    InitKept(local);
    RunConserves(Init(local), events);
    RunConservesUdp(Init(local), events);
  }

  /** No lookup in the socket set ever fails, whatever the network, the applications and the order of
      events. */
  lemma NeverPanics(local: Local, events: seq<Event>)
    ensures Run(Init(local), events).Next?
  {
    InitKept(local);
    RunKeeps(Init(local), events);
  }

  /** No handle is handed out twice as a stream, as a UDP socket or as a listener, and every handle
      handed out still names a live socket of its kind. */
  lemma HandlesAreIssuedOnce(w: World)
    requires Reachable(w)
    ensures forall i, j :: 0 <= i < j < |w.s.log.replies| ==>
              !SameIssue(w.s.log.replies[i].outcome, w.s.log.replies[j].outcome)
    ensures forall i :: 0 <= i < |w.s.log.replies| ==>
              match w.s.log.replies[i].outcome
              case StreamReady(h, _, _) => IsTcp(w.s.sockets, h)
              case ListenerReady(h, _) => IsTcp(w.s.sockets, h)
              case UdpReady(h, _) => IsUdp(w.s.sockets, h)
              case Failed(_) => true
  {
    ReachableKeeps(w);
    forall i | 0 <= i < |w.s.log.replies|
      ensures var o := w.s.log.replies[i].outcome;
              && (o.StreamReady? || o.ListenerReady? ==> IsTcp(w.s.sockets, o.h))
              && (o.UdpReady? ==> IsUdp(w.s.sockets, o.h))
    {
      IssuedHas(w.s.log.replies, i);
    }
  }

  /** The tables own disjoint sets of live sockets: lists without duplicates, disjoint from each
      other and from the sockets with channels; a pending accept has its listener, so that the
      branch that fails it for a closed listener is dead. */
  lemma TablesAreOwned(w: World)
    requires Reachable(w)
    ensures forall l <- w.s.listeners :: NoDuplicates(w.s.listeners[l].handles)
    ensures forall l <- w.s.listeners, h <- w.s.listeners[l].handles :: IsTcp(w.s.sockets, h) && h !in w.s.tcpStates
    ensures forall l <- w.s.listeners, m <- w.s.listeners, h <- w.s.listeners[l].handles ::
              h in w.s.listeners[m].handles ==> l == m
    ensures forall h <- w.s.tcpStates :: IsTcp(w.s.sockets, h)
    ensures forall h <- w.s.udpStates :: IsUdp(w.s.sockets, h)
    ensures forall h <- w.s.pending :: if w.s.pending[h].AcceptOp? then h in w.s.listeners else h in w.s.tcpStates
  {
    ReachableKeeps(w);
    forall l, h | l in w.s.listeners && h in w.s.listeners[l].handles
      ensures InList(w.s.listeners, l, h) && IsTcp(w.s.sockets, h) && h !in w.s.tcpStates
    {
      assert InList(w.s.listeners, l, h);
    }
    forall l, m, h | l in w.s.listeners && m in w.s.listeners && h in w.s.listeners[l].handles
                     && h in w.s.listeners[m].handles
      ensures l == m
    {
      assert InList(w.s.listeners, l, h) && InList(w.s.listeners, m, h);
    }
  }

  predicate WaitsAt(s: Stack, h: Handle, req: nat) {
    h in s.pending && s.pending[h].req == req
  }

  predicate AnsweredBy(s: Stack, i: int, req: nat) {
    0 <= i < |s.log.replies| && s.log.replies[i].req == req
  }

  predicate DroppedIn(s: Stack, j: int, req: nat) {
    0 <= j < |s.log.dropped| && s.log.dropped[j] == req
  }

  lemma SomewhereOnce(s: Stack, req: nat)
    requires Accounted(s.pending, s.log) && req < s.log.requests
    ensures (exists h :: WaitsAt(s, h, req)) || (exists i :: AnsweredBy(s, i, req))
            || (exists j :: DroppedIn(s, j, req))
    ensures forall h, i :: !(WaitsAt(s, h, req) && AnsweredBy(s, i, req))
    ensures forall h, j :: !(WaitsAt(s, h, req) && DroppedIn(s, j, req))
    ensures forall i, j :: !(AnsweredBy(s, i, req) && DroppedIn(s, j, req))
    ensures forall h, k :: WaitsAt(s, h, req) && WaitsAt(s, k, req) ==> h == k
    ensures forall i, j :: AnsweredBy(s, i, req) && AnsweredBy(s, j, req) ==> i == j
    ensures forall i, j :: DroppedIn(s, i, req) && DroppedIn(s, j, req) ==> i == j
  {
    var fates :| |fates| == s.log.requests && Tracks(fates, s.pending, s.log.replies, s.log.dropped);
    assert Located(fates[req], req, s.pending, s.log.replies, s.log.dropped);
    match fates[req]
    case WaitingAt(h) => assert WaitsAt(s, h, req);
    case AnsweredAt(i) => assert AnsweredBy(s, i, req);
    case DroppedAt(j) => assert DroppedIn(s, j, req);
  }

  /** Each request the task took is waiting, answered or dropped: one of the three, in one place
      only.  After the task has returned none is waiting. */
  lemma RequestsAreAccountedFor(w: World, req: nat)
    requires Reachable(w) && req < w.s.log.requests
    ensures var s := w.s;
            && ((exists h :: WaitsAt(s, h, req)) || (exists i :: AnsweredBy(s, i, req))
                || (exists j :: DroppedIn(s, j, req)))
            && (forall h, i :: !(WaitsAt(s, h, req) && AnsweredBy(s, i, req)))
            && (forall h, j :: !(WaitsAt(s, h, req) && DroppedIn(s, j, req)))
            && (forall i, j :: !(AnsweredBy(s, i, req) && DroppedIn(s, j, req)))
            && (forall h, k :: WaitsAt(s, h, req) && WaitsAt(s, k, req) ==> h == k)
            && (forall i, j :: AnsweredBy(s, i, req) && AnsweredBy(s, j, req) ==> i == j)
            && (forall i, j :: DroppedIn(s, i, req) && DroppedIn(s, j, req) ==> i == j)
    ensures w.phase == Exited ==> w.s.pending == map[]
  {
    ReachableKeeps(w);
    SomewhereOnce(w.s, req);
  }

  /** Listeners have distinct ports other than zero.  A listener owns exactly the number of sockets
      it was created with, less one for each replacement that smoltcp refused it. */
  lemma ListenersKeepBacklog(w: World, l: Handle)
    requires Reachable(w) && l in w.s.listeners
    ensures w.s.listeners[l].addr.port != 0
    ensures forall m <- w.s.listeners :: w.s.listeners[m].addr.port == w.s.listeners[l].addr.port ==> m == l
    ensures l in w.s.log.sizes && 1 <= w.s.log.sizes[l]
    ensures |w.s.listeners[l].handles| + w.s.log.Short(l) == w.s.log.sizes[l]
  {
    ReachableKeeps(w);
  }

  /** Every stream that was handed out, at any moment of any run: while the task holds its channels,
      the bytes written are those handed to the socket, then the backlog; later they are still a
      prefix.  What was read is a prefix of what arrived, and nothing read is lost or reordered. */
  lemma StreamsConserveBytes(w: World, h: Handle)
    requires Reachable(w) && h in IssuedBy(w.s.log.replies).streams
    ensures Channelled(w.s, h)
    ensures var c := Project(w, h);
            && (c.attached ==> Flat(c.st.write.sent) == c.socket.handed + c.st.Backlog())
            && c.socket.handed <= Flat(c.st.write.sent)
            && c.socket.taken == c.delivered + c.readBuf + Flat(c.st.read.queue)
            && c.delivered <= c.socket.arrived
  {
    ReachableKeeps(w);
    assert Channelled(w.s, h);
    assert C.ConnInv(Project(w, h));
  }

  /** Every UDP socket that was handed out, before and after its close: each datagram accepted is queued
      or was passed to smoltcp and counted; what smoltcp took is transmitted, in the socket or lost by its
      close, in order; what was delivered was counted and is what fits the read buffer of the first
      datagrams that arrived, in order. */
  lemma UdpSocketsAccount(w: World, h: Handle)
    requires Reachable(w) && h in IssuedBy(w.s.log.replies).udps
    ensures UdpChannelled(w.s, h)
    ensures var u := ProjectUdp(w, h);
            && u.st.write.sent == u.socket.tried + u.st.write.queue
            && |u.socket.tried| == |u.socket.kept| == u.socket.stats.txPackets + u.socket.stats.txFailed
            && Took(u.socket.tried, u.socket.kept) == u.socket.gone + u.socket.tx + u.socket.lost
            && u.socket.stats.txPackets == |u.socket.gone| + |u.socket.tx| + |u.socket.lost|
            && (if u.socket.open then u.socket.lost == [] else u.socket.tx == [])
            && (u.attached || !u.socket.open || w.phase == Exited)
    ensures var u := ProjectUdp(w, h);
            && |u.received| + |u.st.read.queue| == u.socket.stats.rxPackets
            && u.socket.passed <= |u.socket.arrived|
            && u.received + u.st.read.queue == Small(u.socket.arrived[..u.socket.passed])
            && (u.socket.open ==> u.socket.rx == u.socket.arrived[u.socket.passed..])
  {
    ReachableKeeps(w);
    assert UdpChannelled(w.s, h);
    assert UdpInv(ProjectUdp(w, h));
  }

  /** What the task let go of stays unsent: after a close, and after its exit, nothing of what was queued
      or in the socket is transmitted in any later run. */
  lemma UdpLossIsFinal(w: World, events: seq<Event>, h: Handle)
    requires Reachable(w) && h in IssuedBy(w.s.log.replies).udps && h !in w.s.udpStates
    ensures Run(w, events).Next? && Unsent(w, Run(w, events).w, h)
  {
    ReachableKeeps(w);
    RunUnsent(w, events, h);
  }

  // ---------------------------------------------------------------- connects that fail

  /** The request is answered with this outcome. */
  predicate ToldBy(s: Stack, i: int, req: nat, outcome: Outcome) {
    AnsweredBy(s, i, req) && s.log.replies[i].outcome == outcome
  }

  /** A connect waits only on the socket it made. */
  lemma WaitsOnItsSocket(w: World, hist: Replies.History, req: nat, h: Handle)
    requires Replies.WorldChronicled(w, hist) && req < |hist.asks|
    requires hist.asks[req].command.TcpConnect? && hist.asks[req].made == {h}
    ensures forall k :: WaitsAt(w.s, k, req) ==> k == h && w.s.pending[k].ConnectOp?
  {
    forall k | WaitsAt(w.s, k, req)
      ensures k == h && w.s.pending[k].ConnectOp?
    {
      assert Replies.Awaits(hist.asks[req], k, w.s.pending[k]);
      assert k in hist.asks[req].made;
    }
  }

  /** Of the answers a connect can get, only a refusal is left. */
  lemma OnlyRefused(ask: Replies.Ask, outcome: Outcome, sizes: map<Handle, nat>, seen: iset<Replies.Sight>, h: Handle)
    requires Replies.Answers(ask, outcome, sizes, seen) && ask.command.TcpConnect? && ask.made == {h}
    requires Replies.Up(h) !in seen && Replies.LinkLost !in seen
    ensures outcome == Failed(ConnectionRefused)
  {
  }

  /** On every run, when the task waits, a connect whose socket has ended without ever being seen connected
      has been told that it was refused, or its sender was dropped; unless the connection to the proxy is
      lost. */
  lemma EndedConnectIsRefused(local: Local, events: seq<Event>, req: nat, h: Handle)
    requires Run(Init(local), events).Next? ==>
               var (w, hist) := (Run(Init(local), events).w, Replies.WholeHistory(local, events));
               && w.phase == Waiting && req < |hist.asks| && hist.asks[req].command.TcpConnect?
               && hist.asks[req].made == {h} && Replies.OnStack(w.s, Replies.Down(h))
               && Replies.Up(h) !in hist.seen && Replies.LinkLost !in hist.seen
    ensures Run(Init(local), events).Next?
    ensures var s := Run(Init(local), events).w.s;
            (exists i :: ToldBy(s, i, req, Failed(ConnectionRefused))) || (exists j :: DroppedIn(s, j, req))
  {
    NeverPanics(local, events);
    InitKept(local);
    RunKeeps(Init(local), events);
    Replies.RunChronicled(Init(local), events, Replies.History([], iset{}));
    Wakeup.NoLostWakeup(local, events);
    var (w, hist) := (Run(Init(local), events).w, Replies.WholeHistory(local, events));
    SomewhereOnce(w.s, req);
    WaitsOnItsSocket(w, hist, req, h);
    assert !WaitsAt(w.s, h, req);
    if i :| AnsweredBy(w.s, i, req) {
      OnlyRefused(hist.asks[req], w.s.log.replies[i].outcome, w.s.log.sizes, hist.seen, h);
      assert ToldBy(w.s, i, req, Failed(ConnectionRefused));
    }
  }

  // ---------------------------------------------------------------- the tunnel-wide UDP counters

  /** The UDP sockets handed out, in order. */
  function UdpHandles(replies: seq<Reply>): seq<Handle> {
    if replies == [] then []
    else
      var (first, last) := (UdpHandles(replies[..|replies| - 1]), replies[|replies| - 1].outcome);
      if last.UdpReady? then first + [last.h] else first
  }

  lemma {:induction false} UdpHandlesAreIssued(replies: seq<Reply>, h: Handle)
    ensures h in UdpHandles(replies) <==> h in IssuedBy(replies).udps
  {
    if replies != [] {
      UdpHandlesAreIssued(replies[..|replies| - 1], h);
    }
  }

  /** Sums over UDP sockets: datagrams accepted, `udp_tx_packets`, `udp_tx_failed`, those queued for
      sending and those in the queue of a socket the task let go of; of those counted as sent, the ones
      transmitted, in a socket the task still has, and lost; `udp_rx_packets`, datagrams received and
      those queued for receiving. */
  datatype UdpTotals = UdpTotals(accepted: nat, txPackets: nat, txFailed: nat, txQueued: nat, txDropped: nat,
                                 transmitted: nat, waiting: nat, lost: nat,
                                 rxPackets: nat, received: nat, rxQueued: nat)

  /** How many, on one side of a condition. */
  function CountIf(b: bool, n: nat): nat {
    if b then n else 0
  }

  function UdpTotal(w: World, hs: seq<Handle>): UdpTotals
    requires forall h <- hs :: UdpChannelled(w.s, h)
  {
    if hs == [] then UdpTotals(0, 0, 0, 0, 0, 0, 0, 0, 0, 0, 0)
    else
      var n := |hs| - 1;
      var (t, u) := (UdpTotal(w, hs[..n]), ProjectUdp(w, hs[n]));
      UdpTotals(t.accepted + |u.st.write.sent|, t.txPackets + u.socket.stats.txPackets,
                t.txFailed + u.socket.stats.txFailed,
                t.txQueued + CountIf(u.attached, |u.st.write.queue|),
                t.txDropped + CountIf(!u.attached, |u.st.write.queue|),
                t.transmitted + |u.socket.gone|,
                t.waiting + CountIf(u.attached, |u.socket.tx|),
                t.lost + CountIf(!u.attached, |u.socket.tx|) + |u.socket.lost|,
                t.rxPackets + u.socket.stats.rxPackets, t.received + |u.received|, t.rxQueued + |u.st.read.queue|)
  }

  predicate Balanced(t: UdpTotals) {
    && t.accepted == t.txPackets + t.txFailed + t.txQueued + t.txDropped
    && t.txPackets == t.transmitted + t.waiting + t.lost
    && t.rxPackets == t.received + t.rxQueued
  }

  lemma {:induction false} TotalsAddUp(w: World, hs: seq<Handle>)
    requires forall h <- hs :: UdpChannelled(w.s, h) && UdpInv(ProjectUdp(w, h))
    ensures Balanced(UdpTotal(w, hs))
  {
    if hs != [] {
      var n := |hs| - 1;
      TotalsAddUp(w, hs[..n]);
      assert hs[n] in hs;
      assert TxAccounted(ProjectUdp(w, hs[n])) && RxAccounted(ProjectUdp(w, hs[n]));
    }
  }

  /** The counters of the tunnel are the sums over all UDP sockets ever handed out, open or closed:
      every datagram accepted is in `udp_tx_packets`, in `udp_tx_failed`, still queued, or in the queue
      of a socket that was let go; `udp_tx_packets` counts those transmitted, those in a socket and those
      a close lost; `udp_rx_packets` counts those received and those still queued. */
  lemma UdpCountersAddUp(w: World)
    requires Reachable(w)
    ensures var hs := UdpHandles(w.s.log.replies);
            && (forall h :: h in hs <==> h in IssuedBy(w.s.log.replies).udps)
            && (forall h <- hs :: UdpChannelled(w.s, h))
            && Balanced(UdpTotal(w, hs))
  {
    var hs := UdpHandles(w.s.log.replies);
    ReachableKeeps(w);
    forall h
      ensures h in hs <==> h in IssuedBy(w.s.log.replies).udps
    {
      UdpHandlesAreIssued(w.s.log.replies, h);
    }
    forall h | h in hs
      ensures UdpChannelled(w.s, h) && UdpInv(ProjectUdp(w, h))
    {
      UdpSocketsAccount(w, h);
    }
    TotalsAddUp(w, hs);
  }
}
