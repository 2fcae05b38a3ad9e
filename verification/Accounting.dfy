/** What every handler of the stack task keeps: each request is answered or dropped at most once,
    listeners keep their backlog, and ports do not clash. */
module Accounting {
  import opened Base
  import opened TcpPath
  import opened UdpPath
  import opened Stack
  import opened Ownership

  // ---------------------------------------------------------------- requests

  /** Where the one-shot sender of a request is. */
  datatype Fate = WaitingAt(h: Handle) | AnsweredAt(i: nat) | DroppedAt(j: nat)

  /** `fates` locates the sender of every request made so far, and nothing else is located. */
  ghost predicate Tracks(fates: seq<Fate>, pending: map<Handle, PendingOp>, replies: seq<Reply>, dropped: seq<nat>) {
    && (forall h :: h in pending ==> pending[h].req < |fates| && fates[pending[h].req] == WaitingAt(h))
    && (forall i :: 0 <= i < |replies| ==> replies[i].req < |fates| && fates[replies[i].req] == AnsweredAt(i))
    && (forall j :: 0 <= j < |dropped| ==> dropped[j] < |fates| && fates[dropped[j]] == DroppedAt(j))
    && (forall r :: 0 <= r < |fates| ==> Located(fates[r], r, pending, replies, dropped))
  }

  predicate Located(fate: Fate, r: nat, pending: map<Handle, PendingOp>, replies: seq<Reply>, dropped: seq<nat>) {
    match fate
    case WaitingAt(h) => h in pending && pending[h].req == r
    case AnsweredAt(i) => i < |replies| && replies[i].req == r
    case DroppedAt(j) => j < |dropped| && dropped[j] == r
  }

  /** At every moment the sender of each request is in exactly one place: waiting under one handle,
      consumed by one reply, or dropped once. */
  ghost predicate Accounted(pending: map<Handle, PendingOp>, log: Log) {
    exists fates :: |fates| == log.requests && Tracks(fates, pending, log.replies, log.dropped)
  }

  lemma TrackNewAnswer(fates: seq<Fate>, pending: map<Handle, PendingOp>, replies: seq<Reply>, dropped: seq<nat>,
                       outcome: Outcome)
    requires Tracks(fates, pending, replies, dropped)
    ensures Tracks(fates + [AnsweredAt(|replies|)], pending, replies + [Reply(|fates|, outcome)], dropped)
  {
  }

  lemma TrackAnswer(fates: seq<Fate>, pending: map<Handle, PendingOp>, replies: seq<Reply>, dropped: seq<nat>,
                    h: Handle, outcome: Outcome)
    requires Tracks(fates, pending, replies, dropped) && h in pending
    ensures Tracks(fates[pending[h].req := AnsweredAt(|replies|)], pending - {h},
                   replies + [Reply(pending[h].req, outcome)], dropped)
  {
  }

  lemma TrackDrop(fates: seq<Fate>, pending: map<Handle, PendingOp>, replies: seq<Reply>, dropped: seq<nat>, h: Handle)
    requires Tracks(fates, pending, replies, dropped) && h in pending
    ensures Tracks(fates[pending[h].req := DroppedAt(|dropped|)], pending - {h}, replies, dropped + [pending[h].req])
  {
  }

  lemma NewAnswerAccounts(pending: map<Handle, PendingOp>, log: Log, log1: Log, outcome: Outcome)
    requires Accounted(pending, log)
    requires log1.requests == log.requests + 1 && log1.dropped == log.dropped
    requires log1.replies == log.replies + [Reply(log.requests, outcome)]
    ensures Accounted(pending, log1)
  {
    var fates :| |fates| == log.requests && Tracks(fates, pending, log.replies, log.dropped);
    TrackNewAnswer(fates, pending, log.replies, log.dropped, outcome);
  }

  lemma NewWaitAccounts(pending: map<Handle, PendingOp>, log: Log, h: Handle, op: PendingOp)
    requires Accounted(pending, log) && h !in pending && op.req == log.requests
    ensures Accounted(pending[h := op], log.Asked())
  {
    var fates :| |fates| == log.requests && Tracks(fates, pending, log.replies, log.dropped);
    assert Tracks(fates + [WaitingAt(h)], pending[h := op], log.replies, log.dropped);
  }

  lemma AnswerAccounts(pending: map<Handle, PendingOp>, log: Log, log1: Log, h: Handle, outcome: Outcome)
    requires Accounted(pending, log) && h in pending
    requires log1.requests == log.requests && log1.dropped == log.dropped
    requires log1.replies == log.replies + [Reply(pending[h].req, outcome)]
    ensures Accounted(pending - {h}, log1)
  {
    var fates :| |fates| == log.requests && Tracks(fates, pending, log.replies, log.dropped);
    TrackAnswer(fates, pending, log.replies, log.dropped, h, outcome);
  }

  lemma DropAccounts(pending: map<Handle, PendingOp>, log: Log, h: Handle)
    requires Accounted(pending, log) && h in pending
    ensures Accounted(pending - {h}, log.Dropped(pending[h].req))
  {
    var fates :| |fates| == log.requests && Tracks(fates, pending, log.replies, log.dropped);
    TrackDrop(fates, pending, log.replies, log.dropped, h);
  }

  lemma ConnectAccounts(s: Stack, localIp: Option<IpAddr>, addr: SocketAddr, f: Foreign)
    requires Accounted(s.pending, s.log) && Owned(s)
    ensures var t := StartConnect(s, localIp, addr, f); Accounted(t.pending, t.log)
  {
    var t := StartConnect(s, localIp, addr, f);
    if 0 in f.refused {
      NewAnswerAccounts(s.pending, s.log, t.log, Failed(Other));
    } else {
      var h := FreeSlot(s.sockets.Keys, f.Slot(0));
      PendingUsesLive(s, h);
      NewWaitAccounts(s.pending, s.log, h, t.pending[h]);
    }
  }

  lemma AddListenerAccounts(s: Stack, addr: SocketAddr, handles: seq<Handle>)
    requires Accounted(s.pending, s.log) && |handles| > 0
    ensures var t := AddListener(s, addr, handles); Accounted(t.pending, t.log)
  {
    NewAnswerAccounts(s.pending, s.log, AddListener(s, addr, handles).log, ListenerReady(handles[0], addr));
  }

  lemma ListenAccounts(s: Stack, addr: SocketAddr, backlog: nat, f: Foreign)
    requires Accounted(s.pending, s.log)
    ensures var t := StartListening(s, addr, backlog, f); Accounted(t.pending, t.log)
  {
    var t := StartListening(s, addr, backlog, f);
    var n := AtLeastOne(backlog);
    if addr.port == 0 {
      NewAnswerAccounts(s.pending, s.log, t.log, Failed(InvalidInput));
    } else if PortTaken(s.listeners, addr.port) || (exists i :: 0 <= i < n && i in f.refused) {
      NewAnswerAccounts(s.pending, s.log, t.log, Failed(AddrInUse));
    } else {
      AddListenerAccounts(s, addr, NewHandles(s.sockets.Keys, f, 0, n));
    }
  }

  lemma BindAccounts(s: Stack, addr: SocketAddr, f: Foreign)
    requires Accounted(s.pending, s.log)
    ensures var t := BindUdp(s, addr, f); Accounted(t.pending, t.log)
  {
    var t := BindUdp(s, addr, f);
    NewAnswerAccounts(s.pending, s.log, t.log, t.log.replies[|s.log.replies|].outcome);
  }

  lemma QueueAcceptAccounts(s: Stack, l: Handle)
    requires Accounted(s.pending, s.log)
    ensures var t := QueueAccept(s, l); Accounted(t.pending, t.log)
  {
    var op := AcceptOp(s.log.requests);
    if l in s.pending {
      DropAccounts(s.pending, s.log, l);
      NewWaitAccounts(s.pending - {l}, s.log.Dropped(s.pending[l].req), l, op);
      assert (s.pending - {l})[l := op] == s.pending[l := op];
    } else {
      NewWaitAccounts(s.pending, s.log, l, op);
    }
  }

  lemma AcceptAccounts(s: Stack, l: Handle, f: Foreign)
    requires Accounted(s.pending, s.log) && ListedLive(s, l)
    ensures var t := AcceptStream(s, l, f); Accounted(t.pending, t.log)
  {
    var t := AcceptStream(s, l, f);
    if l in s.listeners && FirstReady(s.sockets, s.listeners[l].handles).None? {
      QueueAcceptAccounts(s, l);
    } else {
      NewAnswerAccounts(s.pending, s.log, t.log, t.log.replies[|s.log.replies|].outcome);
    }
  }

  lemma DropPendingAccounts(s: Stack, l: Handle)
    requires Accounted(s.pending, s.log)
    ensures var t := DropPending(s, l); Accounted(t.pending, t.log)
  {
    if l in s.pending {
      DropAccounts(s.pending, s.log, l);
    }
  }

  lemma CommandAccounts(s: Stack, c: Command, f: Foreign)
    requires Accounted(s.pending, s.log) && Owned(s) && Looks(s, c)
    ensures var t := Dispatch(s, c, f); Accounted(t.pending, t.log)
  {
    match c
    case TcpConnect(localIp, addr) => ConnectAccounts(s, localIp, addr, f);
    case TcpListen(addr, backlog) => ListenAccounts(s, addr, backlog, f);
    case TcpAccept(l) => AcceptAccounts(s, l, f);
    case TcpListenerClose(l) => DropPendingAccounts(s, l);
    case UdpBind(addr) => BindAccounts(s, addr, f);
    case TcpClose(h) =>
    case UdpClose(h) =>
  }

  lemma CompleteConnectAccounts(s: Stack, h: Handle)
    requires Accounted(s.pending, s.log) && h in s.pending && s.pending[h].ConnectOp? && IsTcp(s.sockets, h)
    ensures var t := CompleteConnect(s, h); Accounted(t.pending, t.log)
  {
    var t := CompleteConnect(s, h);
    match s.sockets[h].tcp.state
    case Established =>
      AnswerAccounts(s.pending, s.log, t.log, h, StreamReady(h, s.pending[h].local, s.pending[h].peer));
    case Closed => AnswerAccounts(s.pending, s.log, t.log, h, Failed(ConnectionRefused));
    case TimeWait => AnswerAccounts(s.pending, s.log, t.log, h, Failed(ConnectionRefused));
    case _ =>
  }

  lemma CompleteAcceptAccounts(s: Stack, h: Handle, f: Foreign)
    requires Accounted(s.pending, s.log) && h in s.pending && s.pending[h].AcceptOp? && ListedLive(s, h)
    ensures var t := CompleteAccept(s, h, f); Accounted(t.pending, t.log)
  {
    var t := CompleteAccept(s, h, f);
    if h !in t.pending {
      AnswerAccounts(s.pending, s.log, t.log, h, t.log.replies[|s.log.replies|].outcome);
    }
  }

  lemma CompleteAccounts(s: Stack, h: Handle, f: Foreign)
    requires Accounted(s.pending, s.log) && PendingLooks(s, h)
    ensures var t := CompleteOne(s, h, f); Accounted(t.pending, t.log)
  {
    if h in s.pending {
      if s.pending[h].ConnectOp? {
        CompleteConnectAccounts(s, h);
      } else {
        CompleteAcceptAccounts(s, h, f);
      }
    }
  }

  // ---------------------------------------------------------------- backlog and ports

  /** The sockets of a listener and the replacements it was refused make up the backlog it was
      created with. */
  ghost predicate BacklogKept(listeners: map<Handle, ListenerState>, sizes: map<Handle, nat>, short: map<Handle, nat>) {
    forall l :: l in listeners ==>
      l in sizes && sizes[l] >= 1 && |listeners[l].handles| + CountOf(short, l) == sizes[l]
  }

  /** Live listeners have distinct ports other than zero. */
  ghost predicate PortsDistinct(listeners: map<Handle, ListenerState>) {
    && (forall l :: l in listeners ==> listeners[l].addr.port != 0)
    && (forall l, m :: l in listeners && m in listeners && listeners[l].addr.port == listeners[m].addr.port ==> l == m)
  }

  ghost predicate ListenersSound(listeners: map<Handle, ListenerState>, log: Log) {
    BacklogKept(listeners, log.sizes, log.short) && PortsDistinct(listeners)
  }

  lemma TakingKeepsSound(s: Stack, l: Handle, i: nat, f: Foreign)
    requires ListenersSound(s.listeners, s.log) && l in s.listeners && i < |s.listeners[l].handles|
    ensures var t := TakeFromListener(s, l, i, f); ListenersSound(t.listeners, t.log)
  {
    var t := TakeFromListener(s, l, i, f);
    assert t.listeners == s.listeners[l := t.listeners[l]] && t.listeners[l].addr == s.listeners[l].addr;
  }

  lemma AcceptAtKeepsSound(s: Stack, l: Handle, i: nat, req: nat, f: Foreign)
    requires ListenersSound(s.listeners, s.log) && l in s.listeners && i < |s.listeners[l].handles|
    requires Ready(s.sockets, s.listeners[l].handles[i])
    ensures var t := AcceptAt(s, l, i, req, f); ListenersSound(t.listeners, t.log)
  {
    TakingKeepsSound(s, l, i, f);
  }

  lemma AddingKeepsSound(s: Stack, addr: SocketAddr, handles: seq<Handle>)
    requires ListenersSound(s.listeners, s.log) && |handles| > 0
    requires addr.port != 0 && !PortTaken(s.listeners, addr.port)
    ensures var t := AddListener(s, addr, handles); ListenersSound(t.listeners, t.log)
  {
  }

  lemma ListenKeepsSound(s: Stack, addr: SocketAddr, backlog: nat, f: Foreign)
    requires ListenersSound(s.listeners, s.log)
    ensures var t := StartListening(s, addr, backlog, f); ListenersSound(t.listeners, t.log)
  {
    if addr.port != 0 && !PortTaken(s.listeners, addr.port) {
      AddingKeepsSound(s, addr, NewHandles(s.sockets.Keys, f, 0, AtLeastOne(backlog)));
    }
  }

  lemma ClosingKeepsSound(s: Stack, l: Handle)
    requires ListenersSound(s.listeners, s.log) && ListedLive(s, l)
    ensures var t := CloseListener(s, l); ListenersSound(t.listeners, t.log)
  {
  }

  lemma AcceptKeepsSound(s: Stack, l: Handle, f: Foreign)
    requires ListenersSound(s.listeners, s.log) && ListedLive(s, l)
    ensures var t := AcceptStream(s, l, f); ListenersSound(t.listeners, t.log)
  {
    if l in s.listeners && FirstReady(s.sockets, s.listeners[l].handles).Some? {
      AcceptAtKeepsSound(s.(log := s.log.Asked()), l,
                         FirstReady(s.sockets, s.listeners[l].handles).value, s.log.requests, f);
    }
  }

  lemma UntouchedKeepsSound(s: Stack, t: Stack)
    requires ListenersSound(s.listeners, s.log)
    requires t.listeners == s.listeners && t.log.sizes == s.log.sizes && t.log.short == s.log.short
    ensures ListenersSound(t.listeners, t.log)
  {
  }

  lemma CommandKeepsSound(s: Stack, c: Command, f: Foreign)
    requires ListenersSound(s.listeners, s.log) && Looks(s, c)
    ensures var t := Dispatch(s, c, f); ListenersSound(t.listeners, t.log)
  {
    match c
    case TcpListen(addr, backlog) => ListenKeepsSound(s, addr, backlog, f);
    case TcpAccept(l) => AcceptKeepsSound(s, l, f);
    case TcpListenerClose(l) => ClosingKeepsSound(s, l);
    case TcpConnect(localIp, addr) => UntouchedKeepsSound(s, StartConnect(s, localIp, addr, f));
    case UdpBind(addr) => UntouchedKeepsSound(s, BindUdp(s, addr, f));
    case TcpClose(h) => UntouchedKeepsSound(s, CloseStream(s, h));
    case UdpClose(h) => UntouchedKeepsSound(s, CloseUdp(s, h));
  }

  lemma CompleteKeepsSound(s: Stack, h: Handle, f: Foreign)
    requires ListenersSound(s.listeners, s.log) && PendingLooks(s, h)
    ensures var t := CompleteOne(s, h, f); ListenersSound(t.listeners, t.log)
  {
    if h in s.pending && s.pending[h].AcceptOp? && h in s.listeners
       && FirstReady(s.sockets, s.listeners[h].handles).Some? {
      AcceptAtKeepsSound(s.(pending := s.pending - {h}), h,
                         FirstReady(s.sockets, s.listeners[h].handles).value, s.pending[h].req, f);
    }
  }

  /** A successful listen opens a listener with `max(1, backlog)` distinct new sockets, all in Listen
      state, under a handle and a port that no live listener has. */
  lemma ListenOpens(s: Stack, addr: SocketAddr, backlog: nat, f: Foreign)
    requires addr.port != 0 && !PortTaken(s.listeners, addr.port)
    requires forall i :: i in f.refused ==> i >= AtLeastOne(backlog)
    ensures var t := StartListening(s, addr, backlog, f);
            && |t.log.replies| > 0
            && (var r := t.log.replies[|t.log.replies| - 1];
                && r.req == s.log.requests && r.outcome.ListenerReady? && r.outcome.addr == addr
                && r.outcome.h in t.listeners
                && (var hs := t.listeners[r.outcome.h].handles;
                    && |hs| == AtLeastOne(backlog) && hs[0] == r.outcome.h && NoDuplicates(hs)
                    && forall h <- hs :: h !in s.sockets && h in t.sockets && t.sockets[h] == ListeningSocket(addr)))
  {
    var handles := NewHandles(s.sockets.Keys, f, 0, AtLeastOne(backlog));
    NewHandlesDistinct(s.sockets.Keys, f, 0, AtLeastOne(backlog));
    assert StartListening(s, addr, backlog, f) == AddListener(s, addr, handles);
  }
}
