/** What every handler of the stack task keeps: ownership of handles. */
module Ownership {
  import opened Base
  import opened Channels
  import opened TcpPath
  import opened UdpPath
  import opened Stack

  // ---------------------------------------------------------------- handles given out

  /** The handles that were handed out as streams, as UDP sockets and as listeners. */
  datatype Issued = Issued(streams: set<Handle>, udps: set<Handle>, listeners: set<Handle>) {

    function Add(outcome: Outcome): Issued {
      match outcome
      case StreamReady(h, _, _) => this.(streams := streams + {h})
      case UdpReady(h, _) => this.(udps := udps + {h})
      case ListenerReady(h, _) => this.(listeners := listeners + {h})
      case Failed(_) => this
    }

    /** The outcome hands out nothing that was handed out before. */
    predicate Admits(outcome: Outcome) {
      match outcome
      case StreamReady(h, _, _) => h !in streams
      case UdpReady(h, _) => h !in udps
      case ListenerReady(h, _) => h !in listeners
      case Failed(_) => true
    }
  }

  function IssuedBy(replies: seq<Reply>): Issued {
    if replies == [] then Issued({}, {}, {})
    else IssuedBy(replies[..|replies| - 1]).Add(replies[|replies| - 1].outcome)
  }

  predicate SameIssue(a: Outcome, b: Outcome) {
    || (a.StreamReady? && b.StreamReady? && a.h == b.h)
    || (a.UdpReady? && b.UdpReady? && a.h == b.h)
    || (a.ListenerReady? && b.ListenerReady? && a.h == b.h)
  }

  /** Two replies never hand out the same handle as a stream, nor as a UDP socket, nor as a listener. */
  predicate IssuedOnce(replies: seq<Reply>) {
    forall i, j :: 0 <= i < j < |replies| ==> !SameIssue(replies[i].outcome, replies[j].outcome)
  }

  lemma {:induction false} IssuedHas(replies: seq<Reply>, k: nat)
    requires k < |replies|
    ensures !IssuedBy(replies).Admits(replies[k].outcome) || replies[k].outcome.Failed?
  {
    if k < |replies| - 1 {
      IssuedHas(replies[..|replies| - 1], k);
    }
  }

  lemma ReplyIssues(replies: seq<Reply>, r: Reply)
    ensures IssuedBy(replies + [r]) == IssuedBy(replies).Add(r.outcome)
    ensures IssuedOnce(replies) && IssuedBy(replies).Admits(r.outcome) ==> IssuedOnce(replies + [r])
  {
    assert (replies + [r])[..|replies|] == replies;
    if IssuedBy(replies).Admits(r.outcome) {
      forall k | 0 <= k < |replies|
        ensures !SameIssue(replies[k].outcome, r.outcome)
      {
        IssuedHas(replies, k);
      }
    }
  }

  // ---------------------------------------------------------------- the invariant

  ghost predicate IssuedLive(sockets: map<Handle, Socket>, issued: Issued) {
    && (forall h :: h in issued.streams ==> IsTcp(sockets, h))
    && (forall h :: h in issued.udps ==> IsUdp(sockets, h))
    && (forall h :: h in issued.listeners ==> IsTcp(sockets, h))
  }

  predicate NoDuplicates(hs: seq<Handle>) {
    forall i, j :: 0 <= i < j < |hs| ==> hs[i] != hs[j]
  }

  /** The listeners' handle lists are duplicate-free and pairwise disjoint. */
  ghost predicate ListsDisjoint(listeners: map<Handle, ListenerState>) {
    && (forall l :: l in listeners ==> NoDuplicates(listeners[l].handles))
    && (forall l, m, h :: InList(listeners, l, h) && InList(listeners, m, h) ==> l == m)
  }

  /** No listed socket has or had channels, or was handed out as a stream. */
  ghost predicate ListsPrivate(listeners: map<Handle, ListenerState>, tcpStates: map<Handle, TcpSocketState>,
                               past: map<Handle, TcpSocketState>, issued: Issued)
  {
    forall l, h :: InList(listeners, l, h) ==> h !in tcpStates && h !in past && h !in issued.streams
  }

  ghost predicate ListenersAnnounced(listeners: map<Handle, ListenerState>, issued: Issued) {
    forall l :: l in listeners ==> l in issued.listeners
  }

  /** A connection nobody outside the stack task can reach yet. */
  predicate Quiet(st: TcpSocketState) {
    st.write.queue == [] && st.write.senders && st.pendingWrite.None?
  }

  ghost predicate ConnectsOwned(pending: map<Handle, PendingOp>, tcpStates: map<Handle, TcpSocketState>,
                                issued: Issued)
  {
    && (forall h :: h in pending && pending[h].ConnectOp? ==>
          h in tcpStates && h !in issued.streams && h !in issued.listeners && Quiet(tcpStates[h]))
    && (forall h :: h in tcpStates ==> h in issued.streams || (h in pending && pending[h].ConnectOp?))
  }

  ghost predicate AcceptsOwned(pending: map<Handle, PendingOp>, listeners: map<Handle, ListenerState>) {
    forall h :: h in pending && pending[h].AcceptOp? ==> h in listeners
  }

  /** Channels that were let go of stay apart from those in use. */
  ghost predicate PastApart(sockets: map<Handle, Socket>, tcpStates: map<Handle, TcpSocketState>,
                            udpStates: map<Handle, UdpSocketState>, past: Past)
  {
    && (forall h :: h in past.tcp ==> IsTcp(sockets, h) && h !in tcpStates)
    && (forall h :: h in past.udp ==> IsUdp(sockets, h) && h !in udpStates)
  }

  /** Every UDP socket handed out has or had channels. */
  ghost predicate UdpOwned(udpStates: map<Handle, UdpSocketState>, past: Past, issued: Issued) {
    forall h :: h in issued.udps <==> h in udpStates || h in past.udp
  }

  /** Every stream handed out has or had channels. */
  ghost predicate TcpOwned(tcpStates: map<Handle, TcpSocketState>, past: Past, issued: Issued) {
    forall h :: h in issued.streams ==> h in tcpStates || h in past.tcp
  }

  ghost predicate AllLive(sockets: map<Handle, Socket>, s: Stack, issued: Issued) {
    && StatesLive(sockets, s.tcpStates, s.udpStates)
    && ListsLive(sockets, s.listeners)
    && ConnectsLive(sockets, s.pending)
    && IssuedLive(sockets, issued)
    && PastApart(sockets, s.tcpStates, s.udpStates, s.past)
  }

  ghost predicate OwnedWith(s: Stack, issued: Issued) {
    && AllLive(s.sockets, s, issued)
    && ListsDisjoint(s.listeners)
    && ListsPrivate(s.listeners, s.tcpStates, s.past.tcp, issued)
    && ListenersAnnounced(s.listeners, issued)
    && ConnectsOwned(s.pending, s.tcpStates, issued)
    && AcceptsOwned(s.pending, s.listeners)
    && UdpOwned(s.udpStates, s.past, issued)
    && TcpOwned(s.tcpStates, s.past, issued)
  }

  ghost predicate Owned(s: Stack) {
    IssuedOnce(s.log.replies) && OwnedWith(s, IssuedBy(s.log.replies))
  }

  /** Two stacks with the same tables. */
  predicate SameTables(s: Stack, t: Stack) {
    && t.sockets == s.sockets && t.pending == s.pending && t.listeners == s.listeners
    && t.tcpStates == s.tcpStates && t.udpStates == s.udpStates && t.past == s.past
  }

  // ---------------------------------------------------------------- small changes

  /** No socket goes away or changes its kind. */
  ghost predicate Grows(sockets: map<Handle, Socket>, sockets1: map<Handle, Socket>) {
    forall h :: h in sockets ==> h in sockets1 && sockets1[h].Tcp? == sockets[h].Tcp?
  }

  lemma LiveGrows(s: Stack, sockets1: map<Handle, Socket>, issued: Issued)
    requires AllLive(s.sockets, s, issued) && Grows(s.sockets, sockets1)
    ensures AllLive(sockets1, s, issued)
  {
  }

  lemma ListedIsTcp(s: Stack, l: Handle)
    requires ListsLive(s.sockets, s.listeners)
    ensures ListedLive(s, l)
  {
    if l in s.listeners {
      forall h | h in s.listeners[l].handles
        ensures IsTcp(s.sockets, h)
      {
        assert InList(s.listeners, l, h);
      }
    }
  }

  lemma PendingUsesLive(s: Stack, h: Handle)
    requires Owned(s)
    ensures h in s.pending ==> h in s.sockets
  {
  }

  /** A change that answers a request with a failure and touches no table. */
  lemma FailingKeepsOwned(s: Stack, t: Stack, req: nat, kind: ErrorKind)
    requires Owned(s) && SameTables(s, t)
    requires t.log.replies == s.log.replies + [Reply(req, Failed(kind))]
    ensures Owned(t)
  {
  }

  lemma NewConnection(s: Stack, t: Stack, h: Handle, issued: Issued)
    requires OwnedWith(s, issued) && AllLive(t.sockets, s, issued) && h !in s.sockets && IsTcp(t.sockets, h)
    requires h in t.pending && t.pending[h].ConnectOp? && t.pending == s.pending[h := t.pending[h]]
    requires t.tcpStates == s.tcpStates[h := NewTcpState()]
    requires t.listeners == s.listeners && t.udpStates == s.udpStates && t.past == s.past
    ensures OwnedWith(t, issued)
  {
  }

  lemma ConnectKeepsOwned(s: Stack, localIp: Option<IpAddr>, addr: SocketAddr, f: Foreign)
    requires Owned(s)
    ensures Owned(StartConnect(s, localIp, addr, f))
  {
    var t := StartConnect(s, localIp, addr, f);
    if 0 in f.refused {
      FailingKeepsOwned(s, t, s.log.requests, Other);
    } else {
      LiveGrows(s, t.sockets, IssuedBy(s.log.replies));
      NewConnection(s, t, FreeSlot(s.sockets.Keys, f.Slot(0)), IssuedBy(s.log.replies));
    }
  }

  // ---------------------------------------------------------------- listeners

  lemma {:induction false} NewHandlesDistinct(live: set<Handle>, f: Foreign, i: nat, n: nat)
    ensures NoDuplicates(NewHandles(live, f, i, n))
    decreases n
  {
    if n != 0 {
      NewHandlesDistinct(live + {FreeSlot(live, f.Slot(i))}, f, i + 1, n - 1);
    }
  }

  /** Giving listener `l` a new list, made of sockets it had and sockets nobody has. */
  lemma Relisting(s: Stack, sockets1: map<Handle, Socket>, l: Handle, listener: ListenerState, issued: Issued)
    requires OwnedWith(s, issued) && Grows(s.sockets, sockets1) && NoDuplicates(listener.handles)
    requires forall h <- listener.handles ::
               IsTcp(sockets1, h) && (InList(s.listeners, l, h) || h !in s.sockets)
    ensures var listeners1 := s.listeners[l := listener];
            && ListsLive(sockets1, listeners1)
            && ListsDisjoint(listeners1)
            && ListsPrivate(listeners1, s.tcpStates, s.past.tcp, issued)
            && AcceptsOwned(s.pending, listeners1)
  {
    var listeners1 := s.listeners[l := listener];
    assert forall m, h :: InList(listeners1, m, h) ==> InList(s.listeners, m, h) || (m == l && h in listener.handles);
  }

  lemma AddListenerKeepsOwned(s: Stack, addr: SocketAddr, handles: seq<Handle>)
    requires Owned(s) && NoDuplicates(handles) && |handles| > 0
    requires forall h <- handles :: h !in s.sockets
    ensures Owned(AddListener(s, addr, handles))
  {
    var issued := IssuedBy(s.log.replies);
    var t := AddListener(s, addr, handles);
    assert handles[0] in handles;
    LiveGrows(s, t.sockets, issued);
    Relisting(s, t.sockets, handles[0], ListenerState(addr, handles), issued);
    ReplyIssues(s.log.replies, Reply(s.log.requests, ListenerReady(handles[0], addr)));
    NewListener(s, t, handles[0], issued);
  }

  lemma NewListener(s: Stack, t: Stack, l: Handle, issued: Issued)
    requires OwnedWith(s, issued) && AllLive(t.sockets, s, issued) && l !in s.sockets && IsTcp(t.sockets, l)
    requires l in t.listeners && t.listeners == s.listeners[l := t.listeners[l]]
    requires ListsLive(t.sockets, t.listeners) && ListsDisjoint(t.listeners)
    requires ListsPrivate(t.listeners, s.tcpStates, s.past.tcp, issued) && AcceptsOwned(s.pending, t.listeners)
    requires t.tcpStates == s.tcpStates && t.udpStates == s.udpStates && t.past == s.past && t.pending == s.pending
    ensures OwnedWith(t, issued.(listeners := issued.listeners + {l}))
  {
  }

  lemma ListenKeepsOwned(s: Stack, addr: SocketAddr, backlog: nat, f: Foreign)
    requires Owned(s)
    ensures Owned(StartListening(s, addr, backlog, f))
  {
    var t := StartListening(s, addr, backlog, f);
    var n := AtLeastOne(backlog);
    if addr.port == 0 {
      FailingKeepsOwned(s, t, s.log.requests, InvalidInput);
    } else if PortTaken(s.listeners, addr.port) || (exists i :: 0 <= i < n && i in f.refused) {
      FailingKeepsOwned(s, t, s.log.requests, AddrInUse);
    } else {
      NewHandlesDistinct(s.sockets.Keys, f, 0, n);
      AddListenerKeepsOwned(s, addr, NewHandles(s.sockets.Keys, f, 0, n));
    }
  }

  lemma RemovingKeepsDistinct(hs: seq<Handle>, i: nat)
    requires i < |hs| && NoDuplicates(hs)
    ensures NoDuplicates(Without(hs, i))
    ensures forall h :: h in Without(hs, i) <==> h in hs && h != hs[i]
  {
  }

  lemma AppendingKeepsDistinct(hs: seq<Handle>, h: Handle)
    requires NoDuplicates(hs) && h !in hs
    ensures NoDuplicates(hs + [h])
  {
  }

  lemma RestOfList(s: Stack, l: Handle, i: nat)
    requires ListsLive(s.sockets, s.listeners) && ListsDisjoint(s.listeners)
    requires l in s.listeners && i < |s.listeners[l].handles|
    ensures var h := s.listeners[l].handles[i];
            var rest := Without(s.listeners[l].handles, i);
            && NoDuplicates(rest) && h !in rest
            && InList(s.listeners, l, h) && IsTcp(s.sockets, h)
            && forall x <- rest :: InList(s.listeners, l, x) && IsTcp(s.sockets, x)
  {
    var hs := s.listeners[l].handles;
    RemovingKeepsDistinct(hs, i);
    assert InList(s.listeners, l, hs[i]);
    forall x | x in Without(hs, i)
      ensures InList(s.listeners, l, x) && IsTcp(s.sockets, x)
    {
      assert InList(s.listeners, l, x);
    }
  }

  lemma UnlistedAfterTaking(listeners: map<Handle, ListenerState>, listeners1: map<Handle, ListenerState>,
                            l: Handle, h: Handle)
    requires ListsDisjoint(listeners) && InList(listeners, l, h)
    requires l in listeners1 && listeners1 == listeners[l := listeners1[l]] && h !in listeners1[l].handles
    ensures forall m :: !InList(listeners1, m, h)
  {
    assert forall m :: m != l ==> InList(listeners1, m, h) == InList(listeners, m, h);
  }

  /** What taking a socket off a list leaves true, besides that nobody lists the socket any more. */
  ghost predicate Taken(s: Stack, t: Stack, h: Handle, issued: Issued) {
    && Grows(s.sockets, t.sockets)
    && ListsLive(t.sockets, t.listeners)
    && ListsDisjoint(t.listeners)
    && ListsPrivate(t.listeners, s.tcpStates, s.past.tcp, issued)
    && AcceptsOwned(s.pending, t.listeners)
    && ListenersAnnounced(t.listeners, issued)
    && (forall m :: !InList(t.listeners, m, h))
  }

  lemma TakingUnlists(s: Stack, l: Handle, i: nat, f: Foreign, issued: Issued)
    requires OwnedWith(s, issued) && l in s.listeners && i < |s.listeners[l].handles|
    ensures Taken(s, TakeFromListener(s, l, i, f), s.listeners[l].handles[i], issued)
  {
    var listener := s.listeners[l];
    var t := TakeFromListener(s, l, i, f);
    RestOfList(s, l, i);
    if 0 !in f.refused {
      AppendingKeepsDistinct(Without(listener.handles, i), FreeSlot(s.sockets.Keys, f.Slot(0)));
    }
    Relisting(s, t.sockets, l, t.listeners[l], issued);
    UnlistedAfterTaking(s.listeners, t.listeners, l, listener.handles[i]);
  }

  lemma AcceptKeepsOwned(s: Stack, l: Handle, i: nat, req: nat, f: Foreign)
    requires Owned(s) && l in s.listeners && i < |s.listeners[l].handles|
    requires Ready(s.sockets, s.listeners[l].handles[i])
    ensures Owned(AcceptAt(s, l, i, req, f))
  {
    var issued := IssuedBy(s.log.replies);
    assert InList(s.listeners, l, s.listeners[l].handles[i]);
    ReplyIssues(s.log.replies, Reply(req, AcceptedStream(s, l, i)));
    AcceptedOwned(s, l, i, req, f, issued);
  }

  lemma AcceptedOwned(s: Stack, l: Handle, i: nat, req: nat, f: Foreign, issued: Issued)
    requires OwnedWith(s, issued) && l in s.listeners && i < |s.listeners[l].handles|
    requires InList(s.listeners, l, s.listeners[l].handles[i]) && Ready(s.sockets, s.listeners[l].handles[i])
    ensures var h := s.listeners[l].handles[i];
            OwnedWith(AcceptAt(s, l, i, req, f), issued.(streams := issued.streams + {h}))
  {
    TakingUnlists(s, l, i, f, issued);
    var s1 := TakeFromListener(s, l, i, f);
    LiveGrows(s, s1.sockets, issued);
    StreamFromList(s, s1, AcceptAt(s, l, i, req, f), s.listeners[l].handles[i], issued);
  }

  lemma StreamFromList(s: Stack, s1: Stack, t: Stack, h: Handle, issued: Issued)
    requires OwnedWith(s, issued) && Taken(s, s1, h, issued) && AllLive(s1.sockets, s, issued)
    requires IsTcp(s.sockets, h) && h !in s.tcpStates && h !in s.past.tcp && h !in issued.streams
    requires t.sockets == s1.sockets && t.listeners == s1.listeners && t.pending == s.pending
    requires t.udpStates == s.udpStates && t.past == s.past
    requires t.tcpStates == s.tcpStates[h := NewTcpState()]
    ensures OwnedWith(t, issued.(streams := issued.streams + {h}))
  {
  }

  lemma QueueAcceptKeepsOwned(s: Stack, t: Stack, l: Handle, issued: Issued)
    requires OwnedWith(s, issued) && l in s.listeners
    requires l in t.pending && t.pending[l].AcceptOp? && t.pending == s.pending[l := t.pending[l]]
    requires t.sockets == s.sockets && t.listeners == s.listeners
    requires t.tcpStates == s.tcpStates && t.udpStates == s.udpStates && t.past == s.past
    ensures OwnedWith(t, issued)
  {
  }

  lemma AcceptStreamKeepsOwned(s: Stack, l: Handle, f: Foreign)
    requires Owned(s) && ListedLive(s, l)
    ensures Owned(AcceptStream(s, l, f))
  {
    if l !in s.listeners {
      FailingKeepsOwned(s, AcceptStream(s, l, f), s.log.requests, InvalidInput);
    } else {
      var i := FirstReady(s.sockets, s.listeners[l].handles);
      if i.Some? {
        AcceptKeepsOwned(s.(log := s.log.Asked()), l, i.value, s.log.requests, f);
      } else {
        QueueAcceptKeepsOwned(s, AcceptStream(s, l, f), l, IssuedBy(s.log.replies));
      }
    }
  }

  lemma ClosedListener(s: Stack, t: Stack, l: Handle, issued: Issued)
    requires OwnedWith(s, issued) && AllLive(t.sockets, s, issued) && l in issued.listeners
    requires t.pending == s.pending - {l} && t.listeners == s.listeners - {l}
    requires t.tcpStates == s.tcpStates && t.udpStates == s.udpStates && t.past == s.past
    ensures OwnedWith(t, issued)
  {
    assert forall m, h :: InList(t.listeners, m, h) ==> InList(s.listeners, m, h);
  }

  lemma CloseListenerKeepsOwned(s: Stack, l: Handle)
    requires Owned(s) && l in IssuedBy(s.log.replies).listeners && ListedLive(s, l)
    ensures Owned(CloseListener(s, l))
  {
    var t := CloseListener(s, l);
    LiveGrows(s, t.sockets, IssuedBy(s.log.replies));
    ClosedListener(s, t, l, IssuedBy(s.log.replies));
  }

  // ---------------------------------------------------------------- streams and UDP sockets

  lemma CloseStreamKeepsOwned(s: Stack, h: Handle)
    requires Owned(s) && h in IssuedBy(s.log.replies).streams
    ensures Owned(CloseStream(s, h))
  {
    LiveGrows(s, CloseStream(s, h).sockets, IssuedBy(s.log.replies));
  }

  lemma NewUdp(s: Stack, t: Stack, h: Handle, issued: Issued)
    requires OwnedWith(s, issued) && AllLive(t.sockets, s, issued) && h !in s.sockets && IsUdp(t.sockets, h)
    requires t.udpStates == s.udpStates[h := NewUdpState()]
    requires t.tcpStates == s.tcpStates && t.listeners == s.listeners && t.pending == s.pending && t.past == s.past
    ensures OwnedWith(t, issued.(udps := issued.udps + {h}))
  {
  }

  lemma BindKeepsOwned(s: Stack, addr: SocketAddr, f: Foreign)
    requires Owned(s)
    ensures Owned(BindUdp(s, addr, f))
  {
    var t := BindUdp(s, addr, f);
    var issued := IssuedBy(s.log.replies);
    if 0 in f.refused {
      FailingKeepsOwned(s, t, s.log.requests, AddrInUse);
    } else {
      LiveGrows(s, t.sockets, issued);
      var bound := addr.(port := if addr.port == 0 then s.local.nextPort else addr.port);
      ReplyIssues(s.log.replies, Reply(s.log.requests, UdpReady(FreeSlot(s.sockets.Keys, f.Slot(0)), bound)));
      NewUdp(s, t, FreeSlot(s.sockets.Keys, f.Slot(0)), issued);
    }
  }

  lemma CloseUdpKeepsOwned(s: Stack, h: Handle)
    requires Owned(s) && h in IssuedBy(s.log.replies).udps
    ensures Owned(CloseUdp(s, h))
  {
  }

  /** A close command names a handle that its sender was given. */
  predicate FromHolder(issued: Issued, c: Command) {
    match c
    case TcpListenerClose(h) => h in issued.listeners
    case TcpClose(h) => h in issued.streams
    case UdpClose(h) => h in issued.udps
    case _ => true
  }

  /** No command sent by the holder of a handle makes a lookup fail. */
  lemma CommandLooks(s: Stack, c: Command)
    requires Owned(s) && FromHolder(IssuedBy(s.log.replies), c)
    ensures Looks(s, c)
  {
    if c.TcpAccept? || c.TcpListenerClose? {
      ListedIsTcp(s, c.handle);
    }
  }

  lemma CommandKeepsOwned(s: Stack, c: Command, f: Foreign)
    requires Owned(s) && FromHolder(IssuedBy(s.log.replies), c) && Looks(s, c)
    ensures Owned(Dispatch(s, c, f))
  {
    match c
    case TcpConnect(localIp, addr) => ConnectKeepsOwned(s, localIp, addr, f);
    case TcpListen(addr, backlog) => ListenKeepsOwned(s, addr, backlog, f);
    case TcpAccept(l) => AcceptStreamKeepsOwned(s, l, f);
    case TcpListenerClose(l) => CloseListenerKeepsOwned(s, l);
    case TcpClose(h) => CloseStreamKeepsOwned(s, h);
    case UdpBind(addr) => BindKeepsOwned(s, addr, f);
    case UdpClose(h) => CloseUdpKeepsOwned(s, h);
  }

  // ---------------------------------------------------------------- polling

  /** A change of sockets and channels only, which keeps unreachable channels unreachable. */
  lemma PollingKeepsOwned(s: Stack, t: Stack)
    requires Owned(s) && Grows(s.sockets, t.sockets)
    requires t.tcpStates.Keys == s.tcpStates.Keys && t.udpStates.Keys == s.udpStates.Keys
    requires forall h :: h in s.tcpStates && Quiet(s.tcpStates[h]) ==> Quiet(t.tcpStates[h])
    requires t.pending == s.pending && t.listeners == s.listeners && t.past == s.past && t.log == s.log
    ensures Owned(t)
  {
  }

  lemma WriteStepKeepsQuiet(socket: TcpSocket, st: TcpSocketState)
    requires Quiet(st)
    ensures WriteStep(socket, st) == Pair(socket, st)
  {
  }

  lemma PollWritesKeepsOwned(s: Stack, takes: Decision)
    requires Owned(s)
    ensures Owned(PollWrites(s, takes))
  {
    var t := PollWrites(s, takes);
    forall h | h in s.tcpStates && Quiet(s.tcpStates[h])
      ensures Quiet(t.tcpStates[h])
    {
      WriteStepKeepsQuiet(s.sockets[h].tcp, s.tcpStates[h]);
    }
    assert t.tcpStates.Keys == s.tcpStates.Keys && t.udpStates.Keys == s.udpStates.Keys;
    PollingKeepsOwned(s, t);
  }

  lemma {:induction false} ReadStepKeepsWrite(socket: TcpSocket, st: TcpSocketState)
    ensures var r := ReadStep(socket, st);
            && r.st.write == st.write && r.st.pendingWrite == st.pendingWrite
            && r.socket.state == socket.state && r.socket.remote == socket.remote
    decreases |socket.rx|
  {
    if socket.CanRecv() && st.read.Accepts() {
      var n := Min(|socket.rx|, TCP_SOCKET_BUFFER_SIZE);
      ReadStepKeepsWrite(socket.Recv(n), st.(read := st.read.Push(socket.rx[..n])));
    }
  }

  lemma PollReadsKeepsOwned(s: Stack)
    requires Owned(s)
    ensures Owned(PollReads(s))
  {
    var t := PollReads(s);
    forall h | h in s.tcpStates && Quiet(s.tcpStates[h])
      ensures Quiet(t.tcpStates[h])
    {
      ReadStepKeepsWrite(s.sockets[h].tcp, s.tcpStates[h]);
    }
    assert t.tcpStates.Keys == s.tcpStates.Keys && t.udpStates.Keys == s.udpStates.Keys;
    PollingKeepsOwned(s, t);
  }

  // ---------------------------------------------------------------- pending operations

  lemma PendingAlwaysLooks(s: Stack, h: Handle)
    requires Owned(s)
    ensures PendingLooks(s, h)
  {
    ListedIsTcp(s, h);
  }

  lemma Connected(s: Stack, t: Stack, h: Handle, issued: Issued)
    requires OwnedWith(s, issued) && h in s.pending && s.pending[h].ConnectOp?
    requires t.pending == s.pending - {h} && t.sockets == s.sockets && t.listeners == s.listeners
    requires t.tcpStates == s.tcpStates && t.udpStates == s.udpStates && t.past == s.past
    ensures OwnedWith(t, issued.(streams := issued.streams + {h}))
  {
  }

  lemma Refused(s: Stack, t: Stack, h: Handle, issued: Issued)
    requires OwnedWith(s, issued) && h in s.pending && s.pending[h].ConnectOp?
    requires t.pending == s.pending - {h} && t.sockets == s.sockets && t.listeners == s.listeners
    requires t.tcpStates == s.tcpStates - {h} && t.udpStates == s.udpStates && t.past == PastWith(s, h)
    ensures OwnedWith(t, issued)
  {
  }

  lemma RefusedKeepsOwned(s: Stack, h: Handle)
    requires Owned(s) && h in s.pending && s.pending[h].ConnectOp?
    ensures Owned(RefuseConnect(s, h))
  {
    ReplyIssues(s.log.replies, Reply(s.pending[h].req, Failed(ConnectionRefused)));
    Refused(s, RefuseConnect(s, h), h, IssuedBy(s.log.replies));
  }

  lemma ConnectedKeepsOwned(s: Stack, h: Handle)
    requires Owned(s) && h in s.pending && s.pending[h].ConnectOp? && s.sockets[h].tcp.state == Established
    ensures Owned(CompleteConnect(s, h))
  {
    var op := s.pending[h];
    ReplyIssues(s.log.replies, Reply(op.req, StreamReady(h, op.local, op.peer)));
    Connected(s, CompleteConnect(s, h), h, IssuedBy(s.log.replies));
  }

  lemma CompleteConnectKeepsOwned(s: Stack, h: Handle)
    requires Owned(s) && h in s.pending && s.pending[h].ConnectOp?
    ensures Owned(CompleteConnect(s, h))
  {
    if s.sockets[h].tcp.state == Established {
      ConnectedKeepsOwned(s, h);
    } else {
      RefusedKeepsOwned(s, h);
    }
  }

  lemma ForgettingAccept(s: Stack, h: Handle)
    requires Owned(s) && h in s.pending && s.pending[h].AcceptOp?
    ensures Owned(s.(pending := s.pending - {h}))
  {
  }

  lemma CompleteAcceptKeepsOwned(s: Stack, h: Handle, f: Foreign)
    requires Owned(s) && h in s.pending && s.pending[h].AcceptOp? && ListedLive(s, h)
    ensures Owned(CompleteAccept(s, h, f))
  {
    var i := FirstReady(s.sockets, s.listeners[h].handles);
    if i.Some? {
      ForgettingAccept(s, h);
      AcceptKeepsOwned(s.(pending := s.pending - {h}), h, i.value, s.pending[h].req, f);
    }
  }

  lemma CompleteKeepsOwned(s: Stack, h: Handle, f: Foreign)
    requires Owned(s) && PendingLooks(s, h)
    ensures Owned(CompleteOne(s, h, f))
  {
    if h in s.pending {
      if s.pending[h].ConnectOp? {
        CompleteConnectKeepsOwned(s, h);
      } else {
        CompleteAcceptKeepsOwned(s, h, f);
      }
    }
  }
}
