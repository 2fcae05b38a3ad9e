/** A listener whose peers all hung up before they were accepted accepts nothing ever again. */
module Backlog {
  import opened Base
  import opened TcpPath
  import opened UdpPath
  import opened Stack
  import opened Ownership
  import opened Machine
  import opened Safety
  import Connection

  // ---------------------------------------------------------------- what a step does to the lists

  /** No socket goes, and a connection that has ended stays so. */
  ghost predicate EndedStay(sockets: map<Handle, Socket>, sockets1: map<Handle, Socket>) {
    && (forall h :: h in sockets ==> h in sockets1)
    && (forall h :: IsTcp(sockets, h) ==>
          IsTcp(sockets1, h) && (Ended(sockets[h].tcp.state) ==> Ended(sockets1[h].tcp.state)))
  }

  /** The i-th socket of the list, which has a peer, is taken off, and a new one may be added. */
  predicate TookAt(s: Stack, hs: seq<Handle>, hs1: seq<Handle>, i: int) {
    && 0 <= i < |hs| && Ready(s.sockets, hs[i])
    && Without(hs, i) <= hs1 && |hs1| <= |hs|
    && (|hs1| == |hs| ==> hs1[|hs1| - 1] !in s.sockets)
  }

  ghost predicate ListMoves(s: Stack, hs: seq<Handle>, hs1: seq<Handle>) {
    hs1 == hs || exists i :: TookAt(s, hs, hs1, i)
  }

  /** Old listeners change their lists by accepts only; new ones have new sockets. */
  ghost predicate ListsMove(s: Stack, listeners1: map<Handle, ListenerState>) {
    forall l :: l in listeners1 ==>
      if l in s.sockets then l in s.listeners && ListMoves(s, s.listeners[l].handles, listeners1[l].handles)
      else forall h <- listeners1[l].handles :: h !in s.sockets
  }

  /** A peer of some listener is connected to the socket. */
  ghost predicate Offered(s: Stack, h: Handle) {
    exists l :: InList(s.listeners, l, h) && Ready(s.sockets, h)
  }

  predicate Connecting(s: Stack, h: Handle) {
    h in s.pending && s.pending[h].ConnectOp?
  }

  /** Only offered sockets get channels, and only those or connecting ones become streams. */
  ghost predicate StreamsMove(s: Stack, t: Stack) {
    && (forall h :: h in s.sockets && h in t.tcpStates && h !in s.tcpStates ==> Offered(s, h))
    && (forall h :: h in s.sockets && h in IssuedBy(t.log.replies).streams && h !in IssuedBy(s.log.replies).streams ==>
          Offered(s, h) || Connecting(s, h))
  }

  ghost predicate Moves(s: Stack, t: Stack) {
    EndedStay(s.sockets, t.sockets) && ListsMove(s, t.listeners) && StreamsMove(s, t)
  }

  /** Nothing is taken off a list and nothing becomes a stream. */
  lemma QuietMove(s: Stack, t: Stack)
    requires Owned(s) && EndedStay(s.sockets, t.sockets)
    requires forall l :: l in t.listeners ==> l in s.listeners && t.listeners[l].handles == s.listeners[l].handles
    requires forall h :: h in s.sockets && h in t.tcpStates ==> h in s.tcpStates
    requires IssuedBy(t.log.replies).streams == IssuedBy(s.log.replies).streams
    ensures Moves(s, t)
  {
    forall l | l in t.listeners
      ensures l in s.sockets
    {
      ListenerIsLive(s, l);
    }
  }

  /** The tables that matter here stay as they are. */
  lemma NoMove(s: Stack, t: Stack)
    requires Owned(s) && t.sockets == s.sockets && t.listeners == s.listeners && t.log.replies == s.log.replies
    requires t.tcpStates.Keys <= s.tcpStates.Keys
    ensures Moves(s, t)
  {
    QuietMove(s, t);
  }

  lemma ListenerIsLive(s: Stack, l: Handle)
    requires Owned(s) && l in s.listeners
    ensures l in s.sockets
  {
    assert IsTcp(s.sockets, l);
  }

  lemma ConnectMoves(s: Stack, localIp: Option<IpAddr>, addr: SocketAddr, f: Foreign)
    requires Owned(s)
    ensures Moves(s, StartConnect(s, localIp, addr, f))
  {
    var t := StartConnect(s, localIp, addr, f);
    if 0 in f.refused {
      ReplyIssues(s.log.replies, Reply(s.log.requests, Failed(Other)));
    }
    QuietMove(s, t);
  }

  lemma BindMoves(s: Stack, addr: SocketAddr, f: Foreign)
    requires Owned(s)
    ensures Moves(s, BindUdp(s, addr, f))
  {
    var t := BindUdp(s, addr, f);
    ReplyIssues(s.log.replies, t.log.replies[|s.log.replies|]);
    QuietMove(s, t);
  }

  lemma AddListenerMoves(s: Stack, addr: SocketAddr, handles: seq<Handle>)
    requires Owned(s) && |handles| > 0 && (forall h <- handles :: h !in s.sockets)
    ensures Moves(s, AddListener(s, addr, handles))
  {
    var t := AddListener(s, addr, handles);
    ReplyIssues(s.log.replies, Reply(s.log.requests, ListenerReady(handles[0], addr)));
    assert handles[0] in handles;
    forall l | l in t.listeners && l != handles[0]
      ensures l in s.sockets && t.listeners[l] == s.listeners[l]
    {
      ListenerIsLive(s, l);
    }
  }

  lemma ListenMoves(s: Stack, addr: SocketAddr, backlog: nat, f: Foreign)
    requires Owned(s)
    ensures Moves(s, StartListening(s, addr, backlog, f))
  {
    var t := StartListening(s, addr, backlog, f);
    var n := AtLeastOne(backlog);
    if addr.port == 0 || PortTaken(s.listeners, addr.port) || (exists i :: 0 <= i < n && i in f.refused) {
      ReplyIssues(s.log.replies, t.log.replies[|s.log.replies|]);
      QuietMove(s, t);
    } else {
      AddListenerMoves(s, addr, NewHandles(s.sockets.Keys, f, 0, n));
    }
  }

  /** Socket h, the i-th of l's list, is taken off it and becomes a stream. */
  ghost predicate Takes(s: Stack, t: Stack, l: Handle, i: nat, h: Handle, r: Reply) {
    && l in s.listeners && i < |s.listeners[l].handles| && h == s.listeners[l].handles[i] && Ready(s.sockets, h)
    && (forall k :: k in s.sockets ==> k in t.sockets && t.sockets[k] == s.sockets[k])
    && l in t.listeners && t.listeners == s.listeners[l := t.listeners[l]]
    && TookAt(s, s.listeners[l].handles, t.listeners[l].handles, i)
    && t.tcpStates.Keys == s.tcpStates.Keys + {h}
    && t.log.replies == s.log.replies + [r] && r.outcome.StreamReady? && r.outcome.h == h
  }

  lemma TakingMoves(s: Stack, t: Stack, l: Handle, i: nat, h: Handle, r: Reply)
    requires Owned(s) && Takes(s, t, l, i, h, r)
    ensures Moves(s, t)
  {
    ReplyIssues(s.log.replies, r);
    assert InList(s.listeners, l, h) && Offered(s, h);
    forall m | m in t.listeners
      ensures m in s.sockets && (m != l ==> t.listeners[m] == s.listeners[m])
    {
      ListenerIsLive(s, m);
    }
  }

  lemma AcceptTakes(s: Stack, l: Handle, i: nat, req: nat, f: Foreign)
    requires l in s.listeners && i < |s.listeners[l].handles| && Ready(s.sockets, s.listeners[l].handles[i])
    ensures Takes(s, AcceptAt(s, l, i, req, f), l, i, s.listeners[l].handles[i], Reply(req, AcceptedStream(s, l, i)))
  {
  }

  lemma AcceptReadyMoves(s: Stack, l: Handle, i: nat, f: Foreign)
    requires Owned(s) && l in s.listeners && i < |s.listeners[l].handles|
    requires Ready(s.sockets, s.listeners[l].handles[i])
    ensures Moves(s, AcceptAt(s.(log := s.log.Asked()), l, i, s.log.requests, f))
  {
    var s1 := s.(log := s.log.Asked());
    AcceptTakes(s1, l, i, s.log.requests, f);
    TakingMoves(s, AcceptAt(s1, l, i, s.log.requests, f), l, i, s.listeners[l].handles[i],
                Reply(s.log.requests, AcceptedStream(s1, l, i)));
  }

  lemma QueueAcceptMoves(s: Stack, l: Handle)
    requires Owned(s)
    ensures Moves(s, QueueAccept(s, l))
  {
    NoMove(s, QueueAccept(s, l));
  }

  lemma FailedMoves(s: Stack, t: Stack, kind: ErrorKind)
    requires Owned(s) && SameTables(s, t) && t.log.replies == s.log.replies + [Reply(s.log.requests, Failed(kind))]
    ensures Moves(s, t)
  {
    ReplyIssues(s.log.replies, Reply(s.log.requests, Failed(kind)));
    QuietMove(s, t);
  }

  lemma AcceptMoves(s: Stack, l: Handle, f: Foreign)
    requires Owned(s) && ListedLive(s, l)
    ensures Moves(s, AcceptStream(s, l, f))
  {
    if l !in s.listeners {
      FailedMoves(s, AcceptStream(s, l, f), InvalidInput);
    } else {
      var i := FirstReady(s.sockets, s.listeners[l].handles);
      if i.Some? {
        AcceptReadyMoves(s, l, i.value, f);
      } else {
        QueueAcceptMoves(s, l);
      }
    }
  }

  lemma CloseListenerMoves(s: Stack, l: Handle)
    requires Owned(s) && ListedLive(s, l)
    ensures Moves(s, CloseListener(s, l))
  {
    QuietMove(s, CloseListener(s, l));
  }

  lemma CommandMoves(s: Stack, c: Command, f: Foreign)
    requires Owned(s) && Looks(s, c)
    ensures Moves(s, Dispatch(s, c, f))
  {
    match c
    case TcpConnect(localIp, addr) => ConnectMoves(s, localIp, addr, f);
    case TcpListen(addr, backlog) => ListenMoves(s, addr, backlog, f);
    case TcpAccept(l) => AcceptMoves(s, l, f);
    case TcpListenerClose(l) => CloseListenerMoves(s, l);
    case TcpClose(h) => QuietMove(s, CloseStream(s, h));
    case UdpBind(addr) => BindMoves(s, addr, f);
    case UdpClose(h) => QuietMove(s, CloseUdp(s, h));
  }

  lemma ConnectedMoves(s: Stack, t: Stack, h: Handle, r: Reply)
    requires Owned(s) && Connecting(s, h) && r.outcome.StreamReady? && r.outcome.h == h
    requires t.sockets == s.sockets && t.listeners == s.listeners && t.tcpStates == s.tcpStates
    requires t.log.replies == s.log.replies + [r]
    ensures Moves(s, t)
  {
    NoMove(s, s);
    ReplyIssues(s.log.replies, r);
  }

  lemma RefusedMoves(s: Stack, h: Handle)
    requires Owned(s) && Connecting(s, h)
    ensures Moves(s, RefuseConnect(s, h))
  {
    ReplyIssues(s.log.replies, Reply(s.pending[h].req, Failed(ConnectionRefused)));
    QuietMove(s, RefuseConnect(s, h));
  }

  lemma CompleteConnectMoves(s: Stack, h: Handle)
    requires Owned(s) && Connecting(s, h) && IsTcp(s.sockets, h)
    ensures Moves(s, CompleteConnect(s, h))
  {
    var op := s.pending[h];
    match s.sockets[h].tcp.state
    case Established => ConnectedMoves(s, CompleteConnect(s, h), h, Reply(op.req, StreamReady(h, op.local, op.peer)));
    case Closed => RefusedMoves(s, h);
    case TimeWait => RefusedMoves(s, h);
    case _ => NoMove(s, s);
  }

  lemma CompleteReadyMoves(s: Stack, h: Handle, i: nat, f: Foreign)
    requires Owned(s) && h in s.pending && h in s.listeners && i < |s.listeners[h].handles|
    requires Ready(s.sockets, s.listeners[h].handles[i])
    ensures Moves(s, AcceptAt(s.(pending := s.pending - {h}), h, i, s.pending[h].req, f))
  {
    var s1, req := s.(pending := s.pending - {h}), s.pending[h].req;
    AcceptTakes(s1, h, i, req, f);
    TakingMoves(s, AcceptAt(s1, h, i, req, f), h, i, s.listeners[h].handles[i], Reply(req, AcceptedStream(s1, h, i)));
  }

  lemma CompleteAcceptMoves(s: Stack, h: Handle, f: Foreign)
    requires Owned(s) && h in s.pending && s.pending[h].AcceptOp? && ListedLive(s, h)
    ensures Moves(s, CompleteAccept(s, h, f))
  {
    var i := FirstReady(s.sockets, s.listeners[h].handles);
    if i.Some? {
      CompleteReadyMoves(s, h, i.value, f);
    } else {
      NoMove(s, s);
    }
  }

  lemma CompleteMoves(s: Stack, h: Handle, f: Foreign)
    requires Owned(s) && PendingLooks(s, h)
    ensures Moves(s, CompleteOne(s, h, f))
  {
    if h !in s.pending {
      QuietMove(s, s);
    } else if s.pending[h].ConnectOp? {
      CompleteConnectMoves(s, h);
    } else {
      CompleteAcceptMoves(s, h, f);
    }
  }

  lemma PollMoves(s: Stack, sockets1: map<Handle, Socket>, reported: bool)
    requires Owned(s) && LegalPoll(s.sockets, sockets1, reported)
    ensures Moves(s, s.(sockets := sockets1))
  {
    forall h | IsTcp(s.sockets, h)
      ensures IsTcp(sockets1, h) && (Ended(s.sockets[h].tcp.state) ==> Ended(sockets1[h].tcp.state))
    {
      assert NetSocket(s.sockets[h], sockets1[h], reported);
    }
    QuietMove(s, s.(sockets := sockets1));
  }

  lemma WritesEnd(s: Stack, takes: Decision)
    requires StatesLive(s.sockets, s.tcpStates, s.udpStates)
    ensures EndedStay(s.sockets, PollWrites(s, takes).sockets)
  {
    forall h | h in s.tcpStates
      ensures IsTcp(s.sockets, h)
      ensures Ended(s.sockets[h].tcp.state) ==> Ended(WriteStep(s.sockets[h].tcp, s.tcpStates[h]).socket.state)
    {
      WriteStepIsGreedy(s.sockets[h].tcp, s.tcpStates[h]);
    }
  }

  lemma WritesMove(s: Stack, takes: Decision)
    requires Owned(s)
    ensures Moves(s, PollWrites(s, takes))
  {
    WritesEnd(s, takes);
    QuietMove(s, PollWrites(s, takes));
  }

  lemma ReadsEnd(s: Stack)
    requires StatesLive(s.sockets, s.tcpStates, s.udpStates)
    ensures EndedStay(s.sockets, PollReads(s).sockets)
  {
    forall h | h in s.tcpStates
      ensures IsTcp(s.sockets, h) && ReadStep(s.sockets[h].tcp, s.tcpStates[h]).socket.state == s.sockets[h].tcp.state
    {
      var moved, added := ReadStepIsOrderly(s.sockets[h].tcp, s.tcpStates[h]);
    }
  }

  lemma ReadsMove(s: Stack)
    requires Owned(s)
    ensures Moves(s, PollReads(s))
  {
    ReadsEnd(s);
    QuietMove(s, PollReads(s));
  }

  // ---------------------------------------------------------------- every step

  lemma TakeMoves(w: World, f: Foreign)
    requires Kept(w) && TakeStep(w, f).Next?
    ensures Moves(w.s, TakeStep(w, f).w.s)
  {
    if w.phase == Waiting && w.commands != [] {
      CommandMoves(w.s, w.commands[0], f);
    } else {
      QuietMove(w.s, w.s);
    }
  }

  lemma CompletingMoves(w: World, h: Handle, f: Foreign)
    requires Kept(w) && CompleteStep(w, h, f).Next?
    ensures Moves(w.s, CompleteStep(w, h, f).w.s)
  {
    if w.phase.Completing? && h in w.phase.todo {
      CompleteMoves(w.s, h, f);
    } else {
      QuietMove(w.s, w.s);
    }
  }

  lemma WritingMoves(w: World, takes: Decision)
    requires Owned(w.s) && WriteChannelsStep(w, takes).Next?
    ensures Moves(w.s, WriteChannelsStep(w, takes).w.s)
  {
    QuietMove(w.s, w.s);
    if w.phase == Writing {
      WritesMove(w.s, takes);
    }
  }

  lemma NetworkMoves(w: World, sockets: map<Handle, Socket>, reported: bool)
    requires Owned(w.s)
    ensures Moves(w.s, PollStep(w, sockets, reported).s)
  {
    QuietMove(w.s, w.s);
    if LegalPoll(w.s.sockets, sockets, reported) {
      PollMoves(w.s, sockets, reported);
    }
  }

  lemma ReadingMoves(w: World)
    requires Owned(w.s) && ReadChannelsStep(w).Next?
    ensures Moves(w.s, ReadChannelsStep(w).w.s)
  {
    QuietMove(w.s, w.s);
    if w.phase.Reading? {
      ReadsMove(w.s);
    }
  }

  lemma PollingMoves(w: World, takes: Decision, sockets: map<Handle, Socket>, reported: bool)
    requires Kept(w)
    ensures Step(w, PollWriteChannels(takes)).Next? ==> Moves(w.s, Step(w, PollWriteChannels(takes)).w.s)
    ensures Step(w, Poll(sockets, reported)).Next? ==> Moves(w.s, Step(w, Poll(sockets, reported)).w.s)
    ensures Step(w, PollReadChannels).Next? ==> Moves(w.s, Step(w, PollReadChannels).w.s)
  {
    PollSteps(w, takes, sockets, reported);
    if WriteChannelsStep(w, takes).Next? {
      WritingMoves(w, takes);
    }
    NetworkMoves(w, sockets, reported);
    if ReadChannelsStep(w).Next? {
      ReadingMoves(w);
    }
  }

  lemma AbandonMoves(s: Stack, h: Handle, log: Log)
    requires Owned(s) && h in s.pending && IssuedBy(log.replies).streams == IssuedBy(s.log.replies).streams
    ensures Moves(s, Abandon(s, h, log))
  {
    QuietMove(s, Abandon(s, h, log));
  }

  lemma FailOneMoves(s: Stack, h: Handle)
    requires Owned(s) && h in s.pending
    ensures Moves(s, FailOne(s, h))
  {
    ReplyIssues(s.log.replies, Reply(s.pending[h].req, Failed(ConnectionAborted)));
    AbandonMoves(s, h, FailOne(s, h).log);
  }

  lemma DropOneMoves(s: Stack, h: Handle)
    requires Owned(s) && h in s.pending
    ensures Moves(s, DropOne(s, h))
  {
    AbandonMoves(s, h, DropOne(s, h).log);
  }

  lemma FailMoves(w: World, h: Handle)
    requires Owned(w.s)
    ensures Moves(w.s, FailStep(w, h).s)
  {
    NoMove(w.s, w.s);
    if w.phase == Failing && h in w.s.pending {
      FailOneMoves(w.s, h);
    }
  }

  lemma DropMoves(w: World, h: Handle)
    requires Owned(w.s)
    ensures Moves(w.s, DropStep(w, h).s)
  {
    NoMove(w.s, w.s);
    if w.phase == Dropping && h in w.s.pending {
      DropOneMoves(w.s, h);
    }
  }

  lemma ReturnMoves(w: World)
    requires Owned(w.s)
    ensures Moves(w.s, ReturnStep(w).s)
  {
    NoMove(w.s, w.s);
    NoMove(w.s, LetGoAll(w.s));
  }

  lemma PutMoves(w: World, h: Handle, c: Connection.Conn)
    requires Owned(w.s)
    ensures Moves(w.s, Put(w, h, c).s)
  {
    NoMove(w.s, Put(w, h, c).s);
  }

  lemma PutUdpMoves(w: World, h: Handle, u: UdpLife)
    requires Owned(w.s)
    ensures Moves(w.s, PutUdp(w, h, u).s)
  {
    NoMove(w.s, PutUdp(w, h, u).s);
  }

  lemma TcpAppMoves(w: World, h: Handle, a: Connection.Action)
    requires Owned(w.s)
    ensures Moves(w.s, TcpAppStep(w, h, a).s)
  {
    NoMove(w.s, w.s);
    if Channelled(w.s, h) {
      PutMoves(w, h, Connection.Act(Project(w, h), a));
    }
  }

  lemma UdpAppMoves(w: World, h: Handle, a: UdpAction)
    requires Owned(w.s)
    ensures Moves(w.s, UdpAppStep(w, h, a).s)
  {
    NoMove(w.s, w.s);
    if UdpChannelled(w.s, h) {
      PutUdpMoves(w, h, UdpAct(ProjectUdp(w, h), a));
    }
  }

  lemma OtherMoves(w: World, e: Event)
    requires Kept(w) && !Working(e) && !Leaving(e) && !e.TcpApp? && !e.UdpApp? && Step(w, e).Next?
    ensures Moves(w.s, Step(w, e).w.s)
  {
    assert Step(w, e).w.s == w.s;
    NoMove(w.s, w.s);
  }

  lemma LeavingMoves(w: World, h: Handle)
    requires Kept(w)
    ensures Step(w, Fail(h)) == Next(FailStep(w, h)) && Moves(w.s, FailStep(w, h).s)
    ensures Step(w, Drop(h)) == Next(DropStep(w, h)) && Moves(w.s, DropStep(w, h).s)
    ensures Step(w, Return) == Next(ReturnStep(w)) && Moves(w.s, ReturnStep(w).s)
  {
    LeaveSteps(w, h);
    FailMoves(w, h);
    DropMoves(w, h);
    ReturnMoves(w);
  }

  lemma AppMoves(w: World, h: Handle, a: Connection.Action, b: UdpAction)
    requires Kept(w)
    ensures Step(w, TcpApp(h, a)) == Next(TcpAppStep(w, h, a)) && Moves(w.s, TcpAppStep(w, h, a).s)
    ensures Step(w, UdpApp(h, b)) == Next(UdpAppStep(w, h, b)) && Moves(w.s, UdpAppStep(w, h, b).s)
  {
    AppSteps(w, h, a, b);
    TcpAppMoves(w, h, a);
    UdpAppMoves(w, h, b);
  }

  lemma RestMoves(w: World, e: Event)
    requires Kept(w) && !Working(e) && Step(w, e).Next?
    ensures Moves(w.s, Step(w, e).w.s)
  {
    match e
    case TcpApp(h, a) => AppMoves(w, h, a, Receive);
    case UdpApp(h, b) => AppMoves(w, h, Connection.Action.DropWriter, b);
    case Fail(h) => LeavingMoves(w, h);
    case Drop(h) => LeavingMoves(w, h);
    case Return => LeavingMoves(w, 0);
    case _ => OtherMoves(w, e);
  }

  lemma StepMoves(w: World, e: Event)
    requires Kept(w)
    ensures Step(w, e).Next? && Kept(Step(w, e).w) && Moves(w.s, Step(w, e).w.s)
  {
    StepKeeps(w, e);
    match e
    case TakeCommand(f) => TakeMoves(w, f);
    case Complete(h, f) => CompletingMoves(w, h, f);
    case PollWriteChannels(takes) => PollingMoves(w, takes, map[], false);
    case Poll(sockets, reported) => PollingMoves(w, (s, d) => true, sockets, reported);
    case PollReadChannels => PollingMoves(w, (s, d) => true, map[], false);
    case _ => RestMoves(w, e);
  }

  // ---------------------------------------------------------------- a peer that leaves costs a socket

  /** As long as listener l is open, h is on its list and its connection has ended. */
  ghost predicate Stuck(s: Stack, l: Handle, h: Handle) {
    && l in s.sockets
    && (l in s.listeners ==> h in s.listeners[l].handles && IsTcp(s.sockets, h) && Ended(s.sockets[h].tcp.state))
  }

  lemma OthersStay(hs: seq<Handle>, i: nat, h: Handle)
    requires i < |hs| && h in hs && h != hs[i]
    ensures h in Without(hs, i)
  {
    var j :| 0 <= j < |hs| && hs[j] == h;
    assert j < i ==> Without(hs, i)[j] == h;
    assert j > i ==> Without(hs, i)[j - 1] == h;
  }

  lemma StuckStays(s: Stack, t: Stack, l: Handle, h: Handle)
    requires Moves(s, t) && Stuck(s, l, h)
    ensures Stuck(t, l, h)
  {
    if l in t.listeners {
      var hs, hs1 := s.listeners[l].handles, t.listeners[l].handles;
      if hs1 != hs {
        var i :| TookAt(s, hs, hs1, i);
        OthersStay(hs, i, h);
      }
    }
  }

  /** A socket whose peer connected and left before it was accepted stays on the list in every run: it
      is neither accepted nor replaced, until the listener is closed. */
  lemma {:induction false} EndedForever(w: World, events: seq<Event>, l: Handle, h: Handle)
    requires Kept(w) && Stuck(w.s, l, h)
    ensures Run(w, events).Next? && Kept(Run(w, events).w) && Stuck(Run(w, events).w.s, l, h)
    decreases |events|
  {
    if events != [] {
      StepMoves(w, events[0]);
      StuckStays(w.s, Step(w, events[0]).w.s, l, h);
      EndedForever(Step(w, events[0]).w, events[1..], l, h);
    }
  }

  /** How many sockets of a list can still come by a peer. */
  function CountOpen(sockets: map<Handle, Socket>, hs: seq<Handle>): nat {
    if hs == [] then 0
    else CountOpen(sockets, hs[..|hs| - 1]) + if IsOpen(sockets, hs[|hs| - 1]) then 1 else 0
  }

  predicate IsOpen(sockets: map<Handle, Socket>, h: Handle) {
    IsTcp(sockets, h) && !Ended(sockets[h].tcp.state)
  }

  lemma {:induction false} CountShrinks(sockets: map<Handle, Socket>, sockets1: map<Handle, Socket>, hs: seq<Handle>)
    requires EndedStay(sockets, sockets1) && AllTcp(sockets, hs)
    ensures CountOpen(sockets1, hs) <= CountOpen(sockets, hs)
  {
    if hs != [] {
      var n := |hs| - 1;
      assert hs[n] in hs && forall h :: h in hs[..n] ==> h in hs;
      CountShrinks(sockets, sockets1, hs[..n]);
    }
  }

  lemma {:induction false} CountWithout(sockets: map<Handle, Socket>, hs: seq<Handle>, i: nat)
    requires i < |hs| && IsOpen(sockets, hs[i])
    ensures CountOpen(sockets, Without(hs, i)) + 1 == CountOpen(sockets, hs)
  {
    var n := |hs| - 1;
    if i == n {
      assert Without(hs, i) == hs[..n];
    } else {
      CountWithout(sockets, hs[..n], i);
      assert Without(hs, i)[..n - 1] == Without(hs[..n], i) && Without(hs, i)[n - 1] == hs[n];
    }
  }

  lemma TakingCounts(s: Stack, hs: seq<Handle>, hs1: seq<Handle>, i: nat, sockets1: map<Handle, Socket>)
    requires TookAt(s, hs, hs1, i) && AllTcp(s.sockets, hs) && EndedStay(s.sockets, sockets1)
    ensures CountOpen(sockets1, hs1) <= CountOpen(s.sockets, hs)
  {
    var rest := Without(hs, i);
    CountWithout(s.sockets, hs, i);
    assert forall h :: h in rest ==> h in hs;
    CountShrinks(s.sockets, sockets1, rest);
    if |hs1| == |hs| {
      assert hs1[..|hs| - 1] == rest;
    } else {
      assert hs1 == rest;
    }
  }

  lemma CountMoves(s: Stack, t: Stack, l: Handle)
    requires Owned(s) && Moves(s, t) && l in s.listeners && l in t.listeners
    ensures CountOpen(t.sockets, t.listeners[l].handles) <= CountOpen(s.sockets, s.listeners[l].handles)
  {
    var hs, hs1 := s.listeners[l].handles, t.listeners[l].handles;
    ListenerIsLive(s, l);
    ListedIsTcp(s, l);
    if hs1 == hs {
      CountShrinks(s.sockets, t.sockets, hs);
    } else {
      var i :| TookAt(s, hs, hs1, i);
      TakingCounts(s, hs, hs1, i, t.sockets);
    }
  }

  /** The number of sockets with which a listener can still accept never grows, in any run: each peer
      that leaves unaccepted costs one of the backlog for good. */
  lemma {:induction false} OpenNeverGrows(w: World, events: seq<Event>, l: Handle)
    requires Kept(w) && l in w.s.sockets
    ensures Run(w, events).Next? && Kept(Run(w, events).w)
    ensures var t := Run(w, events).w.s;
            l in t.listeners ==>
              && l in w.s.listeners
              && CountOpen(t.sockets, t.listeners[l].handles) <= CountOpen(w.s.sockets, w.s.listeners[l].handles)
    decreases |events|
  {
    if events != [] {
      StepMoves(w, events[0]);
      var w1 := Step(w, events[0]).w;
      OpenNeverGrows(w1, events[1..], l);
      if l in w1.s.listeners {
        CountMoves(w.s, w1.s, l);
      }
    }
  }

  // ---------------------------------------------------------------- a listener whose peers have all left

  /** Every socket of the list belongs to a connection that has ended. */
  ghost predicate AllEnded(sockets: map<Handle, Socket>, hs: seq<Handle>) {
    forall h :: h in hs ==> IsTcp(sockets, h) && Ended(sockets[h].tcp.state)
  }

  /** As long as listener l is open, its list is `hs` and all of it has ended. */
  ghost predicate Spent(s: Stack, l: Handle, hs: seq<Handle>) {
    && l in s.sockets
    && (l in s.listeners ==> s.listeners[l].handles == hs && AllEnded(s.sockets, hs))
  }

  lemma SpentStays(s: Stack, t: Stack, l: Handle, hs: seq<Handle>)
    requires Moves(s, t) && Spent(s, l, hs)
    ensures Spent(t, l, hs)
  {
    if l in t.listeners {
      forall h | h in hs
        ensures IsTcp(t.sockets, h) && Ended(t.sockets[h].tcp.state)
      {
        StuckStays(s, t, l, h);
      }
    }
  }

  /** Then the list stays as it is in every run, until the listener is closed. */
  lemma {:induction false} SpentForever(w: World, events: seq<Event>, l: Handle, hs: seq<Handle>)
    requires Kept(w) && Spent(w.s, l, hs)
    ensures Run(w, events).Next? && Kept(Run(w, events).w) && Spent(Run(w, events).w.s, l, hs)
    decreases |events|
  {
    if events != [] {
      StepMoves(w, events[0]);
      SpentStays(w.s, Step(w, events[0]).w.s, l, hs);
      SpentForever(Step(w, events[0]).w, events[1..], l, hs);
    }
  }

  ghost predicate HasPeer(s: Stack, l: Handle) {
    exists h :: InList(s.listeners, l, h) && Ready(s.sockets, h)
  }

  // ---------------------------------------------------------------- how peers come and go

  /** One step of figure 5 of section 3.3.2 of RFC 9293 towards an open connection: a SYN, or its
      acknowledgement. */
  function Meet(t: TcpSocket, peer: SocketAddr): TcpSocket {
    var known := if t.remote.Some? then t.remote else Some(peer);
    match t.state
    case Listen => t.(state := SynReceived, remote := Some(peer))
    case SynReceived => t.(state := Established, remote := known)
    case SynSent => t.(state := Established, remote := known)
    case Established => t.(remote := known)
    case _ => t
  }

  /** The peer's FIN. */
  function HangUp(t: TcpSocket): TcpSocket {
    if t.state == Established then t.(state := CloseWait) else t
  }

  /** The sockets of `hs` meet their peers. */
  function MeetAll(sockets: map<Handle, Socket>, hs: seq<Handle>, peers: Handle -> SocketAddr): map<Handle, Socket> {
    map h | h in sockets ::
      if h in hs && IsTcp(sockets, h) then Tcp(Meet(sockets[h].tcp, peers(h))) else sockets[h]
  }

  function HangUpAll(sockets: map<Handle, Socket>, hs: seq<Handle>): map<Handle, Socket> {
    map h | h in sockets ::
      if h in hs && IsTcp(sockets, h) then Tcp(HangUp(sockets[h].tcp)) else sockets[h]
  }

  lemma SameBuffers(t: TcpSocket)
    ensures t.tx[0..] == t.tx && t.rx + t.rx[|t.rx|..] == t.rx && t.arrived + t.rx[|t.rx|..] == t.arrived
  {
  }

  lemma NetMeets(t: TcpSocket, peer: SocketAddr)
    ensures NetTcp(t, Meet(t, peer)) && NetTcp(t, HangUp(t))
  {
    SameBuffers(t);
  }

  lemma NetIdle(x: Socket)
    ensures NetSocket(x, x, true)
  {
    match x
    case Tcp(t) => SameBuffers(t);
    case Udp(u) =>
      assert u.tx[0..] == u.tx && u.gone + u.tx[..0] == u.gone;
      assert u.rx + u.rx[|u.rx|..] == u.rx && u.arrived + u.rx[|u.rx|..] == u.arrived;
  }

  lemma MeetingIsLegal(sockets: map<Handle, Socket>, hs: seq<Handle>, peers: Handle -> SocketAddr)
    ensures LegalPoll(sockets, MeetAll(sockets, hs, peers), true)
    ensures LegalPoll(sockets, HangUpAll(sockets, hs), true)
  {
    forall h | h in sockets
      ensures NetSocket(sockets[h], MeetAll(sockets, hs, peers)[h], true)
      ensures NetSocket(sockets[h], HangUpAll(sockets, hs)[h], true)
    {
      NetIdle(sockets[h]);
      if IsTcp(sockets, h) {
        NetMeets(sockets[h].tcp, peers(h));
      }
    }
  }

  // ---------------------------------------------------------------- what can happen to a listener

  function MeetPoll(w: World, hs: seq<Handle>, peers: Handle -> SocketAddr): World {
    PollStep(w, MeetAll(w.s.sockets, hs, peers), true)
  }

  /** The three polls in which every peer of `hs` connects, is acknowledged and hangs up. */
  function ComeAndGo(w: World, hs: seq<Handle>, peers: Handle -> SocketAddr): World {
    var w2 := MeetPoll(MeetPoll(w, hs, peers), hs, peers);
    PollStep(w2, HangUpAll(w2.s.sockets, hs), true)
  }

  lemma MeetPollWorks(w: World, hs: seq<Handle>, peers: Handle -> SocketAddr)
    requires Kept(w) && w.phase.Networking?
    ensures var w1 := MeetPoll(w, hs, peers);
            && Kept(w1) && w1.phase == Networking(true) && w1.s == w.s.(sockets := MeetAll(w.s.sockets, hs, peers))
            && Step(w, Poll(w1.s.sockets, true)) == Next(w1)
  {
    MeetingIsLegal(w.s.sockets, hs, peers);
    PollKeeps(w, MeetAll(w.s.sockets, hs, peers), true);
  }

  lemma HangUpPollWorks(w: World, hs: seq<Handle>)
    requires Kept(w) && w.phase.Networking?
    ensures var w1 := PollStep(w, HangUpAll(w.s.sockets, hs), true);
            Kept(w1) && w1.s == w.s.(sockets := HangUpAll(w.s.sockets, hs))
  {
    MeetingIsLegal(w.s.sockets, hs, h => SocketAddr(V4(0), 0));
    PollKeeps(w, HangUpAll(w.s.sockets, hs), true);
  }

  lemma MetTwice(t: TcpSocket, peer: SocketAddr)
    ensures var met := Meet(Meet(t, peer), peer);
            if Ended(t.state) then met == t else met.state == Established && met.remote.Some?
  {
  }

  lemma MetIsReady(sockets: map<Handle, Socket>, h: Handle, peers: Handle -> SocketAddr)
    requires IsOpen(sockets, h)
    ensures Ready(MeetAll(MeetAll(sockets, [h], peers), [h], peers), h)
  {
    MetTwice(sockets[h].tcp, peers(h));
  }

  lemma AllGone(sockets: map<Handle, Socket>, hs: seq<Handle>, peers: Handle -> SocketAddr)
    requires AllTcp(sockets, hs)
    ensures AllEnded(HangUpAll(MeetAll(MeetAll(sockets, hs, peers), hs, peers), hs), hs)
  {
    forall h | h in hs
      ensures IsTcp(sockets, h) && Ended(HangUp(Meet(Meet(sockets[h].tcp, peers(h)), peers(h))).state)
    {
      MetTwice(sockets[h].tcp, peers(h));
    }
  }

  lemma ComingAndGoingSpends(w: World, l: Handle, peers: Handle -> SocketAddr)
    requires Kept(w) && l in w.s.listeners && w.phase.Networking?
    ensures var hs := w.s.listeners[l].handles;
            Kept(ComeAndGo(w, hs, peers)) && Spent(ComeAndGo(w, hs, peers).s, l, hs)
  {
    var hs := w.s.listeners[l].handles;
    MeetPollWorks(w, hs, peers);
    MeetPollWorks(MeetPoll(w, hs, peers), hs, peers);
    HangUpPollWorks(MeetPoll(MeetPoll(w, hs, peers), hs, peers), hs);
    ListedIsTcp(w.s, l);
    ListenerIsLive(w.s, l);
    AllGone(w.s.sockets, hs, peers);
  }

  /** Peers can spend any listener: if all of them connect and hang up before they are accepted, by
      the transitions of RFC 9293, then in no later run is one of its sockets accepted or replaced,
      although nothing is wrong with the listener. */
  lemma AnyListenerCanBeSpent(w: World, l: Handle, peers: Handle -> SocketAddr, events: seq<Event>)
    requires Kept(w) && l in w.s.listeners && w.phase.Networking?
    ensures var hs := w.s.listeners[l].handles;
            var r := Run(ComeAndGo(w, hs, peers), events);
            && r.Next?
            && (l in r.w.s.listeners ==> r.w.s.listeners[l].handles == hs && !HasPeer(r.w.s, l))
  {
    var hs := w.s.listeners[l].handles;
    ComingAndGoingSpends(w, l, peers);
    SpentForever(ComeAndGo(w, hs, peers), events, l, hs);
    SpentHasNoPeer(Run(ComeAndGo(w, hs, peers), events).w.s, l, hs);
  }

  lemma SpentHasNoPeer(s: Stack, l: Handle, hs: seq<Handle>)
    requires Spent(s, l, hs)
    ensures !HasPeer(s, l)
  {
  }
}
