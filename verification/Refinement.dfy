/** The stack task, seen through one handle, is one connection: every step of the whole machine is,
    for each socket with channels, a run of that socket's own life.  Conservation of bytes and
    datagrams then holds for every stream and UDP socket of every run. */
module Refinement {
  import opened Base
  import opened TcpPath
  import opened UdpPath
  import opened Stack
  import opened Ownership
  import opened Machine
  import opened Safety
  import C = Connection

  // ---------------------------------------------------------------- what a connection sees

  function NetEvents(old_: TcpSocket, new_: TcpSocket): seq<C.Event>
    requires NetTcp(old_, new_)
  {
    if IsReset(old_, new_) then [C.Reset(new_.local, new_.remote)]
    else if old_.state == Closed then []
    else [C.Acked(|old_.tx| - |new_.tx|), C.Arrived(new_.rx[|old_.rx|..]),
          C.StateChange(new_.state, new_.local, new_.remote)]
  }

  predicate GivesUp(s: Stack, h: Handle) {
    && h in s.pending && s.pending[h].ConnectOp? && IsTcp(s.sockets, h)
    && (s.sockets[h].tcp.state == Closed || s.sockets[h].tcp.state == TimeWait)
  }

  /** The part of a step of the machine that concerns the connection named by `h`. */
  function Seen(w: World, e: Event, h: Handle): seq<C.Event>
    requires Channelled(w.s, h)
  {
    match e
    case TakeCommand(f) =>
      if w.phase == Waiting && w.commands != [] && w.commands[0] == Command.TcpClose(h) then [C.TcpClose] else []
    case PollWriteChannels(takes) => if w.phase == Writing then [C.StackWrite] else []
    case Poll(sockets, reported) =>
      if w.phase.Networking? && LegalPoll(w.s.sockets, sockets, reported)
      then assert NetSocket(w.s.sockets[h], sockets[h], reported);
           NetEvents(w.s.sockets[h].tcp, sockets[h].tcp) else []
    case PollReadChannels => if w.phase.Reading? then [C.StackRead] else []
    case Complete(k, f) =>
      if k == h && w.phase.Completing? && k in w.phase.todo && GivesUp(w.s, h) then [C.LetGo] else []
    case Fail(k) =>
      if k == h && w.phase == Failing && h in w.s.pending && w.s.pending[h].ConnectOp? then [C.LetGo] else []
    case Drop(k) =>
      if k == h && w.phase == Dropping && h in w.s.pending && w.s.pending[h].ConnectOp? then [C.LetGo] else []
    case Return =>
      if (w.phase == Failing || w.phase == Dropping) && w.s.pending == map[] && h in w.s.tcpStates
      then [C.LetGo] else []
    case TcpApp(k, tcpAction) =>
      if k == h && h in IssuedBy(w.s.log.replies).streams then [C.App(tcpAction)] else []
    case _ => []
  }

  lemma RunOne(c: C.Conn, e: C.Event)
    ensures C.Run(c, [e]) == C.Step(c, e)
  {
  }

  lemma NetIsRun(c: C.Conn, new_: TcpSocket)
    requires NetTcp(c.socket, new_)
    ensures C.Run(c, NetEvents(c.socket, new_)) == c.(socket := new_)
  {
    var old_ := c.socket;
    if IsReset(old_, new_) {
      RunOne(c, C.Reset(new_.local, new_.remote));
    } else if old_.state != Closed {
      var a, b, d := C.Acked(|old_.tx| - |new_.tx|), C.Arrived(new_.rx[|old_.rx|..]),
        C.StateChange(new_.state, new_.local, new_.remote);
      assert NetEvents(old_, new_) == [a, b] + [d];
      C.RunTwo(c, a, b, [d]);
      RunOne(C.Step(C.Step(c, a), b), d);
    }
  }

  // ---------------------------------------------------------------- handlers leave other connections alone

  /** The connection named by `h` is the same in both stacks. */
  predicate Leaves(s: Stack, t: Stack, h: Handle) {
    && h in s.sockets && h in t.sockets && t.sockets[h] == s.sockets[h]
    && (if h in s.tcpStates then h in t.tcpStates && t.tcpStates[h] == s.tcpStates[h]
        else h !in t.tcpStates && h in s.past.tcp && h in t.past.tcp && t.past.tcp[h] == s.past.tcp[h])
  }

  lemma ChannelledUnlisted(s: Stack, l: Handle, h: Handle)
    requires Owned(s) && Channelled(s, h)
    ensures !InList(s.listeners, l, h)
  {
  }

  lemma AcceptLeaves(s: Stack, l: Handle, i: nat, req: nat, f: Foreign, h: Handle)
    requires Owned(s) && Channelled(s, h) && l in s.listeners && i < |s.listeners[l].handles|
    requires Ready(s.sockets, s.listeners[l].handles[i])
    ensures Leaves(s, AcceptAt(s, l, i, req, f), h)
  {
    ChannelledUnlisted(s, l, h);
    assert InList(s.listeners, l, s.listeners[l].handles[i]);
  }

  lemma CloseListenerLeaves(s: Stack, l: Handle, h: Handle)
    requires Owned(s) && Channelled(s, h) && ListedLive(s, l)
    ensures Leaves(s, CloseListener(s, l), h)
  {
    ChannelledUnlisted(s, l, h);
  }

  lemma ListenLeaves(s: Stack, addr: SocketAddr, backlog: nat, f: Foreign, h: Handle)
    requires Channelled(s, h)
    ensures Leaves(s, StartListening(s, addr, backlog, f), h)
  {
  }

  lemma AcceptStreamLeaves(s: Stack, l: Handle, f: Foreign, h: Handle)
    requires Owned(s) && Channelled(s, h) && ListedLive(s, l)
    ensures Leaves(s, AcceptStream(s, l, f), h)
  {
    if l in s.listeners {
      var i := FirstReady(s.sockets, s.listeners[l].handles);
      if i.Some? {
        AcceptLeaves(s.(log := s.log.Asked()), l, i.value, s.log.requests, f, h);
      }
    }
  }

  lemma CommandLeaves(s: Stack, c: Command, f: Foreign, h: Handle)
    requires Owned(s) && Channelled(s, h) && Looks(s, c) && c != Command.TcpClose(h)
    ensures Leaves(s, Dispatch(s, c, f), h)
  {
    match c
    case TcpConnect(localIp, addr) => assert Leaves(s, StartConnect(s, localIp, addr, f), h);
    case TcpListen(addr, backlog) => ListenLeaves(s, addr, backlog, f, h);
    case TcpAccept(l) => AcceptStreamLeaves(s, l, f, h);
    case TcpListenerClose(l) => CloseListenerLeaves(s, l, h);
    case TcpClose(k) => assert Leaves(s, CloseStream(s, k), h);
    case UdpBind(addr) => assert Leaves(s, BindUdp(s, addr, f), h);
    case UdpClose(k) => assert Leaves(s, CloseUdp(s, k), h);
  }

  // ---------------------------------------------------------------- every step, for a connection that exists

  /** The step from `w` to `w1` is, for the connection named by `h`, the run `events`. */
  ghost predicate Refines(w: World, w1: World, h: Handle, events: seq<C.Event>) {
    Channelled(w.s, h) && Channelled(w1.s, h) && Project(w1, h) == C.Run(Project(w, h), events)
  }

  lemma LeavesRefines(w: World, w1: World, h: Handle)
    requires Channelled(w.s, h) && Leaves(w.s, w1.s, h) && w1.tcpApps == w.tcpApps
    ensures Refines(w, w1, h, [])
  {
  }

  lemma TakeRefines(w: World, f: Foreign, h: Handle)
    requires Owned(w.s) && Channelled(w.s, h) && C.ConnInv(Project(w, h)) && TakeStep(w, f).Next?
    ensures Refines(w, TakeStep(w, f).w, h, Seen(w, TakeCommand(f), h))
  {
    var w1 := TakeStep(w, f).w;
    if w.phase == Waiting && w.commands != [] {
      if w.commands[0] == Command.TcpClose(h) {
        CloseRefines(w, w1, h);
      } else {
        CommandLeaves(w.s, w.commands[0], f, h);
        LeavesRefines(w, w1, h);
      }
    }
  }

  lemma CloseRefines(w: World, w1: World, h: Handle)
    requires Channelled(w.s, h) && C.ConnInv(Project(w, h))
    requires w1.s == CloseStream(w.s, h) && w1.tcpApps == w.tcpApps
    ensures Refines(w, w1, h, [C.TcpClose])
  {
  }

  lemma WriteChannelsRefines(w: World, takes: Decision, h: Handle)
    requires Owned(w.s) && Channelled(w.s, h) && WriteChannelsStep(w, takes).Next?
    ensures Refines(w, WriteChannelsStep(w, takes).w, h, Seen(w, PollWriteChannels(takes), h))
  {
  }

  lemma ReadChannelsRefines(w: World, h: Handle)
    requires Owned(w.s) && Channelled(w.s, h) && ReadChannelsStep(w).Next?
    ensures Refines(w, ReadChannelsStep(w).w, h, Seen(w, PollReadChannels, h))
  {
  }

  lemma PollRefines(w: World, sockets: map<Handle, Socket>, reported: bool, h: Handle)
    requires Channelled(w.s, h)
    ensures Refines(w, PollStep(w, sockets, reported), h, Seen(w, Poll(sockets, reported), h))
  {
    if w.phase.Networking? && LegalPoll(w.s.sockets, sockets, reported) {
      assert NetSocket(w.s.sockets[h], sockets[h], reported);
      NetIsRun(Project(w, h), sockets[h].tcp);
    }
  }

  lemma CompleteOneLeaves(s: Stack, k: Handle, f: Foreign, h: Handle)
    requires Owned(s) && Channelled(s, h) && PendingLooks(s, k) && (k == h ==> !GivesUp(s, h))
    ensures Leaves(s, CompleteOne(s, k, f), h)
  {
    if k in s.pending && s.pending[k].AcceptOp? && k in s.listeners
       && FirstReady(s.sockets, s.listeners[k].handles).Some? {
      ForgettingAccept(s, k);
      AcceptLeaves(s.(pending := s.pending - {k}), k, FirstReady(s.sockets, s.listeners[k].handles).value,
                   s.pending[k].req, f, h);
    }
  }

  /** Letting go of the channels of `h`. */
  lemma LetGoRefines(w: World, w1: World, h: Handle)
    requires Channelled(w.s, h) && h in w.s.tcpStates
    requires h in w1.s.sockets && w1.s.sockets[h] == w.s.sockets[h] && h !in w1.s.tcpStates
    requires h in w1.s.past.tcp && w1.s.past.tcp[h] == TcpPath.Detach(w.s.tcpStates[h]) && w1.tcpApps == w.tcpApps
    ensures Refines(w, w1, h, [C.LetGo])
  {
  }

  lemma GivingUpRefines(w: World, f: Foreign, h: Handle)
    requires Owned(w.s) && Channelled(w.s, h) && CompleteStep(w, h, f).Next?
    requires w.phase.Completing? && h in w.phase.todo && GivesUp(w.s, h)
    ensures Refines(w, CompleteStep(w, h, f).w, h, Seen(w, Complete(h, f), h))
  {
    LetGoRefines(w, CompleteStep(w, h, f).w, h);
  }

  lemma CompleteRefines(w: World, k: Handle, f: Foreign, h: Handle)
    requires Owned(w.s) && Channelled(w.s, h) && CompleteStep(w, k, f).Next?
    ensures Refines(w, CompleteStep(w, k, f).w, h, Seen(w, Complete(k, f), h))
  {
    var w1 := CompleteStep(w, k, f).w;
    if w.phase.Completing? && k in w.phase.todo {
      if k == h && GivesUp(w.s, h) {
        GivingUpRefines(w, f, h);
      } else {
        CompleteOneLeaves(w.s, k, f, h);
        LeavesRefines(w, w1, h);
      }
    }
  }

  lemma AbandonRefines(w: World, w1: World, k: Handle, log: Log, h: Handle)
    requires Owned(w.s) && Channelled(w.s, h) && k in w.s.pending
    requires w1.s == Abandon(w.s, k, log) && w1.tcpApps == w.tcpApps
    ensures Refines(w, w1, h, if k == h && w.s.pending[k].ConnectOp? then [C.LetGo] else [])
  {
    if k == h && w.s.pending[k].ConnectOp? {
      LetGoRefines(w, w1, h);
    } else {
      LeavesRefines(w, w1, h);
    }
  }

  lemma FailRefines(w: World, k: Handle, h: Handle)
    requires Owned(w.s) && Channelled(w.s, h)
    ensures Refines(w, FailStep(w, k), h, Seen(w, Fail(k), h))
  {
    if w.phase == Failing && k in w.s.pending {
      AbandonRefines(w, FailStep(w, k), k, FailOne(w.s, k).log, h);
    }
  }

  lemma DropRefines(w: World, k: Handle, h: Handle)
    requires Owned(w.s) && Channelled(w.s, h)
    ensures Refines(w, DropStep(w, k), h, Seen(w, Drop(k), h))
  {
    if w.phase == Dropping && k in w.s.pending {
      AbandonRefines(w, DropStep(w, k), k, DropOne(w.s, k).log, h);
    }
  }

  lemma ReturnRefines(w: World, h: Handle)
    requires Channelled(w.s, h)
    ensures Refines(w, ReturnStep(w), h, Seen(w, Return, h))
  {
    RunOne(Project(w, h), C.LetGo);
  }

  /** What the application does to its channel ends touches neither socket nor task. */
  lemma ReaderStays(c: C.Conn, a: C.Action)
    ensures C.Act(c, a).socket == c.socket && C.Act(c, a).attached == c.attached
  {
  }

  lemma PutProjects(w: World, k: Handle, c: C.Conn, h: Handle)
    requires Channelled(w.s, h) && Channelled(w.s, k)
    requires c.socket == Project(w, k).socket && c.attached == Project(w, k).attached
    ensures Channelled(Put(w, k, c).s, h)
    ensures Project(Put(w, k, c), h) == if k == h then c else Project(w, h)
  {
  }

  lemma TcpAppRefines(w: World, k: Handle, a: C.Action, h: Handle)
    requires Channelled(w.s, h)
    ensures Refines(w, TcpAppStep(w, k, a), h, Seen(w, TcpApp(k, a), h))
  {
    if Channelled(w.s, k) && k in IssuedBy(w.s.log.replies).streams {
      ReaderStays(Project(w, k), a);
      PutProjects(w, k, C.Act(Project(w, k), a), h);
      RunOne(Project(w, h), C.App(a));
    }
  }

  lemma UdpPutLeaves(w: World, k: Handle, u: UdpLife, h: Handle)
    requires Channelled(w.s, h)
    ensures Refines(w, PutUdp(w, k, u), h, [])
  {
  }

  lemma UdpAppRefines(w: World, k: Handle, a: UdpAction, h: Handle)
    requires Channelled(w.s, h)
    ensures Refines(w, UdpAppStep(w, k, a), h, [])
  {
    if UdpChannelled(w.s, k) {
      UdpPutLeaves(w, k, UdpAct(ProjectUdp(w, k), a), h);
    }
  }

  lemma WorkingRefines(w: World, e: Event, h: Handle)
    requires Owned(w.s) && Channelled(w.s, h) && C.ConnInv(Project(w, h)) && Working(e) && Step(w, e).Next?
    ensures Refines(w, Step(w, e).w, h, Seen(w, e, h))
  {
    match e
    case TakeCommand(f) => TakeRefines(w, f, h);
    case PollWriteChannels(takes) => WriteChannelsRefines(w, takes, h);
    case Poll(sockets, reported) => PollRefines(w, sockets, reported, h);
    case PollReadChannels => ReadChannelsRefines(w, h);
    case Complete(k, f) => CompleteRefines(w, k, f, h);
  }

  lemma LeavingRefines(w: World, e: Event, h: Handle)
    requires Owned(w.s) && Channelled(w.s, h) && Leaving(e) && Step(w, e).Next?
    ensures Refines(w, Step(w, e).w, h, Seen(w, e, h))
  {
    match e
    case Fail(k) => FailEventRefines(w, k, h);
    case Drop(k) => DropEventRefines(w, k, h);
    case Return => ReturnRefines(w, h);
  }

  lemma FailEventRefines(w: World, k: Handle, h: Handle)
    requires Owned(w.s) && Channelled(w.s, h)
    ensures Step(w, Fail(k)) == Next(FailStep(w, k)) && Refines(w, FailStep(w, k), h, Seen(w, Fail(k), h))
  {
    FailRefines(w, k, h);
  }

  lemma DropEventRefines(w: World, k: Handle, h: Handle)
    requires Owned(w.s) && Channelled(w.s, h)
    ensures Step(w, Drop(k)) == Next(DropStep(w, k)) && Refines(w, DropStep(w, k), h, Seen(w, Drop(k), h))
  {
    DropRefines(w, k, h);
  }

  lemma OtherRefines(w: World, e: Event, h: Handle)
    requires Channelled(w.s, h) && !Working(e) && !Leaving(e) && Step(w, e).Next?
    ensures Refines(w, Step(w, e).w, h, Seen(w, e, h))
  {
    match e
    case Submit(c) => LeavesRefines(w, SubmitStep(w, c), h);
    case TcpApp(k, tcpAction) => TcpAppRefines(w, k, tcpAction, h);
    case UdpApp(k, udpAction) => UdpAppRefines(w, k, udpAction, h);
    case _ => LeavesRefines(w, w.(phase := PhaseStep(w.phase, w.commands == [], e)), h);
  }

  /** Every step of the machine is, for each connection, the run of what that connection sees of it.
      In particular a close command only reaches the connection it names. */
  lemma StepRefines(w: World, e: Event, h: Handle)
    requires Kept(w) && Channelled(w.s, h) && C.ConnInv(Project(w, h))
    ensures Step(w, e).Next? && Refines(w, Step(w, e).w, h, Seen(w, e, h))
  {
    StepKeeps(w, e);
    if Working(e) {
      WorkingRefines(w, e, h);
    } else if Leaving(e) {
      LeavingRefines(w, e, h);
    } else {
      OtherRefines(w, e, h);
    }
  }

  // ---------------------------------------------------------------- connections that come into being

  /** A socket that nothing was sent through or read from yet. */
  predicate Clean(t: TcpSocket) {
    t.Valid() && t.handed == [] && t.taken == []
  }

  ghost predicate Pristine(sockets: map<Handle, Socket>, listeners: map<Handle, ListenerState>) {
    forall l, x :: InList(listeners, l, x) ==> IsTcp(sockets, x) && Clean(sockets[x].tcp)
  }

  /** Connections only come into being with new channels and a clean socket. */
  ghost predicate BornClean(s: Stack, t: Stack) {
    forall h :: (h in t.tcpStates || h in t.past.tcp) && !(h in s.tcpStates || h in s.past.tcp) ==>
      h in t.tcpStates && t.tcpStates[h] == NewTcpState() && IsTcp(t.sockets, h) && Clean(t.sockets[h].tcp)
  }

  ghost predicate GrowsClean(s: Stack, t: Stack) {
    Pristine(t.sockets, t.listeners) && BornClean(s, t)
  }

  lemma ListsShrink(s: Stack, t: Stack)
    requires Pristine(s.sockets, s.listeners)
    requires forall l, x :: InList(t.listeners, l, x) ==>
               || (InList(s.listeners, l, x) && x in t.sockets && t.sockets[x] == s.sockets[x])
               || (IsTcp(t.sockets, x) && Clean(t.sockets[x].tcp))
    ensures Pristine(t.sockets, t.listeners)
  {
  }

  lemma ConnectGrowsClean(s: Stack, localIp: Option<IpAddr>, addr: SocketAddr, f: Foreign)
    requires Owned(s) && Pristine(s.sockets, s.listeners)
    ensures GrowsClean(s, StartConnect(s, localIp, addr, f))
  {
    var t := StartConnect(s, localIp, addr, f);
    forall m, x | InList(t.listeners, m, x)
      ensures InList(s.listeners, m, x) && x in t.sockets && t.sockets[x] == s.sockets[x]
    {
      assert InList(s.listeners, m, x) && IsTcp(s.sockets, x);
    }
    ListsShrink(s, t);
    if 0 !in f.refused {
      var h := FreeSlot(s.sockets.Keys, f.Slot(0));
      NewSocketClean(SynSent, t.sockets[h].tcp.local, t.sockets[h].tcp.remote);
    }
  }

  lemma ListeningSocketsClean(sockets: map<Handle, Socket>, handles: seq<Handle>, addr: SocketAddr, x: Handle)
    requires forall h <- handles :: h !in sockets
    ensures x in handles ==> var t := AddListening(sockets, handles, addr); IsTcp(t, x) && Clean(t[x].tcp)
    ensures x in sockets ==> var t := AddListening(sockets, handles, addr); x in t && t[x] == sockets[x]
  {
    NewSocketClean(TcpState.Listen, Some(addr), None);
  }

  lemma NewSocketClean(state: TcpState, local: Option<SocketAddr>, remote: Option<SocketAddr>)
    ensures Clean(NewSocket(state).(local := local, remote := remote))
  {
  }

  lemma AddListenerPristine(s: Stack, addr: SocketAddr, handles: seq<Handle>, l: Handle)
    requires ListsLive(s.sockets, s.listeners) && Pristine(s.sockets, s.listeners)
    requires forall h <- handles :: h !in s.sockets
    ensures Pristine(AddListening(s.sockets, handles, addr), s.listeners[l := ListenerState(addr, handles)])
  {
    var sockets1, listeners1 := AddListening(s.sockets, handles, addr), s.listeners[l := ListenerState(addr, handles)];
    forall m, x | InList(listeners1, m, x)
      ensures IsTcp(sockets1, x) && Clean(sockets1[x].tcp)
    {
      ListeningSocketsClean(s.sockets, handles, addr, x);
      assert m != l ==> InList(s.listeners, m, x);
    }
  }

  lemma AddListenerGrowsClean(s: Stack, addr: SocketAddr, handles: seq<Handle>)
    requires Owned(s) && Pristine(s.sockets, s.listeners) && |handles| > 0 && (forall h <- handles :: h !in s.sockets)
    ensures GrowsClean(s, AddListener(s, addr, handles))
  {
    AddListenerPristine(s, addr, handles, handles[0]);
  }

  lemma ListenGrowsClean(s: Stack, addr: SocketAddr, backlog: nat, f: Foreign)
    requires Owned(s) && Pristine(s.sockets, s.listeners)
    ensures GrowsClean(s, StartListening(s, addr, backlog, f))
  {
    AddListenerGrowsClean(s, addr, NewHandles(s.sockets.Keys, f, 0, AtLeastOne(backlog)));
  }

  /** What is listed after an accept was listed before, or is the new socket. */
  lemma TakingAddsClean(s: Stack, l: Handle, i: nat, f: Foreign, m: Handle, x: Handle)
    requires ListsLive(s.sockets, s.listeners) && l in s.listeners && i < |s.listeners[l].handles|
    requires InList(TakeFromListener(s, l, i, f).listeners, m, x)
    ensures var t := TakeFromListener(s, l, i, f);
            || (InList(s.listeners, m, x) && x in t.sockets && t.sockets[x] == s.sockets[x])
            || (IsTcp(t.sockets, x) && Clean(t.sockets[x].tcp))
  {
    NewSocketClean(TcpState.Listen, Some(s.listeners[l].addr), None);
    assert InList(s.listeners, m, x) || (m == l && x == FreeSlot(s.sockets.Keys, f.Slot(0)) && 0 !in f.refused);
  }

  lemma TakingStaysPristine(s: Stack, l: Handle, i: nat, f: Foreign)
    requires ListsLive(s.sockets, s.listeners) && Pristine(s.sockets, s.listeners)
    requires l in s.listeners && i < |s.listeners[l].handles|
    ensures var t := TakeFromListener(s, l, i, f); Pristine(t.sockets, t.listeners)
  {
    var t := TakeFromListener(s, l, i, f);
    forall m, x | InList(t.listeners, m, x)
      ensures || (InList(s.listeners, m, x) && x in t.sockets && t.sockets[x] == s.sockets[x])
              || (IsTcp(t.sockets, x) && Clean(t.sockets[x].tcp))
    {
      TakingAddsClean(s, l, i, f, m, x);
    }
    ListsShrink(s, t);
  }

  lemma AcceptAtGrowsClean(s: Stack, l: Handle, i: nat, req: nat, f: Foreign)
    requires Owned(s) && Pristine(s.sockets, s.listeners) && l in s.listeners && i < |s.listeners[l].handles|
    requires Ready(s.sockets, s.listeners[l].handles[i])
    ensures GrowsClean(s, AcceptAt(s, l, i, req, f))
  {
    TakingStaysPristine(s, l, i, f);
    assert InList(s.listeners, l, s.listeners[l].handles[i]);
  }

  lemma CloseListenerGrowsClean(s: Stack, l: Handle)
    requires Owned(s) && Pristine(s.sockets, s.listeners) && ListedLive(s, l)
    ensures GrowsClean(s, CloseListener(s, l))
  {
    var t := CloseListener(s, l);
    forall m, x | InList(t.listeners, m, x)
      ensures InList(s.listeners, m, x) && x in t.sockets && t.sockets[x] == s.sockets[x]
    {
      assert InList(s.listeners, m, x);
      assert l in s.listeners && x in s.listeners[l].handles ==> InList(s.listeners, l, x);
    }
    ListsShrink(s, t);
  }

  lemma CommandGrowsClean(s: Stack, c: Command, f: Foreign)
    requires Owned(s) && Pristine(s.sockets, s.listeners) && Looks(s, c) && FromHolder(IssuedBy(s.log.replies), c)
    ensures GrowsClean(s, Dispatch(s, c, f))
  {
    match c
    case TcpConnect(localIp, addr) => ConnectGrowsClean(s, localIp, addr, f);
    case TcpListen(addr, backlog) => ListenGrowsClean(s, addr, backlog, f);
    case TcpAccept(l) =>
      if l in s.listeners && FirstReady(s.sockets, s.listeners[l].handles).Some? {
        AcceptAtGrowsClean(s.(log := s.log.Asked()), l, FirstReady(s.sockets, s.listeners[l].handles).value,
                           s.log.requests, f);
      }
    case TcpListenerClose(l) => CloseListenerGrowsClean(s, l);
    case TcpClose(h) => ListsShrink(s, CloseStream(s, h));
    case UdpBind(addr) => ListsShrink(s, BindUdp(s, addr, f));
    case UdpClose(h) => ListsShrink(s, CloseUdp(s, h));
  }

  lemma CompleteGrowsClean(s: Stack, h: Handle, f: Foreign)
    requires Owned(s) && Pristine(s.sockets, s.listeners) && PendingLooks(s, h)
    ensures GrowsClean(s, CompleteOne(s, h, f))
  {
    if h in s.pending && s.pending[h].AcceptOp? && h in s.listeners
       && FirstReady(s.sockets, s.listeners[h].handles).Some? {
      ForgettingAccept(s, h);
      AcceptAtGrowsClean(s.(pending := s.pending - {h}), h, FirstReady(s.sockets, s.listeners[h].handles).value,
                         s.pending[h].req, f);
    }
  }

  lemma NetStaysClean(old_: TcpSocket, new_: TcpSocket)
    requires NetTcp(old_, new_) && Clean(old_)
    ensures Clean(new_)
  {
  }

  lemma PollStaysPristine(s: Stack, sockets1: map<Handle, Socket>, reported: bool)
    requires Owned(s) && Pristine(s.sockets, s.listeners) && LegalPoll(s.sockets, sockets1, reported)
    ensures Pristine(sockets1, s.listeners)
  {
    forall l, x | InList(s.listeners, l, x)
      ensures IsTcp(sockets1, x) && Clean(sockets1[x].tcp)
    {
      assert NetSocket(s.sockets[x], sockets1[x], reported);
      NetStaysClean(s.sockets[x].tcp, sockets1[x].tcp);
    }
  }
}
