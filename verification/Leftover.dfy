/** What becomes of streams, listeners and UDP sockets whose holder is gone and whose close command
    never got into the queue: because the drops of two halves overlapped, or because the queue was
    full.  The write loop still closes streams; entries, listeners and ports stay. */
module Leftover {
  import opened Base
  import opened TcpPath
  import opened UdpPath
  import opened Stack
  import opened Ownership
  import opened Machine
  import opened Safety
  import opened Replies
  import opened Refinement
  import opened Conservation
  import opened UdpConservation
  import opened Backlog
  import C = Connection

  predicate LetsGo(e: C.Event) {
    e.TcpClose? || e.LetGo?
  }

  predicate NoneLetsGo(es: seq<C.Event>) {
    forall i :: 0 <= i < |es| ==> !LetsGo(es[i])
  }

  lemma {:induction false} StaysAttached(c: C.Conn, es: seq<C.Event>)
    requires NoneLetsGo(es)
    ensures C.Run(c, es).attached == c.attached
    decreases |es|
  {
    if es != [] {
      assert C.Step(c, es[0]).attached == c.attached;
      StaysAttached(C.Step(c, es[0]), es[1..]);
    }
  }

  /** The stream was handed out, and the stack task has an entry for it. */
  ghost predicate Lingers(w: World, h: Handle) {
    h in w.s.tcpStates && h in IssuedBy(w.s.log.replies).streams
  }

  /** The command is not in the queue, now or at any later moment of the run. */
  predicate NeverQueued(w: World, events: seq<Event>, c: Command)
    decreases |events|
  {
    c !in w.commands && (events != [] && Step(w, events[0]).Next? ==> NeverQueued(Step(w, events[0]).w, events[1..], c))
  }

  lemma OnlySubmitQueues(w: World, e: Event, c: Command)
    requires c !in w.commands && e != Submit(c) && Step(w, e).Next?
    ensures c !in Step(w, e).w.commands
  {
  }

  lemma {:induction false} NeverTried(w: World, events: seq<Event>, c: Command)
    requires c !in w.commands && Submit(c) !in events
    ensures NeverQueued(w, events, c)
    decreases |events|
  {
    if events != [] && Step(w, events[0]).Next? {
      OnlySubmitQueues(w, events[0], c);
      NeverTried(Step(w, events[0]).w, events[1..], c);
    }
  }

  /** A drop tries once: a command that finds the queue full is lost, whatever happens later. */
  lemma FullQueueLosesCommand(w: World, events: seq<Event>, c: Command)
    requires |w.commands| >= COMMAND_CHANNEL_CAPACITY && c !in w.commands && Submit(c) !in events
    ensures NeverQueued(w, [Submit(c)] + events, c)
  {
    assert Step(w, Submit(c)) == Next(w) && ([Submit(c)] + events)[1..] == events;
    NeverTried(w, events, c);
  }

  lemma IssuedIsConnected(s: Stack, h: Handle)
    requires Owned(s) && h in IssuedBy(s.log.replies).streams
    ensures !(h in s.pending && s.pending[h].ConnectOp?)
  {
  }

  lemma NetLetsNothingGo(old_: TcpSocket, new_: TcpSocket)
    requires NetTcp(old_, new_)
    ensures NoneLetsGo(NetEvents(old_, new_))
  {
  }

  lemma NothingLetsGo(w: World, e: Event, h: Handle)
    requires Channelled(w.s, h) && !e.Return? && Command.TcpClose(h) !in w.commands
    requires !(h in w.s.pending && w.s.pending[h].ConnectOp?)
    ensures NoneLetsGo(Seen(w, e, h))
  {
    match e
    case Poll(sockets, reported) =>
      if w.phase.Networking? && LegalPoll(w.s.sockets, sockets, reported) {
        assert NetSocket(w.s.sockets[h], sockets[h], reported);
        NetLetsNothingGo(w.s.sockets[h].tcp, sockets[h].tcp);
      }
    case _ =>
  }

  lemma BusyRepliesStay(w: World, e: Event)
    requires Busy(e)
    requires Step(w, e).Next?
    ensures w.s.log.replies <= Step(w, e).w.s.log.replies
  {
    match e
    case TakeCommand(f) =>
      if w.phase == Waiting && w.commands != [] {
        DispatchReplies(w.s, w.commands[0], f);
      }
    case Complete(h, f) =>
      if w.phase.Completing? && h in w.phase.todo {
        CompleteReplies(w.s, h, f);
      }
    case _ =>
  }

  lemma IssuedStays(replies: seq<Reply>, replies1: seq<Reply>, h: Handle)
    requires replies <= replies1 && h in IssuedBy(replies).streams
    ensures h in IssuedBy(replies1).streams
  {
    IssuedGrows(replies, replies1[|replies|..]);
    assert replies1 == replies + replies1[|replies|..];
  }

  lemma StillIssued(w: World, e: Event, h: Handle)
    requires Step(w, e).Next? && h in IssuedBy(w.s.log.replies).streams
    ensures h in IssuedBy(Step(w, e).w.s.log.replies).streams
  {
    if Busy(e) {
      BusyRepliesStay(w, e);
      IssuedStays(w.s.log.replies, Step(w, e).w.s.log.replies, h);
    } else {
      IdleSteps(w, e);
    }
  }

  lemma StillAttached(w: World, e: Event, h: Handle)
    requires Kept(w) && Conserves(w) && Lingers(w, h) && Command.TcpClose(h) !in w.commands && !e.Return?
    ensures Step(w, e).Next? && h in Step(w, e).w.s.tcpStates
  {
    assert IsTcp(w.s.sockets, h);
    assert Channelled(w.s, h);
    StepRefines(w, e, h);
    IssuedIsConnected(w.s, h);
    NothingLetsGo(w, e, h);
    StaysAttached(Project(w, h), Seen(w, e, h));
  }

  lemma ReturnExits(w: World)
    ensures Step(w, Return) == Next(ReturnStep(w)) && (ReturnStep(w) == w || ReturnStep(w).phase == Exited)
  {
  }

  lemma LingersOn(w: World, e: Event, h: Handle)
    requires Kept(w) && Conserves(w) && Lingers(w, h) && Command.TcpClose(h) !in w.commands
    ensures Step(w, e).Next? && (Lingers(Step(w, e).w, h) || Step(w, e).w.phase == Exited)
  {
    if e.Return? {
      ReturnExits(w);
    } else {
      StillAttached(w, e, h);
      StillIssued(w, e, h);
    }
  }

  lemma ExitIsFinal(w: World, e: Event)
    requires w.phase == Exited && Step(w, e).Next?
    ensures Step(w, e).w.phase == Exited
  {
  }

  /** As long as no close of it is queued, the entry of a stream stays in every run, until the stack
      task exits. */
  lemma {:induction false} EntryStaysUntilExit(w: World, events: seq<Event>, h: Handle)
    requires Kept(w) && Conserves(w) && (Lingers(w, h) || w.phase == Exited)
    requires NeverQueued(w, events, Command.TcpClose(h))
    ensures Run(w, events).Next?
    ensures var v := Run(w, events).w; h in v.s.tcpStates || v.phase == Exited
    decreases |events|
  {
    if events != [] {
      StepKeeps(w, events[0]);
      StepConserves(w, events[0]);
      if Lingers(w, h) {
        LingersOn(w, events[0], h);
      } else {
        ExitIsFinal(w, events[0]);
      }
      EntryStaysUntilExit(Step(w, events[0]).w, events[1..], h);
    }
  }

  /** The write loop of the whole stack task closes the socket of a stream whose writer is gone,
      exactly when the rest of its backlog fits with room to spare, and not before every byte accepted
      is handed over; no close command is needed, and the entry stays. */
  lemma WriteLoopCloses(w: World, takes: Decision, h: Handle)
    requires Kept(w) && Conserves(w) && w.phase == Writing && h in w.s.tcpStates
    ensures WriteChannelsStep(w, takes).Next?
    ensures var w1 := WriteChannelsStep(w, takes).w;
            && Channelled(w.s, h) && Channelled(w1.s, h) && h in w1.s.tcpStates
            && var (c, d) := (Project(w, h), Project(w1, h));
               && (d.socket.state != c.socket.state <==>
                   c.socket.MaySend() && !c.st.write.senders && |c.st.Backlog()| < c.socket.Room())
               && (d.socket.state != c.socket.state ==>
                   d.socket.state == AfterClose(c.socket.state) && d.socket.handed == Flat(d.st.write.sent))
  {
    WriteChannelsKeeps(w, takes);
    assert IsTcp(w.s.sockets, h) && Channelled(w.s, h);
    WriteChannelsRefines(w, takes, h);
    RunOne(Project(w, h), C.StackWrite);
    C.HalfCloseFlushes(Project(w, h));
    WriteStepIsGreedy(Project(w, h).socket, Project(w, h).st);
  }

  // ---------------------------------------------------------------- listeners

  /** The listener is open, on this address. */
  predicate Listens(s: Stack, l: Handle, addr: SocketAddr) {
    l in s.listeners && s.listeners[l].addr == addr
  }

  lemma ListenKeepsListener(s: Stack, addr: SocketAddr, backlog: nat, f: Foreign, l: Handle, at: SocketAddr)
    requires Owned(s) && Listens(s, l, at)
    ensures Listens(StartListening(s, addr, backlog, f), l, at)
  {
    ListenerIsLive(s, l);
    var handles := NewHandles(s.sockets.Keys, f, 0, AtLeastOne(backlog));
    assert handles[0] in handles;
  }

  lemma AcceptKeepsListener(s: Stack, m: Handle, f: Foreign, l: Handle, at: SocketAddr)
    requires ListedLive(s, m) && Listens(s, l, at)
    ensures Listens(AcceptStream(s, m, f), l, at)
  {
  }

  lemma CommandKeepsListener(s: Stack, c: Command, f: Foreign, l: Handle, at: SocketAddr)
    requires Owned(s) && Looks(s, c) && Listens(s, l, at) && c != TcpListenerClose(l)
    ensures Listens(Dispatch(s, c, f), l, at)
  {
    match c
    case TcpConnect(localIp, addr) => assert Listens(StartConnect(s, localIp, addr, f), l, at);
    case TcpListen(addr, backlog) => ListenKeepsListener(s, addr, backlog, f, l, at);
    case TcpAccept(m) => AcceptKeepsListener(s, m, f, l, at);
    case TcpListenerClose(m) => assert Listens(CloseListener(s, m), l, at);
    case TcpClose(h) => assert Listens(CloseStream(s, h), l, at);
    case UdpBind(addr) => assert Listens(BindUdp(s, addr, f), l, at);
    case UdpClose(h) => assert Listens(CloseUdp(s, h), l, at);
  }

  lemma TakeKeepsListener(w: World, f: Foreign, l: Handle, at: SocketAddr)
    requires Owned(w.s) && Listens(w.s, l, at) && TcpListenerClose(l) !in w.commands && TakeStep(w, f).Next?
    ensures Listens(TakeStep(w, f).w.s, l, at)
  {
    if w.phase == Waiting && w.commands != [] {
      CommandKeepsListener(w.s, w.commands[0], f, l, at);
    }
  }

  lemma CompletionKeepsListener(w: World, h: Handle, f: Foreign, l: Handle, at: SocketAddr)
    requires Listens(w.s, l, at) && CompleteStep(w, h, f).Next?
    ensures Listens(CompleteStep(w, h, f).w.s, l, at)
  {
  }

  lemma OthersKeepListeners(w: World, e: Event)
    requires !e.TakeCommand? && !e.Complete? && Step(w, e).Next?
    ensures Step(w, e).w.s.listeners == w.s.listeners
  {
    match e
    case TcpApp(h, a) => AppSteps(w, h, a, Receive);
    case UdpApp(h, b) => AppSteps(w, h, C.DropWriter, b);
    case Fail(h) => LeaveSteps(w, h);
    case Drop(h) => LeaveSteps(w, h);
    case _ =>
  }

  lemma StepKeepsListener(w: World, e: Event, l: Handle, at: SocketAddr)
    requires Kept(w) && Listens(w.s, l, at) && TcpListenerClose(l) !in w.commands
    ensures Step(w, e).Next? && Listens(Step(w, e).w.s, l, at)
  {
    StepKeeps(w, e);
    match e
    case TakeCommand(f) => TakeKeepsListener(w, f, l, at);
    case Complete(h, f) => CompletionKeepsListener(w, h, f, l, at);
    case _ => OthersKeepListeners(w, e);
  }

  /** As long as no close of it is queued, a listener stays open in every run, and its port taken: a
      listen on that port is refused. */
  lemma {:induction false} ListenerStays(w: World, events: seq<Event>, l: Handle, at: SocketAddr)
    requires Kept(w) && Listens(w.s, l, at) && NeverQueued(w, events, TcpListenerClose(l))
    ensures Run(w, events).Next?
    ensures Listens(Run(w, events).w.s, l, at) && PortTaken(Run(w, events).w.s.listeners, at.port)
    decreases |events|
  {
    if events == [] {
      assert w.s.listeners[l].addr.port == at.port;
    } else {
      StepKeeps(w, events[0]);
      StepKeepsListener(w, events[0], l, at);
      ListenerStays(Step(w, events[0]).w, events[1..], l, at);
    }
  }

  // ---------------------------------------------------------------- UDP sockets

  predicate NoneLetsUdpGo(es: seq<UdpEvent>) {
    forall i :: 0 <= i < |es| ==> !es[i].UdpClose? && !es[i].LetGo?
  }

  lemma {:induction false} UdpStaysAttached(u: UdpLife, es: seq<UdpEvent>)
    requires NoneLetsUdpGo(es)
    ensures UdpRun(u, es).attached == u.attached
    decreases |es|
  {
    if es != [] {
      assert UdpStep(u, es[0]).attached == u.attached;
      UdpStaysAttached(UdpStep(u, es[0]), es[1..]);
    }
  }

  lemma {:induction false} ArrivalsLetNothingGo(ds: seq<Datagram>)
    ensures NoneLetsUdpGo(Arrivals(ds))
  {
    if ds != [] {
      ArrivalsLetNothingGo(ds[1..]);
    }
  }

  lemma NothingLetsUdpGo(w: World, e: Event, h: Handle)
    requires UdpChannelled(w.s, h) && !e.Return? && Command.UdpClose(h) !in w.commands
    ensures NoneLetsUdpGo(UdpSeen(w, e, h))
  {
    match e
    case Poll(sockets, reported) =>
      if w.phase.Networking? && LegalPoll(w.s.sockets, sockets, reported) {
        assert NetSocket(w.s.sockets[h], sockets[h], reported);
        var old_, new_ := w.s.sockets[h].udp, sockets[h].udp;
        ArrivalsLetNothingGo(new_.rx[|old_.rx|..]);
      }
    case _ =>
  }

  lemma UdpLingersOn(w: World, e: Event, h: Handle)
    requires Kept(w) && UdpConserves(w) && h in w.s.udpStates && Command.UdpClose(h) !in w.commands
    ensures Step(w, e).Next? && (h in Step(w, e).w.s.udpStates || Step(w, e).w.phase == Exited)
  {
    if e.Return? {
      ReturnExits(w);
    } else {
      assert IsUdp(w.s.sockets, h);
      assert UdpChannelled(w.s, h);
      StepRefinesUdp(w, e, h);
      NothingLetsUdpGo(w, e, h);
      UdpStaysAttached(ProjectUdp(w, h), UdpSeen(w, e, h));
    }
  }

  /** The same for the entry of a UDP socket. */
  lemma {:induction false} UdpEntryStaysUntilExit(w: World, events: seq<Event>, h: Handle)
    requires Kept(w) && UdpConserves(w) && (h in w.s.udpStates || w.phase == Exited)
    requires NeverQueued(w, events, Command.UdpClose(h))
    ensures Run(w, events).Next?
    ensures var v := Run(w, events).w; h in v.s.udpStates || v.phase == Exited
    decreases |events|
  {
    if events != [] {
      StepKeeps(w, events[0]);
      StepConservesUdp(w, events[0]);
      if w.phase == Exited {
        ExitIsFinal(w, events[0]);
      } else {
        UdpLingersOn(w, events[0], h);
      }
      UdpEntryStaysUntilExit(Step(w, events[0]).w, events[1..], h);
    }
  }
}
