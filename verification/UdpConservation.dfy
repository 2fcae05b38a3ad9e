/** The same for UDP: seen through one handle, the machine is one UDP socket, and every UDP socket of
    every run accounts for its datagrams. */
module UdpConservation {
  import opened Base
  import opened UdpPath
  import opened Stack
  import opened Ownership
  import opened Machine
  import opened Safety
  import C = Connection

  // ---------------------------------------------------------------- what a UDP socket sees

  function Arrivals(ds: seq<Datagram>): seq<UdpEvent>
  {
    if ds == [] then [] else [Arrived(ds[0])] + Arrivals(ds[1..])
  }

  function UdpNetEvents(old_: UdpSocket, new_: UdpSocket): seq<UdpEvent>
    requires NetUdp(old_, new_)
  {
    [Transmitted(|old_.tx| - |new_.tx|)] + Arrivals(new_.rx[|old_.rx|..])
  }

  /** The part of a step of the machine that concerns the UDP socket named by `h`. */
  function UdpSeen(w: World, e: Event, h: Handle): seq<UdpEvent>
    requires UdpChannelled(w.s, h)
  {
    match e
    case TakeCommand(f) =>
      if w.phase == Waiting && w.commands != [] && w.commands[0] == Command.UdpClose(h) then [UdpEvent.UdpClose] else []
    case PollWriteChannels(takes) => if w.phase == Writing then [StackWrite(takes)] else []
    case Poll(sockets, reported) =>
      if w.phase.Networking? && LegalPoll(w.s.sockets, sockets, reported)
      then assert NetSocket(w.s.sockets[h], sockets[h], reported);
           UdpNetEvents(w.s.sockets[h].udp, sockets[h].udp) else []
    case PollReadChannels => if w.phase.Reading? then [StackRead] else []
    case Return =>
      if (w.phase == Failing || w.phase == Dropping) && w.s.pending == map[] && h in w.s.udpStates then [LetGo] else []
    case UdpApp(k, udpAction) =>
      if k == h && h in IssuedBy(w.s.log.replies).udps then [UdpEvent.App(udpAction)] else []
    case _ => []
  }

  lemma UdpRunOne(u: UdpLife, e: UdpEvent)
    ensures UdpRun(u, [e]) == UdpStep(u, e)
  {
  }

  lemma UdpRunFirst(u: UdpLife, e: UdpEvent, rest: seq<UdpEvent>)
    ensures UdpRun(u, [e] + rest) == UdpRun(UdpStep(u, e), rest)
  {
  }

  lemma {:induction false} ArrivalsRun(u: UdpLife, ds: seq<Datagram>)
    requires u.socket.open || ds == []
    ensures UdpRun(u, Arrivals(ds)) == u.(socket := u.socket.(rx := u.socket.rx + ds, arrived := u.socket.arrived + ds))
    decreases |ds|
  {
    if ds == [] {
      assert u.socket.rx + ds == u.socket.rx && u.socket.arrived + ds == u.socket.arrived;
    } else {
      var v := UdpStep(u, Arrived(ds[0]));
      UdpRunFirst(u, Arrived(ds[0]), Arrivals(ds[1..]));
      ArrivalsRun(v, ds[1..]);
      assert u.socket.rx + ds == v.socket.rx + ds[1..];
      assert u.socket.arrived + ds == v.socket.arrived + ds[1..];
    }
  }

  lemma UdpNetIsRun(u: UdpLife, new_: UdpSocket)
    requires NetUdp(u.socket, new_)
    ensures UdpRun(u, UdpNetEvents(u.socket, new_)) == u.(socket := new_)
  {
    var n, ds := |u.socket.tx| - |new_.tx|, new_.rx[|u.socket.rx|..];
    UdpRunFirst(u, Transmitted(n), Arrivals(ds));
    assert !u.socket.open ==> ds == [];
    ArrivalsRun(UdpStep(u, Transmitted(n)), ds);
  }

  // ---------------------------------------------------------------- handlers leave other UDP sockets alone

  predicate UdpLeaves(s: Stack, t: Stack, h: Handle) {
    && h in s.sockets && h in t.sockets && t.sockets[h] == s.sockets[h]
    && (if h in s.udpStates then h in t.udpStates && t.udpStates[h] == s.udpStates[h]
        else h !in t.udpStates && h in s.past.udp && h in t.past.udp && t.past.udp[h] == s.past.udp[h])
  }

  ghost predicate UdpRefines(w: World, w1: World, h: Handle, events: seq<UdpEvent>) {
    UdpChannelled(w.s, h) && UdpChannelled(w1.s, h) && ProjectUdp(w1, h) == UdpRun(ProjectUdp(w, h), events)
  }

  lemma UdpLeavesRefines(w: World, w1: World, h: Handle)
    requires UdpChannelled(w.s, h) && UdpLeaves(w.s, w1.s, h) && w1.udpApps == w.udpApps
    ensures UdpRefines(w, w1, h, [])
  {
  }

  lemma UdpListenLeaves(s: Stack, addr: SocketAddr, backlog: nat, f: Foreign, h: Handle)
    requires UdpChannelled(s, h)
    ensures UdpLeaves(s, StartListening(s, addr, backlog, f), h)
  {
  }

  lemma UdpAcceptLeaves(s: Stack, l: Handle, i: nat, req: nat, f: Foreign, h: Handle)
    requires UdpChannelled(s, h) && l in s.listeners && i < |s.listeners[l].handles|
    requires Ready(s.sockets, s.listeners[l].handles[i])
    ensures UdpLeaves(s, AcceptAt(s, l, i, req, f), h)
  {
  }

  lemma UdpCloseListenerLeaves(s: Stack, l: Handle, h: Handle)
    requires UdpChannelled(s, h) && ListedLive(s, l)
    ensures UdpLeaves(s, CloseListener(s, l), h)
  {
  }

  lemma UdpCommandLeaves(s: Stack, c: Command, f: Foreign, h: Handle)
    requires UdpChannelled(s, h) && Looks(s, c) && c != Command.UdpClose(h)
    ensures UdpLeaves(s, Dispatch(s, c, f), h)
  {
    match c
    case TcpConnect(localIp, addr) => assert UdpLeaves(s, StartConnect(s, localIp, addr, f), h);
    case TcpListen(addr, backlog) => UdpListenLeaves(s, addr, backlog, f, h);
    case TcpAccept(l) =>
      if l in s.listeners && FirstReady(s.sockets, s.listeners[l].handles).Some? {
        UdpAcceptLeaves(s.(log := s.log.Asked()), l, FirstReady(s.sockets, s.listeners[l].handles).value,
                        s.log.requests, f, h);
      }
    case TcpListenerClose(l) => UdpCloseListenerLeaves(s, l, h);
    case TcpClose(k) => assert UdpLeaves(s, CloseStream(s, k), h);
    case UdpBind(addr) => assert UdpLeaves(s, BindUdp(s, addr, f), h);
    case UdpClose(k) => assert UdpLeaves(s, CloseUdp(s, k), h);
  }

  // ---------------------------------------------------------------- every step

  lemma UdpTakeRefines(w: World, f: Foreign, h: Handle)
    requires UdpChannelled(w.s, h) && UdpInv(ProjectUdp(w, h)) && TakeStep(w, f).Next?
    ensures UdpRefines(w, TakeStep(w, f).w, h, UdpSeen(w, TakeCommand(f), h))
  {
    var w1 := TakeStep(w, f).w;
    if w.phase == Waiting && w.commands != [] {
      if w.commands[0] == Command.UdpClose(h) {
        UdpCloseRefines(w, w1, h);
      } else {
        UdpCommandLeaves(w.s, w.commands[0], f, h);
        UdpLeavesRefines(w, w1, h);
      }
    }
  }

  lemma UdpCloseRefines(w: World, w1: World, h: Handle)
    requires UdpChannelled(w.s, h) && UdpInv(ProjectUdp(w, h))
    requires w1.s == CloseUdp(w.s, h) && w1.udpApps == w.udpApps
    ensures UdpRefines(w, w1, h, [UdpEvent.UdpClose])
  {
  }

  lemma UdpWriteRefines(w: World, takes: Decision, h: Handle)
    requires Owned(w.s) && UdpChannelled(w.s, h) && WriteChannelsStep(w, takes).Next?
    ensures UdpRefines(w, WriteChannelsStep(w, takes).w, h, UdpSeen(w, PollWriteChannels(takes), h))
  {
  }

  lemma UdpReadRefines(w: World, h: Handle)
    requires Owned(w.s) && UdpChannelled(w.s, h) && ReadChannelsStep(w).Next?
    ensures UdpRefines(w, ReadChannelsStep(w).w, h, UdpSeen(w, PollReadChannels, h))
  {
  }

  lemma UdpPollRefines(w: World, sockets: map<Handle, Socket>, reported: bool, h: Handle)
    requires UdpChannelled(w.s, h)
    ensures UdpRefines(w, PollStep(w, sockets, reported), h, UdpSeen(w, Poll(sockets, reported), h))
  {
    if w.phase.Networking? && LegalPoll(w.s.sockets, sockets, reported) {
      assert NetSocket(w.s.sockets[h], sockets[h], reported);
      UdpNetIsRun(ProjectUdp(w, h), sockets[h].udp);
    }
  }

  lemma UdpCompleteRefines(w: World, k: Handle, f: Foreign, h: Handle)
    requires UdpChannelled(w.s, h) && CompleteStep(w, k, f).Next?
    ensures UdpRefines(w, CompleteStep(w, k, f).w, h, [])
  {
    var w1 := CompleteStep(w, k, f).w;
    if w.phase.Completing? && k in w.phase.todo && k in w.s.pending && w.s.pending[k].AcceptOp? && k in w.s.listeners
       && FirstReady(w.s.sockets, w.s.listeners[k].handles).Some? {
      UdpAcceptLeaves(w.s.(pending := w.s.pending - {k}), k, FirstReady(w.s.sockets, w.s.listeners[k].handles).value,
                      w.s.pending[k].req, f, h);
    }
    UdpLeavesRefines(w, w1, h);
  }

  lemma UdpReturnRefines(w: World, h: Handle)
    requires UdpChannelled(w.s, h)
    ensures UdpRefines(w, ReturnStep(w), h, UdpSeen(w, Return, h))
  {
  }

  lemma HolderStays(u: UdpLife, a: UdpAction)
    ensures UdpAct(u, a).socket == u.socket && UdpAct(u, a).attached == u.attached
  {
  }

  lemma UdpPutProjects(w: World, k: Handle, u: UdpLife, h: Handle)
    requires UdpChannelled(w.s, h) && UdpChannelled(w.s, k)
    requires u.socket == ProjectUdp(w, k).socket && u.attached == ProjectUdp(w, k).attached
    ensures UdpChannelled(PutUdp(w, k, u).s, h)
    ensures ProjectUdp(PutUdp(w, k, u), h) == if k == h then u else ProjectUdp(w, h)
  {
  }

  lemma UdpHolderRefines(w: World, k: Handle, a: UdpAction, h: Handle)
    requires UdpChannelled(w.s, h)
    ensures UdpRefines(w, UdpAppStep(w, k, a), h, UdpSeen(w, UdpApp(k, a), h))
  {
    if UdpChannelled(w.s, k) && k in IssuedBy(w.s.log.replies).udps {
      HolderStays(ProjectUdp(w, k), a);
      UdpPutProjects(w, k, UdpAct(ProjectUdp(w, k), a), h);
      UdpRunOne(ProjectUdp(w, h), UdpEvent.App(a));
    }
  }

  lemma TcpPutLeaves(w: World, k: Handle, c: C.Conn, h: Handle)
    requires UdpChannelled(w.s, h)
    ensures UdpRefines(w, Put(w, k, c), h, [])
  {
  }

  lemma UdpWorkingRefines(w: World, e: Event, h: Handle)
    requires Owned(w.s) && UdpChannelled(w.s, h) && UdpInv(ProjectUdp(w, h)) && Working(e) && Step(w, e).Next?
    ensures UdpRefines(w, Step(w, e).w, h, UdpSeen(w, e, h))
  {
    match e
    case TakeCommand(f) => UdpTakeRefines(w, f, h);
    case PollWriteChannels(takes) => UdpWriteRefines(w, takes, h);
    case Poll(sockets, reported) => UdpPollRefines(w, sockets, reported, h);
    case PollReadChannels => UdpReadRefines(w, h);
    case Complete(k, f) => UdpCompleteRefines(w, k, f, h);
  }

  lemma UdpLeavingRefines(w: World, e: Event, h: Handle)
    requires UdpChannelled(w.s, h) && Leaving(e) && Step(w, e).Next?
    ensures UdpRefines(w, Step(w, e).w, h, UdpSeen(w, e, h))
  {
    match e
    case Fail(k) => UdpLeavesRefines(w, FailStep(w, k), h);
    case Drop(k) => UdpLeavesRefines(w, DropStep(w, k), h);
    case Return => UdpReturnRefines(w, h);
  }

  lemma UdpOtherRefines(w: World, e: Event, h: Handle)
    requires UdpChannelled(w.s, h) && !Working(e) && !Leaving(e) && Step(w, e).Next?
    ensures UdpRefines(w, Step(w, e).w, h, UdpSeen(w, e, h))
  {
    match e
    case Submit(c) => UdpLeavesRefines(w, SubmitStep(w, c), h);
    case TcpApp(k, tcpAction) =>
      if Channelled(w.s, k) {
        TcpPutLeaves(w, k, C.Act(Project(w, k), tcpAction), h);
      }
    case UdpApp(k, udpAction) => UdpHolderRefines(w, k, udpAction, h);
    case _ => UdpLeavesRefines(w, w.(phase := PhaseStep(w.phase, w.commands == [], e)), h);
  }

  /** Every step of the machine is, for each UDP socket, the run of what that socket sees of it. */
  lemma StepRefinesUdp(w: World, e: Event, h: Handle)
    requires Kept(w) && UdpChannelled(w.s, h) && UdpInv(ProjectUdp(w, h))
    ensures Step(w, e).Next? && UdpRefines(w, Step(w, e).w, h, UdpSeen(w, e, h))
  {
    StepKeeps(w, e);
    if Working(e) {
      UdpWorkingRefines(w, e, h);
    } else if Leaving(e) {
      UdpLeavingRefines(w, e, h);
    } else {
      UdpOtherRefines(w, e, h);
    }
  }

  // ---------------------------------------------------------------- UDP sockets that come into being

  /** UDP sockets only come into being new. */
  ghost predicate UdpBornNew(s: Stack, t: Stack) {
    forall h :: (h in t.udpStates || h in t.past.udp) && !(h in s.udpStates || h in s.past.udp) ==>
      h in t.udpStates && t.udpStates[h] == NewUdpState() && IsUdp(t.sockets, h) && t.sockets[h].udp == NewUdpSocket()
  }

  lemma UdpNothingNew(s: Stack, t: Stack)
    requires forall h :: h in t.udpStates || h in t.past.udp ==> h in s.udpStates || h in s.past.udp
    ensures UdpBornNew(s, t)
  {
  }

  lemma UdpCommandBirths(s: Stack, c: Command, f: Foreign)
    requires Looks(s, c)
    ensures UdpBornNew(s, Dispatch(s, c, f))
  {
    match c
    case TcpConnect(localIp, addr) => UdpNothingNew(s, StartConnect(s, localIp, addr, f));
    case TcpListen(addr, backlog) => UdpNothingNew(s, StartListening(s, addr, backlog, f));
    case TcpAccept(l) => UdpNothingNew(s, AcceptStream(s, l, f));
    case TcpListenerClose(l) => UdpNothingNew(s, CloseListener(s, l));
    case TcpClose(k) => UdpNothingNew(s, CloseStream(s, k));
    case UdpBind(addr) => assert UdpBornNew(s, BindUdp(s, addr, f));
    case UdpClose(k) => UdpNothingNew(s, CloseUdp(s, k));
  }

  lemma UdpTakeBirths(w: World, f: Foreign)
    requires TakeStep(w, f).Next?
    ensures UdpBornNew(w.s, TakeStep(w, f).w.s)
  {
    if w.phase == Waiting && w.commands != [] {
      UdpCommandBirths(w.s, w.commands[0], f);
    }
  }

  lemma UdpCompleteBirths(w: World, k: Handle, f: Foreign)
    requires CompleteStep(w, k, f).Next?
    ensures UdpBornNew(w.s, CompleteStep(w, k, f).w.s)
  {
    UdpNothingNew(w.s, CompleteStep(w, k, f).w.s);
  }

  lemma UdpWorkingBirths(w: World, e: Event)
    requires Working(e) && Step(w, e).Next?
    ensures UdpBornNew(w.s, Step(w, e).w.s)
  {
    match e
    case TakeCommand(f) => UdpTakeBirths(w, f);
    case Complete(k, f) => UdpCompleteBirths(w, k, f);
    case PollWriteChannels(takes) => UdpNothingNew(w.s, WriteChannelsStep(w, takes).w.s);
    case Poll(sockets, reported) => UdpNothingNew(w.s, PollStep(w, sockets, reported).s);
    case PollReadChannels => UdpNothingNew(w.s, ReadChannelsStep(w).w.s);
  }

  lemma UdpLeavingBirths(w: World, k: Handle)
    ensures UdpBornNew(w.s, FailStep(w, k).s) && UdpBornNew(w.s, DropStep(w, k).s)
    ensures UdpBornNew(w.s, ReturnStep(w).s)
  {
    UdpNothingNew(w.s, FailStep(w, k).s);
    UdpNothingNew(w.s, DropStep(w, k).s);
    UdpNothingNew(w.s, ReturnStep(w).s);
  }

  lemma UdpOtherBirths(w: World, e: Event)
    requires !Working(e) && Step(w, e).Next?
    ensures UdpBornNew(w.s, Step(w, e).w.s)
  {
    match e
    case Fail(k) => UdpLeavingBirths(w, k);
    case Drop(k) => UdpLeavingBirths(w, k);
    case Return => UdpLeavingBirths(w, 0);
    case TcpApp(h, tcpAction) => TcpAppBirths(w, h, tcpAction);
    case UdpApp(h, udpAction) => UdpAppBirths(w, h, udpAction);
    case _ => UdpNothingNew(w.s, w.s);
  }

  lemma TcpAppBirths(w: World, h: Handle, a: C.Action)
    ensures UdpBornNew(w.s, TcpAppStep(w, h, a).s)
  {
    UdpNothingNew(w.s, TcpAppStep(w, h, a).s);
  }

  lemma UdpAppBirths(w: World, h: Handle, a: UdpAction)
    ensures UdpBornNew(w.s, UdpAppStep(w, h, a).s)
  {
    UdpNothingNew(w.s, UdpAppStep(w, h, a).s);
  }

  // ---------------------------------------------------------------- accounting

  /** Every UDP socket of the machine accounts for its datagrams. */
  ghost predicate UdpConserves(w: World) {
    && (forall h :: h in w.udpApps ==> UdpChannelled(w.s, h))
    && (forall h :: UdpChannelled(w.s, h) ==> UdpInv(ProjectUdp(w, h)) && LetGoClosed(w, h))
  }

  /** While the task runs it lets go only of sockets that it closed. */
  predicate LetGoClosed(w: World, h: Handle)
    requires UdpChannelled(w.s, h)
  {
    h in w.s.udpStates || !w.s.sockets[h].udp.open || w.phase == Exited
  }

  lemma ArrivalsArrive(ds: seq<Datagram>)
    ensures forall e <- Arrivals(ds) :: e.Arrived?
  {
  }

  /** The exit of the task is what a socket sees as being let go. */
  lemma LetGoIsExit(w: World, e: Event, h: Handle)
    requires UdpChannelled(w.s, h) && LetGo in UdpSeen(w, e, h)
    ensures e == Return && ReturnStep(w).phase == Exited
  {
    if e.Poll? && w.phase.Networking? && LegalPoll(w.s.sockets, e.sockets, e.reported) {
      assert NetSocket(w.s.sockets[h], e.sockets[h], e.reported);
      ArrivalsArrive(e.sockets[h].udp.rx[|w.s.sockets[h].udp.rx|..]);
    }
  }

  lemma ExitedStays(w: World, e: Event, h: Handle)
    requires w.phase == Exited && UdpChannelled(w.s, h) && Step(w, e).Next?
    ensures Step(w, e).w.phase == Exited
    ensures UdpSeen(w, e, h) == [] || exists a :: UdpSeen(w, e, h) == [UdpEvent.App(a)]
  {
  }

  lemma StepLetsGoClosed(w: World, e: Event, h: Handle)
    requires UdpChannelled(w.s, h) && UdpInv(ProjectUdp(w, h)) && LetGoClosed(w, h)
    requires Step(w, e).Next? && UdpRefines(w, Step(w, e).w, h, UdpSeen(w, e, h))
    ensures LetGoClosed(Step(w, e).w, h)
  {
    if w.phase == Exited {
      ExitedStays(w, e, h);
    } else {
      if LetGo in UdpSeen(w, e, h) {
        LetGoIsExit(w, e, h);
      } else {
        OnlyLetGoLeavesOpen(ProjectUdp(w, h), UdpSeen(w, e, h));
      }
    }
  }

  lemma UdpAppsStay(w: World, e: Event, h: Handle)
    requires Step(w, e).Next? && h in Step(w, e).w.udpApps
    ensures h in w.udpApps || UdpChannelled(w.s, h)
  {
  }

  lemma UdpBirthConserves(w: World, w1: World, h: Handle)
    requires UdpBornNew(w.s, w1.s) && UdpChannelled(w1.s, h) && !(h in w.s.udpStates || h in w.s.past.udp)
    requires h !in w1.udpApps
    ensures UdpInv(ProjectUdp(w1, h))
  {
  }

  lemma StepConservesUdp(w: World, e: Event)
    requires Kept(w) && UdpConserves(w)
    ensures Step(w, e).Next? && UdpConserves(Step(w, e).w)
  {
    StepKeeps(w, e);
    var w1 := Step(w, e).w;
    if Working(e) {
      UdpWorkingBirths(w, e);
    } else {
      UdpOtherBirths(w, e);
    }
    forall h | h in w1.udpApps
      ensures UdpChannelled(w1.s, h)
    {
      UdpAppsStay(w, e, h);
      StepRefinesUdp(w, e, h);
    }
    forall h | UdpChannelled(w1.s, h)
      ensures UdpInv(ProjectUdp(w1, h)) && LetGoClosed(w1, h)
    {
      if UdpChannelled(w.s, h) {
        StepRefinesUdp(w, e, h);
        RunKeepsUdp(ProjectUdp(w, h), UdpSeen(w, e, h));
        StepLetsGoClosed(w, e, h);
      } else {
        if h in w1.udpApps {
          UdpAppsStay(w, e, h);
        }
        UdpBirthConserves(w, w1, h);
      }
    }
  }

  lemma {:induction false} RunConservesUdp(w: World, events: seq<Event>)
    requires Kept(w) && UdpConserves(w)
    ensures Run(w, events).Next? && Kept(Run(w, events).w) && UdpConserves(Run(w, events).w)
    decreases |events|
  {
    if events != [] {
      StepKeeps(w, events[0]);
      StepConservesUdp(w, events[0]);
      RunConservesUdp(Step(w, events[0]).w, events[1..]);
    }
  }

  // ---------------------------------------------------------------- what is lost stays lost

  /** Between `w` and `w1` the UDP socket sent, lost and took in nothing, and its queue stayed. */
  ghost predicate Unsent(w: World, w1: World, h: Handle) {
    && UdpChannelled(w.s, h) && UdpChannelled(w1.s, h) && h !in w1.s.udpStates
    && Unmoved(ProjectUdp(w, h), ProjectUdp(w1, h)) && ProjectUdp(w1, h).socket.tx == ProjectUdp(w, h).socket.tx
  }

  lemma StepUnsent(w: World, e: Event, h: Handle)
    requires UdpChannelled(w.s, h) && UdpInv(ProjectUdp(w, h)) && LetGoClosed(w, h) && h !in w.s.udpStates
    requires Step(w, e).Next? && UdpRefines(w, Step(w, e).w, h, UdpSeen(w, e, h))
    ensures Unsent(w, Step(w, e).w, h)
  {
    var u := ProjectUdp(w, h);
    if u.socket.open {
      ExitedStays(w, e, h);
      DetachedActs(u, UdpSeen(w, e, h));
    } else {
      SilentForever(u, UdpSeen(w, e, h));
    }
  }

  /** Once the task has let go of a UDP socket, no datagram that was still queued or in it is sent in
      any later run. */
  lemma {:induction false} RunUnsent(w: World, events: seq<Event>, h: Handle)
    requires Kept(w) && UdpConserves(w) && UdpChannelled(w.s, h) && h !in w.s.udpStates
    ensures Run(w, events).Next? && Unsent(w, Run(w, events).w, h)
    decreases |events|
  {
    if events != [] {
      StepKeeps(w, events[0]);
      StepConservesUdp(w, events[0]);
      StepRefinesUdp(w, events[0], h);
      StepUnsent(w, events[0], h);
      RunUnsent(Step(w, events[0]).w, events[1..], h);
    }
  }
}
