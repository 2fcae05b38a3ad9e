/** No lost wakeup: whenever the task is at the head of its loop, nothing that it has pending could
    be completed. */
module Wakeup {
  import opened Base
  import opened TcpPath
  import opened UdpPath
  import opened Stack
  import opened Ownership
  import opened Machine
  import opened Safety

  predicate Decided(state: TcpState) {
    state == Established || state == Closed || state == TimeWait
  }

  /** The operation pending under `h` has to wait. */
  ghost predicate Blocked(sockets: map<Handle, Socket>, listeners: map<Handle, ListenerState>, h: Handle,
                          op: PendingOp) {
    if op.ConnectOp? then IsTcp(sockets, h) && !Decided(sockets[h].tcp.state)
    else forall x :: InList(listeners, h, x) ==> !Ready(sockets, x)
  }

  /** All operations but those in `todo` have to wait. */
  ghost predicate Settled(s: Stack, todo: set<Handle>) {
    forall h :: h in s.pending && h !in todo ==> Blocked(s.sockets, s.listeners, h, s.pending[h])
  }

  ghost predicate Wakeful(w: World) {
    match w.phase
    case Waiting => Settled(w.s, {})
    case Writing => Settled(w.s, {})
    case Networking(changed) => changed || Settled(w.s, {})
    case Reading(changed) => changed || Settled(w.s, {})
    case Completing(todo) => Settled(w.s, todo)
    case Checking => Settled(w.s, {})
    case _ => true
  }

  /** The socket looks the same to whoever waits for it. */
  predicate SameWatch(sockets: map<Handle, Socket>, sockets1: map<Handle, Socket>, h: Handle) {
    IsTcp(sockets, h) && IsTcp(sockets1, h) && sockets1[h].tcp.state == sockets[h].tcp.state
    && sockets1[h].tcp.remote == sockets[h].tcp.remote
  }

  // ---------------------------------------------------------------- adding sockets

  ghost predicate Extends(sockets: map<Handle, Socket>, sockets1: map<Handle, Socket>) {
    forall x :: x in sockets ==> x in sockets1 && sockets1[x] == sockets[x]
  }

  /** New sockets, and a new list for `l`, unblock no other operation. */
  lemma ExtendingBlocks(s: Stack, sockets1: map<Handle, Socket>, listeners1: map<Handle, ListenerState>,
                        l: Handle, todo: set<Handle>)
    requires ListsLive(s.sockets, s.listeners) && Settled(s, todo) && Extends(s.sockets, sockets1)
    requires listeners1 == s.listeners || (l in listeners1 && listeners1 == s.listeners[l := listeners1[l]])
    ensures forall h :: h in s.pending && h !in todo && h != l ==> Blocked(sockets1, listeners1, h, s.pending[h])
  {
    forall h | h in s.pending && h !in todo && h != l
      ensures Blocked(sockets1, listeners1, h, s.pending[h])
    {
      assert Blocked(s.sockets, s.listeners, h, s.pending[h]);
      forall x | InList(listeners1, h, x)
        ensures Ready(sockets1, x) == Ready(s.sockets, x) && InList(s.listeners, h, x)
      {
        assert InList(s.listeners, h, x);
      }
    }
  }

  lemma ConnectSettles(s: Stack, localIp: Option<IpAddr>, addr: SocketAddr, f: Foreign)
    requires Owned(s) && Settled(s, {})
    ensures Settled(StartConnect(s, localIp, addr, f), {})
  {
  }

  lemma BindSettles(s: Stack, addr: SocketAddr, f: Foreign)
    requires Owned(s) && Settled(s, {})
    ensures Settled(BindUdp(s, addr, f), {})
  {
  }

  lemma AddListenerSettles(s: Stack, addr: SocketAddr, handles: seq<Handle>)
    requires Owned(s) && Settled(s, {}) && |handles| > 0 && (forall h <- handles :: h !in s.sockets)
    ensures Settled(AddListener(s, addr, handles), {})
  {
    var t := AddListener(s, addr, handles);
    assert handles[0] in handles;
    PendingUsesLive(s, handles[0]);
    ExtendingBlocks(s, t.sockets, t.listeners, handles[0], {});
  }

  lemma ListenSettles(s: Stack, addr: SocketAddr, backlog: nat, f: Foreign)
    requires Owned(s) && Settled(s, {})
    ensures Settled(StartListening(s, addr, backlog, f), {})
  {
    AddListenerSettles(s, addr, NewHandles(s.sockets.Keys, f, 0, AtLeastOne(backlog)));
  }

  lemma TakingBlocks(s: Stack, l: Handle, i: nat, f: Foreign, todo: set<Handle>)
    requires ListsLive(s.sockets, s.listeners) && Settled(s, todo) && l in s.listeners && i < |s.listeners[l].handles|
    ensures var t := TakeFromListener(s, l, i, f);
            forall h :: h in s.pending && h !in todo && h != l ==> Blocked(t.sockets, t.listeners, h, s.pending[h])
  {
    var t := TakeFromListener(s, l, i, f);
    ExtendingBlocks(s, t.sockets, t.listeners, l, todo);
  }

  /** An accept that finds a connected peer answers at once, and then nobody else waits on that
      listener; otherwise it waits. */
  lemma AcceptSettles(s: Stack, l: Handle, f: Foreign)
    requires Owned(s) && Settled(s, {}) && ListedLive(s, l)
    ensures Settled(AcceptStream(s, l, f), {})
  {
    if l in s.listeners {
      var i := FirstReady(s.sockets, s.listeners[l].handles);
      if i.Some? {
        assert InList(s.listeners, l, s.listeners[l].handles[i.value]);
        assert l in s.pending ==> Blocked(s.sockets, s.listeners, l, s.pending[l]);
        TakingBlocks(s.(log := s.log.Asked()), l, i.value, f, {});
      } else {
        assert forall x :: InList(s.listeners, l, x) ==> !Ready(s.sockets, x);
      }
    }
  }

  // ---------------------------------------------------------------- changing sockets

  /** What the operations in `pending` wait for is left alone. */
  ghost predicate Undisturbed(s: Stack, t: Stack) {
    && (forall h :: h in t.pending ==> h in s.pending && t.pending[h] == s.pending[h])
    && (forall h :: h in t.pending && t.pending[h].ConnectOp? ==> SameWatch(s.sockets, t.sockets, h))
    && (forall h, x :: InList(t.listeners, h, x) ==> InList(s.listeners, h, x) && SameWatch(s.sockets, t.sockets, x))
  }

  lemma UndisturbedStaysSettled(s: Stack, t: Stack, todo: set<Handle>)
    requires Settled(s, todo) && Undisturbed(s, t)
    ensures Settled(t, todo)
  {
  }

  lemma CloseListenerSettles(s: Stack, l: Handle)
    requires Owned(s) && Settled(s, {}) && ListedLive(s, l) && l in IssuedBy(s.log.replies).listeners
    ensures Settled(CloseListener(s, l), {})
  {
    var t := CloseListener(s, l);
    if l in s.listeners {
      forall h, x | InList(t.listeners, h, x)
        ensures InList(s.listeners, h, x) && SameWatch(s.sockets, t.sockets, x)
      {
        assert InList(s.listeners, h, x);
        assert x in s.listeners[l].handles ==> InList(s.listeners, l, x);
      }
      forall h | h in t.pending && t.pending[h].ConnectOp?
        ensures SameWatch(s.sockets, t.sockets, h)
      {
        assert h in s.listeners[l].handles ==> InList(s.listeners, l, h);
      }
      UndisturbedStaysSettled(s, t, {});
    }
  }

  lemma CloseStreamSettles(s: Stack, h: Handle)
    requires Owned(s) && Settled(s, {}) && h in IssuedBy(s.log.replies).streams
    ensures Settled(CloseStream(s, h), {})
  {
  }

  lemma CloseUdpSettles(s: Stack, h: Handle)
    requires Owned(s) && Settled(s, {}) && h in IssuedBy(s.log.replies).udps
    ensures Settled(CloseUdp(s, h), {})
  {
  }

  lemma CommandSettles(s: Stack, c: Command, f: Foreign)
    requires Owned(s) && Settled(s, {}) && Looks(s, c) && FromHolder(IssuedBy(s.log.replies), c)
    ensures Settled(Dispatch(s, c, f), {})
  {
    match c
    case TcpConnect(localIp, addr) => ConnectSettles(s, localIp, addr, f);
    case TcpListen(addr, backlog) => ListenSettles(s, addr, backlog, f);
    case TcpAccept(l) => AcceptSettles(s, l, f);
    case TcpListenerClose(l) => CloseListenerSettles(s, l);
    case TcpClose(h) => CloseStreamSettles(s, h);
    case UdpBind(addr) => BindSettles(s, addr, f);
    case UdpClose(h) => CloseUdpSettles(s, h);
  }

  lemma WritesSettle(s: Stack, takes: Decision)
    requires Owned(s) && Settled(s, {})
    ensures Settled(PollWrites(s, takes), {})
  {
  }

  lemma ReadsWatch(s: Stack)
    requires Owned(s)
    ensures Undisturbed(s, PollReads(s))
  {
    var t := PollReads(s);
    forall h | IsTcp(s.sockets, h)
      ensures SameWatch(s.sockets, t.sockets, h)
    {
      if h in s.tcpStates {
        ReadStepKeepsWrite(s.sockets[h].tcp, s.tcpStates[h]);
      }
    }
  }

  // ---------------------------------------------------------------- completing

  lemma CompleteConnectSettles(s: Stack, h: Handle, todo: set<Handle>)
    requires Owned(s) && Settled(s, todo) && h in s.pending && s.pending[h].ConnectOp?
    ensures Settled(CompleteConnect(s, h), todo - {h})
  {
    var t := CompleteConnect(s, h);
    assert IsTcp(s.sockets, h) && t.sockets == s.sockets && t.listeners == s.listeners;
    forall k | k in t.pending && k !in todo - {h}
      ensures Blocked(t.sockets, t.listeners, k, t.pending[k])
    {
      assert k == h || Blocked(s.sockets, s.listeners, k, s.pending[k]);
    }
  }

  lemma CompleteAcceptSettles(s: Stack, h: Handle, f: Foreign, todo: set<Handle>)
    requires Owned(s) && Settled(s, todo) && h in s.pending && s.pending[h].AcceptOp? && ListedLive(s, h)
    ensures Settled(CompleteAccept(s, h, f), todo - {h})
  {
    var i := FirstReady(s.sockets, s.listeners[h].handles);
    if i.Some? {
      TakingBlocks(s.(pending := s.pending - {h}), h, i.value, f, todo);
    } else {
      assert Blocked(s.sockets, s.listeners, h, s.pending[h]);
    }
  }

  lemma CompleteSettles(s: Stack, h: Handle, f: Foreign, todo: set<Handle>)
    requires Owned(s) && Settled(s, todo) && PendingLooks(s, h)
    ensures Settled(CompleteOne(s, h, f), todo - {h})
  {
    if h in s.pending {
      if s.pending[h].ConnectOp? {
        CompleteConnectSettles(s, h, todo);
      } else {
        CompleteAcceptSettles(s, h, f, todo);
      }
    }
  }

  // ---------------------------------------------------------------- every step

  lemma TakeWakeful(w: World, f: Foreign)
    requires Kept(w) && Wakeful(w) && TakeStep(w, f).Next?
    ensures Wakeful(TakeStep(w, f).w)
  {
    if w.phase == Waiting && w.commands != [] {
      CommandSettles(w.s, w.commands[0], f);
    }
  }

  lemma WriteChannelsWakeful(w: World, takes: Decision)
    requires Kept(w) && Wakeful(w) && WriteChannelsStep(w, takes).Next?
    ensures Wakeful(WriteChannelsStep(w, takes).w)
  {
    if w.phase == Writing {
      WritesSettle(w.s, takes);
    }
  }

  lemma ReadChannelsWakeful(w: World)
    requires Kept(w) && Wakeful(w) && ReadChannelsStep(w).Next?
    ensures Wakeful(ReadChannelsStep(w).w)
  {
    if w.phase.Reading? && !w.phase.changed {
      ReadsWatch(w.s);
      UndisturbedStaysSettled(w.s, PollReads(w.s), {});
    }
  }

  lemma PollWakeful(w: World, sockets: map<Handle, Socket>, reported: bool)
    requires Kept(w) && Wakeful(w)
    ensures Wakeful(PollStep(w, sockets, reported))
  {
  }

  lemma CompleteWakeful(w: World, h: Handle, f: Foreign)
    requires Kept(w) && Wakeful(w) && CompleteStep(w, h, f).Next?
    ensures Wakeful(CompleteStep(w, h, f).w)
  {
    if w.phase.Completing? && h in w.phase.todo {
      CompleteSettles(w.s, h, f, w.phase.todo);
    }
  }

  lemma WorkingWakeful(w: World, e: Event)
    requires Kept(w) && Wakeful(w) && Working(e) && Step(w, e).Next?
    ensures Wakeful(Step(w, e).w)
  {
    match e
    case TakeCommand(f) => TakeWakeful(w, f);
    case PollWriteChannels(takes) => WriteChannelsWakeful(w, takes);
    case Poll(sockets, reported) => PollWakeful(w, sockets, reported);
    case PollReadChannels => ReadChannelsWakeful(w);
    case Complete(h, f) => CompleteWakeful(w, h, f);
  }

  lemma LeavingWakeful(w: World, e: Event)
    requires Wakeful(w) && Leaving(e)
    ensures Step(w, e).Next? && Wakeful(Step(w, e).w)
  {
  }

  lemma OtherWakeful(w: World, e: Event)
    requires Wakeful(w) && !Working(e) && !Leaving(e)
    ensures Step(w, e).Next? && Wakeful(Step(w, e).w)
  {
  }

  lemma StepWakeful(w: World, e: Event)
    requires Kept(w) && Wakeful(w)
    ensures Step(w, e).Next? && Wakeful(Step(w, e).w)
  {
    StepKeeps(w, e);
    if Working(e) {
      WorkingWakeful(w, e);
    } else if Leaving(e) {
      LeavingWakeful(w, e);
    } else {
      OtherWakeful(w, e);
    }
  }

  lemma {:induction false} RunWakeful(w: World, events: seq<Event>)
    requires Kept(w) && Wakeful(w)
    ensures Run(w, events).Next? && Kept(Run(w, events).w) && Wakeful(Run(w, events).w)
    decreases |events|
  {
    if events != [] {
      StepKeeps(w, events[0]);
      StepWakeful(w, events[0]);
      RunWakeful(Step(w, events[0]).w, events[1..]);
    }
  }

  /** In every run, whenever the task waits at the head of its loop, no listener with an accept
      pending has a connected peer, and no connect is pending on a socket whose fate is decided. */
  lemma NoLostWakeup(local: Local, events: seq<Event>)
    ensures Run(Init(local), events).Next?
    ensures var w := Run(Init(local), events).w;
            w.phase == Waiting ==>
              forall h :: h in w.s.pending ==>
                if w.s.pending[h].ConnectOp? then
                  && IsTcp(w.s.sockets, h)
                  && w.s.sockets[h].tcp.state !in {Established, Closed, TimeWait}
                else
                  && h in w.s.listeners
                  && forall x <- w.s.listeners[h].handles ::
                       && IsTcp(w.s.sockets, x)
                       && (w.s.sockets[x].tcp.state != Established || w.s.sockets[x].tcp.remote.None?)
  {
    InitKept(local);
    RunWakeful(Init(local), events);
    var w := Run(Init(local), events).w;
    if w.phase == Waiting {
      forall h | h in w.s.pending
        ensures if w.s.pending[h].ConnectOp? then IsTcp(w.s.sockets, h) && !Decided(w.s.sockets[h].tcp.state)
                else h in w.s.listeners
                     && forall x <- w.s.listeners[h].handles :: IsTcp(w.s.sockets, x) && !Ready(w.s.sockets, x)
      {
        assert Blocked(w.s.sockets, w.s.listeners, h, w.s.pending[h]);
        if w.s.pending[h].AcceptOp? {
          forall x | x in w.s.listeners[h].handles
            ensures IsTcp(w.s.sockets, x) && !Ready(w.s.sockets, x)
          {
            assert InList(w.s.listeners, h, x);
          }
        }
      }
    }
  }
}
