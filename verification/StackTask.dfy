/** The stack task itself: its tables, updated in place by the handlers and loops of the task.  Each
    method is proved to do to the tables what the corresponding function of `Stack` says. */
module StackTask {
  import opened Base
  import opened TcpPath
  import opened UdpPath
  import opened Stack
  import opened Ownership
  import opened Safety
  import opened Wakeup

  class Task {
    var sockets: map<Handle, Socket>
    var pending: map<Handle, PendingOp>
    var listeners: map<Handle, ListenerState>
    var tcpStates: map<Handle, TcpSocketState>
    var udpStates: map<Handle, UdpSocketState>
    var past: Past
    var local: Local
    var log: Log

    ghost function State(): Stack
      reads this
    {
      Stack(sockets, pending, listeners, tcpStates, udpStates, past, local, log)
    }

    constructor (local: Local)
      ensures State() == NewStack(local)
    {
      this.local := local;
      sockets, pending, listeners, tcpStates, udpStates := map[], map[], map[], map[], map[];
      past := Past(map[], map[]);
      log := Log(0, [], [], map[], map[]);
    }

    // -------------------------------------------------------------- commands

    /** Adds a socket and connects it; a socket that smoltcp refuses to connect is removed again,
        and its slot is free for the next one. */
    method HandleTcpConnect(localIp: Option<IpAddr>, addr: SocketAddr, f: Foreign) returns (h: Handle)
      modifies this
      ensures State() == StartConnect(old(State()), localIp, addr, f)
      ensures h == FreeSlot(old(sockets).Keys, f.Slot(0))
              && ConnectEffects(old(State()), State(), h, addr, 0 in f.refused)
    {
      var from := SocketAddr(if localIp.Some? then localIp.value else local.ip, local.nextPort);
      local := local.Allocated();
      h := FreeSlot(sockets.Keys, f.Slot(0));
      sockets := sockets[h := Tcp(NewSocket(Closed))];
      if 0 in f.refused {
        AddedAndRemoved(old(sockets), h, Tcp(NewSocket(Closed)));
        sockets := sockets - {h};
        log := log.AskedAndReplied(Failed(Other));
        ConnectHasEffects(old(State()), localIp, addr, f);
        return;
      }
      var connected := Tcp(sockets[h].tcp.(state := SynSent, local := Some(from), remote := Some(addr)));
      AddedAndConnected(old(sockets), h, sockets[h], connected);
      sockets := sockets[h := connected];
      tcpStates := tcpStates[h := NewTcpState()];
      pending := pending[h := ConnectOp(from, addr, log.requests)];
      log := log.Asked();
      ConnectHasEffects(old(State()), localIp, addr, f);
    }

    method PortInUse(port: nat) returns (taken: bool)
      ensures taken <==> PortTaken(listeners, port)
    {
      var todo := listeners.Keys;
      while todo != {}
        invariant todo <= listeners.Keys
        invariant forall l :: l in listeners && l !in todo ==> listeners[l].addr.port != port
        decreases todo
      {
        var l :| l in todo;
        if listeners[l].addr.port == port {
          return true;
        }
        todo := todo - {l};
      }
      taken := false;
    }

    /** Adds `n` listening sockets, or takes back those already added when one is refused. */
    method AddListeningSockets(addr: SocketAddr, n: nat, f: Foreign) returns (handles: seq<Handle>, ok: bool)
      modifies this`sockets
      ensures ok <==> forall i :: 0 <= i < n ==> i !in f.refused
      ensures ok ==>
                && handles == NewHandles(old(sockets).Keys, f, 0, n)
                && sockets == AddListening(old(sockets), handles, addr)
      ensures !ok ==> sockets == old(sockets)
    {
      handles, ok := [], true;
      var i := 0;
      while i < n
        invariant i <= n && ok && forall j :: 0 <= j < i ==> j !in f.refused
        invariant Opening(old(sockets), sockets, handles, f, i, addr)
      {
        if i in f.refused {
          OpeningUndone(old(sockets), sockets, handles, f, i, addr);
          RemoveAll(handles);
          return handles, false;
        }
        var h := FreeSlot(sockets.Keys, f.Slot(i));
        OpeningOne(old(sockets), sockets, handles, f, i, addr, h);
        sockets, handles := sockets[h := ListeningSocket(addr)], handles + [h];
        i := i + 1;
      }
    }

    method RemoveAll(handles: seq<Handle>)
      modifies this`sockets
      ensures sockets == old(sockets) - Elements(handles)
    {
      var i := 0;
      while i < |handles|
        invariant i <= |handles| && sockets == old(sockets) - Elements(handles[..i])
      {
        assert handles[..i + 1] == handles[..i] + [handles[i]];
        sockets := sockets - {handles[i]};
        i := i + 1;
      }
      assert handles[..i] == handles;
    }

    method HandleTcpListen(addr: SocketAddr, backlog: nat, f: Foreign)
      modifies this
      ensures State() == StartListening(old(State()), addr, backlog, f)
    {
      if addr.port == 0 {
        log := log.AskedAndReplied(Failed(InvalidInput));
        return;
      }
      var taken := PortInUse(addr.port);
      if taken {
        log := log.AskedAndReplied(Failed(AddrInUse));
        return;
      }
      var handles, ok := AddListeningSockets(addr, AtLeastOne(backlog), f);
      if !ok {
        log := log.AskedAndReplied(Failed(AddrInUse));
        return;
      }
      var primary := handles[0];
      listeners := listeners[primary := ListenerState(addr, handles)];
      log := log.(sizes := log.sizes[primary := |handles|], short := log.short[primary := 0])
             .AskedAndReplied(ListenerReady(primary, addr));
    }

    /** Finds the first socket of listener `l` that a peer has connected to, takes it off the list
        and replaces it. */
    method TryAcceptSocket(l: Handle, f: Foreign) returns (r: Option<Outcome>)
      requires l in listeners && AllTcp(sockets, listeners[l].handles)
      modifies this`sockets, this`listeners, this`log
      ensures var i := FirstReady(old(sockets), old(listeners)[l].handles);
              if i.None? then r.None? && State() == old(State())
              else r == Some(AcceptedStream(old(State()), l, i.value))
                   && State() == TakeFromListener(old(State()), l, i.value, f)
    {
      var state := listeners[l];
      var idx := 0;
      while idx < |state.handles| && !Ready(sockets, state.handles[idx])
        invariant idx <= |state.handles|
        invariant forall j :: 0 <= j < idx ==> !Ready(sockets, state.handles[j])
      {
        idx := idx + 1;
      }
      FirstReadyIs(sockets, state.handles, idx);
      if idx == |state.handles| {
        return None;
      }
      var h := state.handles[idx];
      var tcp := sockets[h].tcp;
      r := Some(StreamReady(h, if tcp.local.Some? then tcp.local.value else state.addr, tcp.remote.value));
      state := state.(handles := Without(state.handles, idx));
      if 0 in f.refused {
        log := log.(short := log.short[l := log.Short(l) + 1]);
      } else {
        var added := FreeSlot(sockets.Keys, f.Slot(0));
        sockets := sockets[added := ListeningSocket(state.addr)];
        state := state.(handles := state.handles + [added]);
      }
      listeners := listeners[l := state];
    }

    method HandleTcpAccept(l: Handle, f: Foreign)
      requires ListedLive(State(), l)
      modifies this
      ensures State() == AcceptStream(old(State()), l, f)
    {
      var req := log.requests;
      if l !in listeners {
        log := log.AskedAndReplied(Failed(InvalidInput));
        return;
      }
      log := log.Asked();
      var accepted := TryAcceptSocket(l, f);
      if accepted.Some? {
        tcpStates := tcpStates[accepted.value.h := NewTcpState()];
        log := log.Replied(req, accepted.value);
      } else {
        log := if l in pending then log.Dropped(pending[l].req) else log;
        pending := pending[l := AcceptOp(req)];
      }
    }

    method HandleTcpListenerClose(l: Handle)
      requires ListedLive(State(), l)
      modifies this
      ensures State() == CloseListener(old(State()), l)
    {
      log := if l in pending then log.Dropped(pending[l].req) else log;
      pending := pending - {l};
      if l in listeners {
        CloseAll(listeners[l].handles);
        listeners := listeners - {l};
      }
    }

    method CloseAll(handles: seq<Handle>)
      requires AllTcp(sockets, handles)
      modifies this`sockets
      ensures sockets == CloseListening(old(sockets), handles)
    {
      var i := 0;
      while i < |handles|
        invariant i <= |handles| && AllTcp(sockets, handles)
        invariant sockets == CloseListening(old(sockets), handles[..i])
      {
        var h := handles[i];
        assert handles[..i + 1] == handles[..i] + [h] && h in handles;
        assert IsTcp(sockets, h);
        if sockets[h].tcp.state == TcpState.Listen {
          sockets := sockets[h := Tcp(sockets[h].tcp.Close())];
        }
        i := i + 1;
      }
      assert handles[..i] == handles;
    }

    method HandleTcpClose(h: Handle)
      requires IsTcp(sockets, h)
      modifies this
      ensures State() == CloseStream(old(State()), h)
      ensures sockets.Keys == old(sockets).Keys
      ensures forall k :: k in sockets && k != h ==> sockets[k] == old(sockets)[k]
      ensures IsTcp(sockets, h)
              && sockets[h].tcp == old(sockets)[h].tcp.(state := AfterClose(old(sockets)[h].tcp.state))
      ensures h !in tcpStates && forall k :: k != h ==> (k in tcpStates <==> k in old(tcpStates))
      ensures forall k :: k in tcpStates ==> tcpStates[k] == old(tcpStates)[k]
      ensures h in old(tcpStates) ==>
                h in past.tcp && !past.tcp[h].write.receiver && !past.tcp[h].read.senders
                && past.tcp[h].read.queue == old(tcpStates)[h].read.queue
    {
      sockets := sockets[h := Tcp(sockets[h].tcp.Close())];
      if h in tcpStates {
        past := past.(tcp := past.tcp[h := TcpPath.Detach(tcpStates[h])]);
      }
      tcpStates := tcpStates - {h};
    }

    method HandleUdpBind(addr: SocketAddr, f: Foreign) returns (r: Outcome)
      modifies this
      ensures State() == BindUdp(old(State()), addr, f)
      ensures log.replies == old(log).replies + [Reply(old(log).requests, r)]
      ensures r.Failed? <==> 0 in f.refused
      ensures r.Failed? ==> r.kind == AddrInUse && sockets == old(sockets) && udpStates == old(udpStates)
      ensures !r.Failed? ==>
                && r.UdpReady? && r.addr.ip == addr.ip
                && r.addr.port == (if addr.port == 0 then old(local).nextPort else addr.port)
                && r.h !in old(sockets) && IsUdp(sockets, r.h) && sockets[r.h].udp.open
                && r.h in udpStates && udpStates[r.h] == NewUdpState()
      ensures forall k :: k in old(sockets) ==> k in sockets && sockets[k] == old(sockets)[k]
      ensures local == if addr.port == 0 then old(local).Allocated() else old(local)
    {
      var bound := addr;
      if addr.port == 0 {
        bound := addr.(port := local.nextPort);
        local := local.Allocated();
      }
      if 0 in f.refused {
        r := Failed(AddrInUse);
        log := log.AskedAndReplied(r);
        return;
      }
      var h := FreeSlot(sockets.Keys, f.Slot(0));
      sockets := sockets[h := Udp(NewUdpSocket())];
      udpStates := udpStates[h := NewUdpState()];
      r := UdpReady(h, bound);
      log := log.AskedAndReplied(r);
    }

    method HandleUdpClose(h: Handle)
      requires IsUdp(sockets, h)
      modifies this
      ensures State() == CloseUdp(old(State()), h)
      ensures sockets.Keys == old(sockets).Keys
      ensures forall k :: k in sockets && k != h ==> sockets[k] == old(sockets)[k]
      ensures IsUdp(sockets, h) && !sockets[h].udp.open && sockets[h].udp.rx == []
      ensures h !in udpStates && forall k :: k != h ==> (k in udpStates <==> k in old(udpStates))
      ensures forall k :: k in udpStates ==> udpStates[k] == old(udpStates)[k]
      ensures h in old(udpStates) ==>
                h in past.udp && !past.udp[h].write.receiver && past.udp[h].read.queue == old(udpStates)[h].read.queue
    {
      sockets := sockets[h := Udp(sockets[h].udp.Close())];
      if h in udpStates {
        past := past.(udp := past.udp[h := UdpPath.Detach(udpStates[h])]);
      }
      udpStates := udpStates - {h};
    }

    // -------------------------------------------------------------- channels

    method WriteTcp(h: Handle, takes: Decision, ghost s: Stack, ghost todo: set<Handle>)
      requires StatesLive(s.sockets, s.tcpStates, s.udpStates) && h in todo && h in s.tcpStates
      requires State() == WritesBut(s, takes, todo + s.udpStates.Keys)
      modifies this`sockets, this`tcpStates
      ensures State() == WritesBut(s, takes, todo - {h} + s.udpStates.Keys)
    {
      TcpWriteNext(s, takes, todo, h);
      var r := ProcessTcpWrite(sockets[h].tcp, tcpStates[h]);
      sockets, tcpStates := sockets[h := Tcp(r.socket)], tcpStates[h := r.st];
    }

    method WriteUdp(h: Handle, takes: Decision)
      requires IsUdp(sockets, h) && h in udpStates
      modifies this`sockets, this`udpStates
      ensures var r := UdpWriteStep(old(sockets)[h].udp, old(udpStates)[h], takes);
              State() == old(State()).(sockets := old(sockets)[h := Udp(r.socket)],
                                       udpStates := old(udpStates)[h := r.st])
    {
      var r := ProcessUdpWrite(sockets[h].udp, udpStates[h], takes);
      sockets, udpStates := sockets[h := Udp(r.socket)], udpStates[h := r.st];
    }

    method WriteTcpChannels(takes: Decision)
      requires StatesLive(sockets, tcpStates, udpStates)
      modifies this`sockets, this`tcpStates
      ensures State() == WritesBut(old(State()), takes, old(udpStates).Keys)
    {
      ghost var s := State();
      var todo := tcpStates.Keys;
      WritesBegin(s, takes);
      while todo != {}
        invariant todo <= s.tcpStates.Keys && State() == WritesBut(s, takes, todo + s.udpStates.Keys)
        decreases todo
      {
        var h :| h in todo;
        WriteTcp(h, takes, s, todo);
        todo := todo - {h};
      }
      assert todo + s.udpStates.Keys == s.udpStates.Keys;
    }

    method WriteUdpChannels(takes: Decision, ghost s: Stack)
      requires StatesLive(s.sockets, s.tcpStates, s.udpStates) && State() == WritesBut(s, takes, s.udpStates.Keys)
      requires udpStates == s.udpStates
      modifies this`sockets, this`udpStates
      ensures State() == PollWrites(s, takes)
    {
      var todo := udpStates.Keys;
      while todo != {}
        invariant todo <= s.udpStates.Keys && State() == WritesBut(s, takes, todo)
        decreases todo
      {
        var h :| h in todo;
        UdpWriteServed(s, takes, todo, h);
        WriteUdp(h, takes);
        todo := todo - {h};
      }
      WritesEnd(s, takes);
    }

    /** Serves the write channel of every socket, in whatever order the tables are walked. */
    method PollWriteChannels(takes: Decision)
      requires StatesLive(sockets, tcpStates, udpStates)
      modifies this`sockets, this`tcpStates, this`udpStates
      ensures State() == PollWrites(old(State()), takes)
    {
      WriteTcpChannels(takes);
      WriteUdpChannels(takes, old(State()));
    }

    method ReadTcp(h: Handle, ghost s: Stack, ghost todo: set<Handle>)
      requires StatesLive(s.sockets, s.tcpStates, s.udpStates) && h in todo && h in s.tcpStates
      requires State() == ReadsBut(s, todo + s.udpStates.Keys)
      modifies this`sockets, this`tcpStates
      ensures State() == ReadsBut(s, todo - {h} + s.udpStates.Keys)
    {
      TcpReadNext(s, todo, h);
      var r := ProcessTcpRead(sockets[h].tcp, tcpStates[h]);
      sockets, tcpStates := sockets[h := Tcp(r.socket)], tcpStates[h := r.st];
    }

    method ReadUdp(h: Handle)
      requires IsUdp(sockets, h) && h in udpStates
      modifies this`sockets, this`udpStates
      ensures var r := UdpReadStep(old(sockets)[h].udp, old(udpStates)[h]);
              State() == old(State()).(sockets := old(sockets)[h := Udp(r.socket)],
                                       udpStates := old(udpStates)[h := r.st])
    {
      var r := ProcessUdpRead(sockets[h].udp, udpStates[h]);
      sockets, udpStates := sockets[h := Udp(r.socket)], udpStates[h := r.st];
    }

    method ReadTcpChannels()
      requires StatesLive(sockets, tcpStates, udpStates)
      modifies this`sockets, this`tcpStates
      ensures State() == ReadsBut(old(State()), old(udpStates).Keys)
    {
      ghost var s := State();
      var todo := tcpStates.Keys;
      ReadsBegin(s);
      while todo != {}
        invariant todo <= s.tcpStates.Keys && State() == ReadsBut(s, todo + s.udpStates.Keys)
        decreases todo
      {
        var h :| h in todo;
        ReadTcp(h, s, todo);
        todo := todo - {h};
      }
      assert todo + s.udpStates.Keys == s.udpStates.Keys;
    }

    method ReadUdpChannels(ghost s: Stack)
      requires StatesLive(s.sockets, s.tcpStates, s.udpStates) && State() == ReadsBut(s, s.udpStates.Keys)
      requires udpStates == s.udpStates
      modifies this`sockets, this`udpStates
      ensures State() == PollReads(s)
    {
      var todo := udpStates.Keys;
      while todo != {}
        invariant todo <= s.udpStates.Keys && State() == ReadsBut(s, todo)
        decreases todo
      {
        var h :| h in todo;
        UdpReadServed(s, todo, h);
        ReadUdp(h);
        todo := todo - {h};
      }
      ReadsEnd(s);
    }

    /** Serves the read channel of every socket, in whatever order the tables are walked. */
    method PollReadChannels()
      requires StatesLive(sockets, tcpStates, udpStates)
      modifies this`sockets, this`tcpStates, this`udpStates
      ensures State() == PollReads(old(State()))
    {
      ReadTcpChannels();
      ReadUdpChannels(old(State()));
    }

    // -------------------------------------------------------------- pending operations

    method CompletePendingConnect(h: Handle)
      requires h in pending && pending[h].ConnectOp? && IsTcp(sockets, h)
      modifies this`pending, this`tcpStates, this`past, this`log
      ensures State() == CompleteConnect(old(State()), h)
      ensures TellsConnect(old(State()), State(), h, old(sockets)[h].tcp.state)
    {
      var op := pending[h];
      var state := sockets[h].tcp.state;
      if state == Established {
        pending, log := pending - {h}, log.Replied(op.req, StreamReady(h, op.local, op.peer));
      } else if state == Closed || state == TimeWait {
        if h in tcpStates {
          past := past.(tcp := past.tcp[h := TcpPath.Detach(tcpStates[h])]);
        }
        tcpStates := tcpStates - {h};
        pending, log := pending - {h}, log.Replied(op.req, Failed(ConnectionRefused));
      }
    }

    method CompletePendingAccept(h: Handle, f: Foreign)
      requires h in pending && pending[h].AcceptOp? && ListedLive(State(), h)
      modifies this
      ensures State() == CompleteAccept(old(State()), h, f)
    {
      var req := pending[h].req;
      if h in listeners {
        var accepted := TryAcceptSocket(h, f);
        if accepted.Some? {
          pending := pending - {h};
          tcpStates := tcpStates[accepted.value.h := NewTcpState()];
          log := log.Replied(req, accepted.value);
        }
      } else {
        pending, log := pending - {h}, log.Replied(req, Failed(InvalidInput));
      }
    }

    method CompletePending(h: Handle, f: Foreign)
      requires PendingLooks(State(), h)
      modifies this
      ensures State() == CompleteOne(old(State()), h, f)
      ensures h in old(pending) && old(pending)[h].ConnectOp? ==>
                TellsConnect(old(State()), State(), h, old(sockets)[h].tcp.state)
    {
      if h in pending {
        if pending[h].ConnectOp? {
          CompletePendingConnect(h);
        } else {
          CompletePendingAccept(h, f);
        }
      }
    }

    /** Tries every pending operation once, in any order: afterwards none that is still pending
        could be completed. */
    method ProcessPending(fs: seq<Foreign>)
      requires Owned(State())
      modifies this
      ensures Owned(State()) && Settled(State(), {})
      ensures pending.Keys <= old(pending).Keys
      ensures old(log.replies) <= log.replies
    {
      var todo := pending.Keys;
      var i := 0;
      while todo != {}
        invariant Owned(State()) && Settled(State(), todo)
        invariant pending.Keys <= old(pending).Keys && old(log.replies) <= log.replies
        decreases todo
      {
        var h :| h in todo;
        var f := if i < |fs| then fs[i] else Foreign([], {});
        ghost var s := State();
        PendingAlwaysLooks(s, h);
        CompletePending(h, f);
        CompleteKeepsOwned(s, h, f);
        CompleteSettles(s, h, f, todo);
        CompleteReplies(s, h, f);
        CompleteNarrows(s, h, f);
        i, todo := i + 1, todo - {h};
      }
    }

    /** The proxy connection is lost: every pending operation is answered with an error. */
    method FailPending()
      modifies this
      ensures pending == map[]
      ensures sockets == old(sockets) && listeners == old(listeners) && udpStates == old(udpStates)
      ensures old(log.replies) <= log.replies && |log.replies| == |old(log.replies)| + |old(pending)|
      ensures forall h <- old(pending) :: Reply(old(pending)[h].req, Failed(ConnectionAborted)) in log.replies
    {
      while pending != map[]
        invariant pending.Keys <= old(pending).Keys && forall h <- pending :: pending[h] == old(pending)[h]
        invariant sockets == old(sockets) && listeners == old(listeners) && udpStates == old(udpStates)
        invariant old(log.replies) <= log.replies && |log.replies| + |pending| == |old(log.replies)| + |old(pending)|
        invariant forall h <- old(pending) ::
                    h in pending || Reply(old(pending)[h].req, Failed(ConnectionAborted)) in log.replies
        decreases pending.Keys
      {
        var h :| h in pending;
        var op := pending[h];
        if op.ConnectOp? && h in tcpStates {
          past := past.(tcp := past.tcp[h := TcpPath.Detach(tcpStates[h])]);
          tcpStates := tcpStates - {h};
        }
        ghost var before := pending;
        assert before == (before - {h})[h := op];
        pending, log := pending - {h}, log.Replied(op.req, Failed(ConnectionAborted));
        assert log.replies[|log.replies| - 1] == Reply(op.req, Failed(ConnectionAborted));
      }
    }
  }

  /** No other socket changes.  A connect that is refused leaves no trace but a used port; otherwise
      there is a new socket on its way to the peer, with channels nobody has used yet, and an operation
      that waits for it. */
  ghost predicate ConnectEffects(s: Stack, t: Stack, h: Handle, addr: SocketAddr, refused: bool) {
    && h !in s.sockets && t.local.nextPort == (s.local.nextPort + 1) % 65536
    && (forall k :: k in s.sockets ==> k in t.sockets && t.sockets[k] == s.sockets[k])
    && t.listeners == s.listeners && t.udpStates == s.udpStates && t.past == s.past
    && if refused then
         t.sockets == s.sockets && t.tcpStates == s.tcpStates && t.pending == s.pending
       else
         && t.sockets.Keys == s.sockets.Keys + {h}
         && IsTcp(t.sockets, h) && t.sockets[h].tcp.state == SynSent && t.sockets[h].tcp.remote == Some(addr)
         && h in t.tcpStates && Quiet(t.tcpStates[h])
         && h in t.pending && t.pending[h].ConnectOp? && t.pending[h].peer == addr
         && Some(t.pending[h].local) == t.sockets[h].tcp.local
  }

  lemma AddedAndRemoved(sockets: map<Handle, Socket>, h: Handle, x: Socket)
    requires h !in sockets
    ensures sockets[h := x] - {h} == sockets
  {
  }

  lemma AddedAndConnected(sockets: map<Handle, Socket>, h: Handle, x: Socket, y: Socket)
    ensures sockets[h := x][h := y] == sockets[h := y]
  {
  }

  lemma ConnectHasEffects(s: Stack, localIp: Option<IpAddr>, addr: SocketAddr, f: Foreign)
    ensures ConnectEffects(s, StartConnect(s, localIp, addr, f), FreeSlot(s.sockets.Keys, f.Slot(0)), addr,
                           0 in f.refused)
  {
  }

  /** The tables while the write channels of the sockets in `todo` are still to be served. */
  function WritesBut(s: Stack, takes: Decision, todo: set<Handle>): Stack
    requires StatesLive(s.sockets, s.tcpStates, s.udpStates)
  {
    var t := PollWrites(s, takes);
    s.(sockets := map h | h in s.sockets :: if h in todo then s.sockets[h] else t.sockets[h],
       tcpStates := map h | h in s.tcpStates :: if h in todo then s.tcpStates[h] else t.tcpStates[h],
       udpStates := map h | h in s.udpStates :: if h in todo then s.udpStates[h] else t.udpStates[h])
  }

  lemma TcpWriteServed(s: Stack, takes: Decision, todo: set<Handle>, h: Handle)
    requires StatesLive(s.sockets, s.tcpStates, s.udpStates) && h in todo && h in s.tcpStates
    ensures var t := WritesBut(s, takes, todo);
            && IsTcp(t.sockets, h) && h in t.tcpStates
            && var r := WriteStep(t.sockets[h].tcp, t.tcpStates[h]);
               WritesBut(s, takes, todo - {h})
                 == t.(sockets := t.sockets[h := Tcp(r.socket)], tcpStates := t.tcpStates[h := r.st])
  {
    assert IsTcp(s.sockets, h);
  }

  lemma TcpWriteNext(s: Stack, takes: Decision, todo: set<Handle>, h: Handle)
    requires StatesLive(s.sockets, s.tcpStates, s.udpStates) && h in todo && h in s.tcpStates
    ensures var t := WritesBut(s, takes, todo + s.udpStates.Keys);
            && IsTcp(t.sockets, h) && h in t.tcpStates
            && var r := WriteStep(t.sockets[h].tcp, t.tcpStates[h]);
               WritesBut(s, takes, todo - {h} + s.udpStates.Keys)
                 == t.(sockets := t.sockets[h := Tcp(r.socket)], tcpStates := t.tcpStates[h := r.st])
  {
    TcpWriteServed(s, takes, todo + s.udpStates.Keys, h);
    KindsApart(s, todo, h);
  }

  lemma UdpWriteServed(s: Stack, takes: Decision, todo: set<Handle>, h: Handle)
    requires StatesLive(s.sockets, s.tcpStates, s.udpStates) && h in todo && h in s.udpStates
    ensures var t := WritesBut(s, takes, todo);
            && IsUdp(t.sockets, h) && h in t.udpStates
            && var r := UdpWriteStep(t.sockets[h].udp, t.udpStates[h], takes);
               WritesBut(s, takes, todo - {h})
                 == t.(sockets := t.sockets[h := Udp(r.socket)], udpStates := t.udpStates[h := r.st])
  {
    assert IsUdp(s.sockets, h);
  }

  /** The tables while the read channels of the sockets in `todo` are still to be served. */
  function ReadsBut(s: Stack, todo: set<Handle>): Stack
    requires StatesLive(s.sockets, s.tcpStates, s.udpStates)
  {
    var t := PollReads(s);
    s.(sockets := map h | h in s.sockets :: if h in todo then s.sockets[h] else t.sockets[h],
       tcpStates := map h | h in s.tcpStates :: if h in todo then s.tcpStates[h] else t.tcpStates[h],
       udpStates := map h | h in s.udpStates :: if h in todo then s.udpStates[h] else t.udpStates[h])
  }

  lemma TcpReadServed(s: Stack, todo: set<Handle>, h: Handle)
    requires StatesLive(s.sockets, s.tcpStates, s.udpStates) && h in todo && h in s.tcpStates
    ensures var t := ReadsBut(s, todo);
            && IsTcp(t.sockets, h) && h in t.tcpStates
            && var r := ReadStep(t.sockets[h].tcp, t.tcpStates[h]);
               ReadsBut(s, todo - {h})
                 == t.(sockets := t.sockets[h := Tcp(r.socket)], tcpStates := t.tcpStates[h := r.st])
  {
    assert IsTcp(s.sockets, h);
  }

  lemma TcpReadNext(s: Stack, todo: set<Handle>, h: Handle)
    requires StatesLive(s.sockets, s.tcpStates, s.udpStates) && h in todo && h in s.tcpStates
    ensures var t := ReadsBut(s, todo + s.udpStates.Keys);
            && IsTcp(t.sockets, h) && h in t.tcpStates
            && var r := ReadStep(t.sockets[h].tcp, t.tcpStates[h]);
               ReadsBut(s, todo - {h} + s.udpStates.Keys)
                 == t.(sockets := t.sockets[h := Tcp(r.socket)], tcpStates := t.tcpStates[h := r.st])
  {
    TcpReadServed(s, todo + s.udpStates.Keys, h);
    KindsApart(s, todo, h);
  }

  lemma UdpReadServed(s: Stack, todo: set<Handle>, h: Handle)
    requires StatesLive(s.sockets, s.tcpStates, s.udpStates) && h in todo && h in s.udpStates
    ensures var t := ReadsBut(s, todo);
            && IsUdp(t.sockets, h) && h in t.udpStates
            && var r := UdpReadStep(t.sockets[h].udp, t.udpStates[h]);
               ReadsBut(s, todo - {h})
                 == t.(sockets := t.sockets[h := Udp(r.socket)], udpStates := t.udpStates[h := r.st])
  {
    assert IsUdp(s.sockets, h);
  }

  lemma WritesBegin(s: Stack, takes: Decision)
    requires StatesLive(s.sockets, s.tcpStates, s.udpStates)
    ensures WritesBut(s, takes, s.tcpStates.Keys + s.udpStates.Keys) == s
  {
  }

  lemma WritesEnd(s: Stack, takes: Decision)
    requires StatesLive(s.sockets, s.tcpStates, s.udpStates)
    ensures WritesBut(s, takes, {}) == PollWrites(s, takes)
  {
  }

  lemma ReadsBegin(s: Stack)
    requires StatesLive(s.sockets, s.tcpStates, s.udpStates)
    ensures ReadsBut(s, s.tcpStates.Keys + s.udpStates.Keys) == s
  {
  }

  lemma ReadsEnd(s: Stack)
    requires StatesLive(s.sockets, s.tcpStates, s.udpStates)
    ensures ReadsBut(s, {}) == PollReads(s)
  {
  }

  lemma KindsApart(s: Stack, todo: set<Handle>, h: Handle)
    requires StatesLive(s.sockets, s.tcpStates, s.udpStates) && h in s.tcpStates
    ensures todo + s.udpStates.Keys - {h} == todo - {h} + s.udpStates.Keys
  {
  }

  lemma CompleteNarrows(s: Stack, h: Handle, f: Foreign)
    requires PendingLooks(s, h)
    ensures CompleteOne(s, h, f).pending.Keys <= s.pending.Keys
  {
  }

  function Elements(handles: seq<Handle>): set<Handle> {
    set h | h in handles
  }

  /** The first `i` sockets of a new listener are in place. */
  predicate Opening(before: map<Handle, Socket>, sockets: map<Handle, Socket>, handles: seq<Handle>,
                    f: Foreign, i: nat, addr: SocketAddr)
  {
    handles == NewHandles(before.Keys, f, 0, i) && sockets == AddListening(before, handles, addr)
  }

  lemma OpeningUndone(before: map<Handle, Socket>, sockets: map<Handle, Socket>, handles: seq<Handle>,
                      f: Foreign, i: nat, addr: SocketAddr)
    requires Opening(before, sockets, handles, f, i, addr)
    ensures sockets - Elements(handles) == before
  {
  }

  lemma OpeningOne(before: map<Handle, Socket>, sockets: map<Handle, Socket>, handles: seq<Handle>,
                   f: Foreign, i: nat, addr: SocketAddr, h: Handle)
    requires Opening(before, sockets, handles, f, i, addr) && h == FreeSlot(sockets.Keys, f.Slot(i))
    ensures Opening(before, sockets[h := ListeningSocket(addr)], handles + [h], f, i + 1, addr)
  {
    AddedKeys(before, handles, addr);
    OneMoreHandle(before.Keys, f, 0, i);
    assert handles + [h] == NewHandles(before.Keys, f, 0, i + 1);
    AddedOne(before, handles, h, addr);
  }

  lemma AddedKeys(sockets: map<Handle, Socket>, handles: seq<Handle>, addr: SocketAddr)
    ensures AddListening(sockets, handles, addr).Keys == sockets.Keys + Elements(handles)
  {
  }

  lemma AddedOne(sockets: map<Handle, Socket>, handles: seq<Handle>, h: Handle, addr: SocketAddr)
    ensures AddListening(sockets, handles + [h], addr)
            == AddListening(sockets, handles, addr)[h := ListeningSocket(addr)]
  {
  }

  /** Adding one socket more goes on where the others stopped. */
  lemma {:induction false} OneMoreHandle(live: set<Handle>, f: Foreign, i: nat, n: nat)
    ensures var before := NewHandles(live, f, i, n);
            NewHandles(live, f, i, n + 1) == before + [FreeSlot(live + Elements(before), f.Slot(i + n))]
    decreases n
  {
    if n == 0 {
      assert live + Elements([]) == live;
      assert NewHandles(live, f, i, 1)
        == [FreeSlot(live, f.Slot(i))] + NewHandles(live + {FreeSlot(live, f.Slot(i))}, f, i + 1, 0);
    } else {
      var h := FreeSlot(live, f.Slot(i));
      OneMoreHandle(live + {h}, f, i + 1, n - 1);
      var later := NewHandles(live + {h}, f, i + 1, n - 1);
      assert live + {h} + Elements(later) == live + Elements([h] + later);
    }
  }

  lemma {:induction false} FirstReadyIs(sockets: map<Handle, Socket>, handles: seq<Handle>, idx: nat)
    requires AllTcp(sockets, handles) && idx <= |handles|
    requires forall j :: 0 <= j < idx ==> !Ready(sockets, handles[j])
    requires idx < |handles| ==> Ready(sockets, handles[idx])
    ensures FirstReady(sockets, handles) == if idx < |handles| then Some(idx) else None
    decreases idx
  {
  }
}
