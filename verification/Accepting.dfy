/** Exactly when a listener can still accept. */
module Accepting {
  import opened Base
  import opened TcpPath
  import opened UdpPath
  import opened Stack
  import opened Ownership
  import opened Machine
  import opened Safety
  import opened Backlog

  predicate LeadsTo(w: World, events: seq<Event>, w1: World) {
    Run(w, events) == Next(w1)
  }

  /** Some run leads from w to w1. */
  ghost predicate Reaches(w: World, w1: World) {
    exists events :: LeadsTo(w, events, w1)
  }

  /** The i-th reply of t, given since s, hands out a socket that was on l's list in s. */
  predicate HandsOutAt(s: Stack, t: Stack, l: Handle, i: int) {
    && |s.log.replies| <= i < |t.log.replies|
    && t.log.replies[i].outcome.StreamReady? && InList(s.listeners, l, t.log.replies[i].outcome.h)
  }

  ghost predicate HandsOut(s: Stack, t: Stack, l: Handle) {
    exists i :: HandsOutAt(s, t, l, i)
  }

  /** In some run one of the sockets on the list of l is handed out as a stream.  The next accept to
      succeed hands out one of these, for others come on the list only in their place. */
  ghost predicate CanAccept(w: World, l: Handle) {
    exists w1 :: Reaches(w, w1) && HandsOut(w.s, w1.s, l)
  }

  /** Some socket of the list belongs to a connection that has not ended. */
  ghost predicate SomeOpen(s: Stack, l: Handle) {
    exists h :: InList(s.listeners, l, h) && IsOpen(s.sockets, h)
  }

  // ---------------------------------------------------------------- a socket that has ended is never handed out

  ghost predicate Barred(s: Stack, h: Handle) {
    && h in s.sockets && h !in s.tcpStates && h !in IssuedBy(s.log.replies).streams
    && (forall l :: InList(s.listeners, l, h) ==> IsTcp(s.sockets, h) && Ended(s.sockets[h].tcp.state))
  }

  lemma ListedBefore(s: Stack, t: Stack, l: Handle, h: Handle)
    requires Moves(s, t) && h in s.sockets && InList(t.listeners, l, h)
    ensures InList(s.listeners, l, h)
  {
    if l in s.sockets {
      var hs, hs1 := s.listeners[l].handles, t.listeners[l].handles;
      if hs1 != hs {
        var i :| TookAt(s, hs, hs1, i);
        var j :| 0 <= j < |hs1| && hs1[j] == h;
        assert j < |hs| - 1 ==> Without(hs, i)[j] == h;
      }
    }
  }

  lemma BarredStays(s: Stack, t: Stack, h: Handle)
    requires Owned(s) && Moves(s, t) && Barred(s, h)
    ensures Barred(t, h)
  {
    assert !Offered(s, h) && !Connecting(s, h);
    forall l | InList(t.listeners, l, h)
      ensures IsTcp(t.sockets, h) && Ended(t.sockets[h].tcp.state)
    {
      ListedBefore(s, t, l, h);
    }
  }

  lemma {:induction false} RunBarred(w: World, events: seq<Event>, h: Handle)
    requires Kept(w) && Barred(w.s, h)
    ensures Run(w, events).Next? && Barred(Run(w, events).w.s, h)
    decreases |events|
  {
    if events != [] {
      StepMoves(w, events[0]);
      BarredStays(w.s, Step(w, events[0]).w.s, h);
      RunBarred(Step(w, events[0]).w, events[1..], h);
    }
  }

  lemma EndedIsBarred(s: Stack, l: Handle, h: Handle)
    requires Owned(s) && InList(s.listeners, l, h) && !IsOpen(s.sockets, h)
    ensures Barred(s, h)
  {
    assert IsTcp(s.sockets, h);
  }

  lemma BarredIsNotHandedOut(s: Stack, t: Stack, l: Handle, i: nat)
    requires HandsOutAt(s, t, l, i)
    ensures t.log.replies[i].outcome.h in IssuedBy(t.log.replies).streams
  {
    IssuedHas(t.log.replies, i);
  }

  lemma SpentCannotAccept(w: World, l: Handle)
    requires Kept(w) && !SomeOpen(w.s, l)
    ensures !CanAccept(w, l)
  {
    forall w1, i | Reaches(w, w1) && HandsOutAt(w.s, w1.s, l, i)
      ensures false
    {
      var events :| LeadsTo(w, events, w1);
      var h := w1.s.log.replies[i].outcome.h;
      BarredIsNotHandedOut(w.s, w1.s, l, i);
      EndedIsBarred(w.s, l, h);
      RunBarred(w, events, h);
    }
  }

  // ---------------------------------------------------------------- a run that hands one out

  lemma {:induction false} RunFurther(w: World, events: seq<Event>, w1: World, e: Event, w2: World)
    requires LeadsTo(w, events, w1) && Step(w1, e) == Next(w2)
    ensures LeadsTo(w, events + [e], w2)
    decreases |events|
  {
    if events == [] {
      assert Run(w, [e]) == Run(w2, []);
    } else {
      RunFurther(Step(w, events[0]).w, events[1..], w1, e, w2);
      assert (events + [e])[1..] == events[1..] + [e];
    }
  }

  /** The list of l is in t as in s, and no reply is taken back. */
  predicate SameHandles(s: Stack, t: Stack, l: Handle) {
    && l in s.listeners && l in t.listeners && t.listeners[l].handles == s.listeners[l].handles
    && s.log.replies <= t.log.replies
  }

  /** And so is its socket h. */
  predicate SameList(s: Stack, t: Stack, l: Handle, h: Handle) {
    SameHandles(s, t, l) && h in s.sockets && h in t.sockets && t.sockets[h] == s.sockets[h]
  }

  lemma StillHandsOut(s: Stack, t: Stack, u: Stack, l: Handle)
    requires SameHandles(s, t, l) && HandsOut(t, u, l)
    ensures HandsOut(s, u, l)
  {
    var i :| HandsOutAt(t, u, l, i);
    assert HandsOutAt(s, u, l, i);
  }

  /** The command does not touch the list of l, unless it is an accept that is answered at once. */
  lemma CommandLeavesList(s: Stack, c: Command, f: Foreign, l: Handle, h: Handle)
    requires Owned(s) && Looks(s, c) && FromHolder(IssuedBy(s.log.replies), c) && c != TcpListenerClose(l)
    requires InList(s.listeners, l, h) && IsTcp(s.sockets, h)
    requires c == TcpAccept(l) ==> FirstReady(s.sockets, s.listeners[l].handles).None?
    ensures SameList(s, Dispatch(s, c, f), l, h)
  {
    DispatchReplies(s, c, f);
    match c
    case TcpConnect(localIp, addr) => assert SameList(s, StartConnect(s, localIp, addr, f), l, h);
    case TcpListen(addr, backlog) => ListenLeavesList(s, addr, backlog, f, l, h);
    case TcpAccept(m) => AcceptLeavesList(s, m, f, l, h);
    case TcpListenerClose(m) =>
      assert !InList(s.listeners, m, h);
      assert SameList(s, CloseListener(s, m), l, h);
    case TcpClose(k) => assert SameList(s, CloseStream(s, k), l, h);
    case UdpBind(addr) => assert SameList(s, BindUdp(s, addr, f), l, h);
    case UdpClose(k) => assert SameList(s, CloseUdp(s, k), l, h);
  }

  lemma AddListenerLeavesList(s: Stack, addr: SocketAddr, handles: seq<Handle>, l: Handle, h: Handle)
    requires l in s.sockets && InList(s.listeners, l, h) && h in s.sockets
    requires |handles| > 0 && (forall k <- handles :: k !in s.sockets)
    ensures SameList(s, AddListener(s, addr, handles), l, h)
  {
    assert handles[0] in handles;
  }

  lemma ListenLeavesList(s: Stack, addr: SocketAddr, backlog: nat, f: Foreign, l: Handle, h: Handle)
    requires Owned(s) && InList(s.listeners, l, h) && IsTcp(s.sockets, h)
    ensures SameList(s, StartListening(s, addr, backlog, f), l, h)
  {
    var n := AtLeastOne(backlog);
    ListenerIsLive(s, l);
    if addr.port == 0 || PortTaken(s.listeners, addr.port) || (exists i :: 0 <= i < n && i in f.refused) {
      assert SameList(s, StartListening(s, addr, backlog, f), l, h);
    } else {
      AddListenerLeavesList(s, addr, NewHandles(s.sockets.Keys, f, 0, n), l, h);
    }
  }

  lemma AcceptLeavesList(s: Stack, m: Handle, f: Foreign, l: Handle, h: Handle)
    requires Owned(s) && ListedLive(s, m) && InList(s.listeners, l, h) && IsTcp(s.sockets, h)
    requires m == l ==> FirstReady(s.sockets, s.listeners[l].handles).None?
    ensures SameList(s, AcceptStream(s, m, f), l, h)
  {
  }

  lemma WriteLeavesList(s: Stack, takes: Decision, l: Handle, h: Handle)
    requires Owned(s) && InList(s.listeners, l, h) && IsTcp(s.sockets, h)
    ensures SameList(s, PollWrites(s, takes), l, h)
  {
  }

  lemma ReadLeavesList(s: Stack, l: Handle, h: Handle)
    requires Owned(s) && InList(s.listeners, l, h) && IsTcp(s.sockets, h)
    ensures SameList(s, PollReads(s), l, h)
  {
  }

  lemma SameAgain(s: Stack, t: Stack, u: Stack, l: Handle, h: Handle)
    requires SameList(s, t, l, h) && SameList(t, u, l, h)
    ensures SameList(s, u, l, h)
  {
  }

  /** An accept of l finds a peer and hands a socket out. */
  lemma TakesOff(s: Stack, l: Handle, i: nat, req: nat, f: Foreign, s1: Stack)
    requires l in s.listeners && i < |s.listeners[l].handles| && Ready(s.sockets, s.listeners[l].handles[i])
    requires s1.log.replies == s.log.replies && s1.listeners == s.listeners && s1.sockets == s.sockets
    ensures HandsOut(s, AcceptAt(s1, l, i, req, f), l)
  {
    assert HandsOutAt(s, AcceptAt(s1, l, i, req, f), l, |s.log.replies|);
  }

  lemma AcceptNow(w: World, l: Handle, f: Foreign)
    requires Kept(w) && w.phase == Waiting && w.commands != [] && w.commands[0] == TcpAccept(l)
    requires ListedLive(w.s, l) && l in w.s.listeners
    requires FirstReady(w.s.sockets, w.s.listeners[l].handles).Some?
    ensures TakeStep(w, f).Next? && HandsOut(w.s, TakeStep(w, f).w.s, l)
  {
    var i := FirstReady(w.s.sockets, w.s.listeners[l].handles).value;
    TakesOff(w.s, l, i, w.s.log.requests, f, w.s.(log := w.s.log.Asked()));
  }

  lemma CompleteNow(s: Stack, l: Handle, h: Handle, f: Foreign)
    requires l in s.pending && s.pending[l].AcceptOp? && ListedLive(s, l)
    requires InList(s.listeners, l, h) && Ready(s.sockets, h)
    ensures HandsOut(s, CompleteOne(s, l, f), l)
  {
    var i := FirstReady(s.sockets, s.listeners[l].handles);
    TakesOff(s, l, i.value, s.pending[l].req, f, s.(pending := s.pending - {l}));
  }

  lemma TakeLeavesList(w: World, f: Foreign, l: Handle, h: Handle)
    requires Kept(w) && w.phase == Waiting && w.commands != [] && w.commands[0] != TcpListenerClose(l)
    requires InList(w.s.listeners, l, h) && IsTcp(w.s.sockets, h) && ListedLive(w.s, l)
    requires w.commands[0] == TcpAccept(l) ==> FirstReady(w.s.sockets, w.s.listeners[l].handles).None?
    ensures var r := TakeStep(w, f);
            && r.Next? && Kept(r.w) && r.w.phase == Writing && r.w.commands == w.commands[1..]
            && SameList(w.s, r.w.s, l, h)
  {
    TakeKeeps(w, f);
    CommandLeavesList(w.s, w.commands[0], f, l, h);
  }

  lemma WritingLeavesList(w: World, takes: Decision, l: Handle, h: Handle)
    requires Kept(w) && w.phase == Writing && InList(w.s.listeners, l, h) && IsTcp(w.s.sockets, h)
    ensures var r := WriteChannelsStep(w, takes);
            && Step(w, PollWriteChannels(takes)) == r && r.Next? && Kept(r.w) && r.w.phase == Networking(false)
            && r.w.commands == w.commands
            && SameList(w.s, r.w.s, l, h) && r.w.s.pending == w.s.pending
  {
    WriteChannelsKeeps(w, takes);
    WriteLeavesList(w.s, takes, l, h);
  }

  lemma ReadingLeavesList(w: World, l: Handle, h: Handle)
    requires Kept(w) && w.phase.Reading? && InList(w.s.listeners, l, h) && IsTcp(w.s.sockets, h)
    ensures var r := ReadChannelsStep(w);
            && Step(w, PollReadChannels) == r && r.Next? && Kept(r.w) && r.w.commands == w.commands
            && SameList(w.s, r.w.s, l, h)
            && r.w.s.pending == w.s.pending
            && r.w.phase == if w.phase.changed then Completing(w.s.pending.Keys) else Checking
  {
    ReadChannelsKeeps(w);
    ReadLeavesList(w.s, l, h);
  }

  lemma ReachesFurther(w: World, w1: World, e: Event, w2: World)
    requires Reaches(w, w1) && Step(w1, e) == Next(w2)
    ensures Reaches(w, w2)
  {
    var events :| LeadsTo(w, events, w1);
    RunFurther(w, events, w1, e, w2);
  }

  lemma ReachesSelf(w: World)
    ensures Reaches(w, w)
  {
    assert LeadsTo(w, [], w);
  }

  /** A run leads from w to w1 and leaves the list of l, and socket h on it, as they are. */
  ghost predicate Way(w: World, w1: World, l: Handle, h: Handle) {
    Reaches(w, w1) && Kept(w1) && SameList(w.s, w1.s, l, h) && h in w.s.listeners[l].handles && IsTcp(w.s.sockets, h)
  }

  lemma WayOn(w: World, w1: World, e: Event, w2: World, l: Handle, h: Handle)
    requires Way(w, w1, l, h) && Step(w1, e) == Next(w2) && Kept(w2) && SameList(w1.s, w2.s, l, h)
    ensures Way(w, w2, l, h)
  {
    ReachesFurther(w, w1, e, w2);
    SameAgain(w.s, w1.s, w2.s, l, h);
  }

  lemma WayTake(w: World, w1: World, f: Foreign, l: Handle, h: Handle) returns (w2: World)
    requires Way(w, w1, l, h) && w1.phase == Waiting && w1.commands != [] && w1.commands[0] != TcpListenerClose(l)
    requires ListedLive(w1.s, l)
    requires w1.commands[0] == TcpAccept(l) ==> FirstReady(w1.s.sockets, w1.s.listeners[l].handles).None?
    ensures Way(w, w2, l, h) && w2.phase == Writing && w2.commands == w1.commands[1..]
    ensures w1.commands[0] == TcpAccept(l) ==> l in w2.s.pending && w2.s.pending[l].AcceptOp?
  {
    TakeLeavesList(w1, f, l, h);
    w2 := TakeStep(w1, f).w;
    WayOn(w, w1, TakeCommand(f), w2, l, h);
  }

  lemma WayWrite(w: World, w1: World, takes: Decision, l: Handle, h: Handle) returns (w2: World)
    requires Way(w, w1, l, h) && w1.phase == Writing
    ensures Way(w, w2, l, h) && w2.phase == Networking(false) && w2.commands == w1.commands
    ensures w2.s.pending == w1.s.pending
  {
    WritingLeavesList(w1, takes, l, h);
    w2 := WriteChannelsStep(w1, takes).w;
    WayOn(w, w1, PollWriteChannels(takes), w2, l, h);
  }

  lemma WayEnd(w: World, w1: World, l: Handle, h: Handle) returns (w2: World)
    requires Way(w, w1, l, h) && w1.phase.Networking?
    ensures Way(w, w2, l, h) && w2 == w1.(phase := Reading(w1.phase.changed))
  {
    w2 := w1.(phase := Reading(w1.phase.changed));
    WayOn(w, w1, EndPoll, w2, l, h);
  }

  lemma WayRead(w: World, w1: World, l: Handle, h: Handle) returns (w2: World)
    requires Way(w, w1, l, h) && w1.phase.Reading?
    ensures Way(w, w2, l, h) && w2.commands == w1.commands && w2.s.pending == w1.s.pending
    ensures w2.phase == if w1.phase.changed then Completing(w1.s.pending.Keys) else Checking
  {
    ReadingLeavesList(w1, l, h);
    w2 := ReadChannelsStep(w1).w;
    WayOn(w, w1, PollReadChannels, w2, l, h);
  }

  lemma WayCheck(w: World, w1: World, l: Handle, h: Handle) returns (w2: World)
    requires Way(w, w1, l, h) && w1.phase == Checking
    ensures Way(w, w2, l, h) && w2.phase == Waiting && w2.commands == w1.commands
  {
    w2 := w1.(phase := Waiting);
    WayOn(w, w1, Check(false), w2, l, h);
  }

  /** One pass of the loop for a command that leaves the list alone. */
  lemma OneCommand(w: World, f: Foreign, takes: Decision, l: Handle, h: Handle) returns (w5: World)
    requires Way(w, w, l, h) && w.phase == Waiting && w.commands != [] && w.commands[0] != TcpListenerClose(l)
    requires ListedLive(w.s, l)
    requires w.commands[0] == TcpAccept(l) ==> FirstReady(w.s.sockets, w.s.listeners[l].handles).None?
    ensures Way(w, w5, l, h) && w5.phase == Waiting && w5.commands == w.commands[1..]
  {
    var w1 := WayTake(w, w, f, l, h);
    var w2 := WayWrite(w, w1, takes, l, h);
    var w3 := WayEnd(w, w2, l, h);
    var w4 := WayRead(w, w3, l, h);
    w5 := WayCheck(w, w4, l, h);
  }

  lemma {:induction false} RunOn(w: World, events: seq<Event>, w1: World, more: seq<Event>, w2: World)
    requires LeadsTo(w, events, w1) && LeadsTo(w1, more, w2)
    ensures LeadsTo(w, events + more, w2)
    decreases |events|
  {
    if events == [] {
      assert events + more == more;
    } else {
      RunOn(Step(w, events[0]).w, events[1..], w1, more, w2);
      assert (events + more)[1..] == events[1..] + more;
    }
  }

  lemma ReachesOn(w: World, w1: World, w2: World)
    requires Reaches(w, w1) && Reaches(w1, w2)
    ensures Reaches(w, w2)
  {
    var events :| LeadsTo(w, events, w1);
    var more :| LeadsTo(w1, more, w2);
    RunOn(w, events, w1, more, w2);
  }

  /** If an accept is answered later, with the list as it is now, it can be answered from here. */
  lemma CanAcceptLater(w: World, w1: World, w2: World, l: Handle)
    requires Reaches(w, w1) && SameHandles(w.s, w1.s, l) && Reaches(w1, w2) && HandsOut(w1.s, w2.s, l)
    ensures CanAccept(w, l)
  {
    ReachesOn(w, w1, w2);
    StillHandsOut(w.s, w1.s, w2.s, l);
  }

  /** During the polls a peer connects to an open socket, and the waiting accept is answered. */
  lemma WaitingAcceptAnswered(w: World, l: Handle, h: Handle, f: Foreign, peers: Handle -> SocketAddr)
    returns (w2: World)
    requires Kept(w) && w.phase.Networking? && InList(w.s.listeners, l, h) && IsOpen(w.s.sockets, h)
    requires l in w.s.pending && w.s.pending[l].AcceptOp?
    ensures Reaches(w, w2) && HandsOut(w.s, w2.s, l)
  {
    var met, w1 := MeetPoll(w, [h], peers), MeetPoll(MeetPoll(w, [h], peers), [h], peers);
    MeetPollWorks(w, [h], peers);
    MeetPollWorks(met, [h], peers);
    MetIsReady(w.s.sockets, h, peers);
    ReachesSelf(w);
    ReachesFurther(w, w, Poll(met.s.sockets, true), met);
    ReachesFurther(w, met, Poll(w1.s.sockets, true), w1);
    w2 := ReadyAcceptAnswered(w1, l, h, f);
    ReachesOn(w, w1, w2);
    StillHandsOut(w.s, w1.s, w2.s, l);
  }

  lemma ReadyAcceptAnswered(w: World, l: Handle, h: Handle, f: Foreign) returns (w3: World)
    requires Kept(w) && w.phase == Networking(true) && InList(w.s.listeners, l, h) && Ready(w.s.sockets, h)
    requires l in w.s.pending && w.s.pending[l].AcceptOp?
    ensures Reaches(w, w3) && HandsOut(w.s, w3.s, l)
  {
    ReachesSelf(w);
    var w1 := WayEnd(w, w, l, h);
    var w2 := WayRead(w, w1, l, h);
    CompletionHandsOut(w2, l, h, f);
    w3 := CompleteStep(w2, l, f).w;
    ReachesFurther(w, w2, Complete(l, f), w3);
    StillHandsOut(w.s, w2.s, w3.s, l);
  }

  lemma CompletionHandsOut(w: World, l: Handle, h: Handle, f: Foreign)
    requires Kept(w) && w.phase.Completing? && l in w.phase.todo
    requires l in w.s.pending && w.s.pending[l].AcceptOp? && InList(w.s.listeners, l, h) && Ready(w.s.sockets, h)
    ensures var r := CompleteStep(w, l, f); r.Next? && Step(w, Complete(l, f)) == r && HandsOut(w.s, r.w.s, l)
  {
    PendingAlwaysLooks(w.s, l);
    CompletionIs(w, l, f);
    ListedIsTcp(w.s, l);
    CompleteNow(w.s, l, h, f);
  }

  lemma CompletionIs(w: World, l: Handle, f: Foreign)
    requires w.phase.Completing? && l in w.phase.todo && PendingLooks(w.s, l)
    ensures var r := CompleteStep(w, l, f); Step(w, Complete(l, f)) == r && r.Next? && r.w.s == CompleteOne(w.s, l, f)
  {
  }

  /** With no command queued, an accept is submitted, and answered at once or once a peer is there. */
  lemma IdleCanAccept(w: World, l: Handle, h: Handle, f: Foreign, takes: Decision, peers: Handle -> SocketAddr)
    requires Kept(w) && w.phase == Waiting && w.commands == []
    requires InList(w.s.listeners, l, h) && IsOpen(w.s.sockets, h)
    ensures CanAccept(w, l)
  {
    var w1 := w.(commands := [TcpAccept(l)]);
    AcceptSubmitted(w, l);
    ReachesSelf(w);
    ReachesFurther(w, w, Submit(TcpAccept(l)), w1);
    SubmittedCanAccept(w1, l, h, f, takes, peers);
    var w2 :| Reaches(w1, w2) && HandsOut(w1.s, w2.s, l);
    CanAcceptLater(w, w1, w2, l);
  }

  lemma AcceptSubmitted(w: World, l: Handle)
    requires Kept(w) && w.phase == Waiting && w.commands == []
    ensures var w1 := w.(commands := [TcpAccept(l)]);
            Step(w, Submit(TcpAccept(l))) == Next(w1) && Kept(w1)
  {
    assert w.commands + [TcpAccept(l)] == [TcpAccept(l)];
    StepKeeps(w, Submit(TcpAccept(l)));
  }

  lemma SubmittedCanAccept(w: World, l: Handle, h: Handle, f: Foreign, takes: Decision, peers: Handle -> SocketAddr)
    requires Kept(w) && w.phase == Waiting && w.commands == [TcpAccept(l)]
    requires InList(w.s.listeners, l, h) && IsOpen(w.s.sockets, h)
    ensures CanAccept(w, l)
  {
    ReachesSelf(w);
    ListedIsTcp(w.s, l);
    if FirstReady(w.s.sockets, w.s.listeners[l].handles).Some? {
      AcceptNow(w, l, f);
      ReachesFurther(w, w, TakeCommand(f), TakeStep(w, f).w);
    } else {
      var w1 := WayTake(w, w, f, l, h);
      var w2 := WayWrite(w, w1, takes, l, h);
      var w3 := WaitingAcceptAnswered(w2, l, h, f, peers);
      CanAcceptLater(w, w2, w3, l);
    }
  }

  lemma {:induction false} OpenCanAccept(w: World, l: Handle, h: Handle, f: Foreign, takes: Decision,
                                         peers: Handle -> SocketAddr)
    requires Kept(w) && w.phase == Waiting && TcpListenerClose(l) !in w.commands
    requires InList(w.s.listeners, l, h) && IsOpen(w.s.sockets, h)
    ensures CanAccept(w, l)
    decreases |w.commands|
  {
    ReachesSelf(w);
    ListedIsTcp(w.s, l);
    if w.commands == [] {
      IdleCanAccept(w, l, h, f, takes, peers);
    } else if w.commands[0] == TcpAccept(l) && FirstReady(w.s.sockets, w.s.listeners[l].handles).Some? {
      AcceptNow(w, l, f);
      ReachesFurther(w, w, TakeCommand(f), TakeStep(w, f).w);
    } else {
      var w1 := OneCommand(w, f, takes, l, h);
      OpenCanAccept(w1, l, h, f, takes, peers);
      var w2 :| Reaches(w1, w2) && HandsOut(w1.s, w2.s, l);
      CanAcceptLater(w, w1, w2, l);
    }
  }

  /** Whenever the stack task waits and no close of the listener is queued: some run hands out one of
      its sockets if and only if one of them has not left the way to an open connection. */
  lemma CanAcceptIffSomeOpen(w: World, l: Handle, f: Foreign, takes: Decision, peers: Handle -> SocketAddr)
    requires Kept(w) && w.phase == Waiting && l in w.s.listeners && TcpListenerClose(l) !in w.commands
    ensures CanAccept(w, l) <==> SomeOpen(w.s, l)
  {
    if SomeOpen(w.s, l) {
      var h :| InList(w.s.listeners, l, h) && IsOpen(w.s.sockets, h);
      OpenCanAccept(w, l, h, f, takes, peers);
    } else {
      SpentCannotAccept(w, l);
    }
  }
}
