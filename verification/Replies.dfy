/** What callers are told: over a whole run, every reply of the stack task answers its own request. */
module Replies {
  import opened Base
  import opened TcpPath
  import opened UdpPath
  import opened Stack
  import opened Ownership
  import opened Machine
  import opened Safety
  import Connection

  // ---------------------------------------------------------------- the history of a run

  /** A request: the command, the port allocator when it was taken, the sockets that taking it made, and
      for an accept whether its listener was open then. */
  datatype Ask = Ask(command: Command, local: Local, made: set<Handle>, open: bool)

  /** What can be seen at a moment: a socket on a listener's list that a peer has connected to, a
      socket that is connected, one whose connection has ended, the task giving up because the
      connection to the proxy is lost. */
  datatype Sight =
    | Offer(l: Handle, h: Handle, local: SocketAddr, peer: SocketAddr)
    | Up(h: Handle)
    | Down(h: Handle)
    | LinkLost

  ghost predicate IsOffer(s: Stack, l: Handle, h: Handle, local: SocketAddr, peer: SocketAddr) {
    && InList(s.listeners, l, h) && Ready(s.sockets, h)
    && s.sockets[h].tcp.remote == Some(peer)
    && local == (if s.sockets[h].tcp.local.Some? then s.sockets[h].tcp.local.value else s.listeners[l].addr)
  }

  ghost predicate OnStack(s: Stack, o: Sight) {
    match o
    case Offer(l, h, local, peer) => IsOffer(s, l, h, local, peer)
    case Up(h) => IsTcp(s.sockets, h) && s.sockets[h].tcp.state == Established
    case Down(h) => IsTcp(s.sockets, h) && (s.sockets[h].tcp.state == Closed || s.sockets[h].tcp.state == TimeWait)
    case LinkLost => false
  }

  ghost predicate InSight(w: World, o: Sight) {
    if o.LinkLost? then w.phase == Failing else OnStack(w.s, o)
  }

  /** The requests taken so far, and everything that was seen. */
  datatype History = History(asks: seq<Ask>, seen: iset<Sight>)

  predicate AsksFor(c: Command) {
    c.TcpConnect? || c.TcpListen? || c.TcpAccept? || c.UdpBind?
  }

  function MadeBy(s: Stack, c: Command, f: Foreign): set<Handle>
    requires Looks(s, c)
  {
    Dispatch(s, c, f).sockets.Keys - s.sockets.Keys
  }

  predicate ListenerOpen(s: Stack, c: Command) {
    c.TcpAccept? && c.handle in s.listeners
  }

  function AskOf(s: Stack, c: Command, f: Foreign): Ask
    requires Looks(s, c)
  {
    Ask(c, s.local, MadeBy(s, c, f), ListenerOpen(s, c))
  }

  function NewAsks(w: World, e: Event): seq<Ask> {
    if e.TakeCommand? && w.phase == Waiting && w.commands != [] && Looks(w.s, w.commands[0]) && AsksFor(w.commands[0])
    then [AskOf(w.s, w.commands[0], e.f)] else []
  }

  ghost function Observed(w: World, hist: History, e: Event): History {
    History(hist.asks + NewAsks(w, e), hist.seen + iset o: Sight | InSight(w, o))
  }

  ghost function Chronicle(w: World, hist: History, events: seq<Event>): History
    decreases |events|
  {
    if events == [] then hist else
    match Step(w, events[0])
    case Panic => hist
    case Next(w1) => Chronicle(w1, Observed(w, hist, events[0]), events[1..])
  }

  // ---------------------------------------------------------------- what answers a request

  function ConnectsFrom(ask: Ask): SocketAddr
    requires ask.command.TcpConnect?
  {
    SocketAddr(if ask.command.localIp.Some? then ask.command.localIp.value else ask.local.ip, ask.local.nextPort)
  }

  /** A connect is told the asked peer and source address, on the socket it made, once that was
      connected; a listen the asked address, on a socket it made, for a listener of the asked backlog; a
      bind the asked address, on the asked or the allocated port, of the socket it made; an accept a
      socket that was on that listener's list, with the endpoints it had there.  A connect is told that it
      was refused only if its socket had ended, an accept that its listener is not there only if it was
      not open, and either that it was aborted only if the connection to the proxy was lost. */
  ghost predicate Answers(ask: Ask, outcome: Outcome, sizes: map<Handle, nat>, seen: iset<Sight>) {
    match ask.command
    case TcpConnect(localIp, addr) =>
      || (outcome.StreamReady? && outcome.peer == addr && outcome.local == ConnectsFrom(ask)
          && ask.made == {outcome.h} && Up(outcome.h) in seen)
      || (outcome == Failed(Other) && ask.made == {})
      || (outcome == Failed(ConnectionRefused) && exists h <- ask.made :: ask.made == {h} && Down(h) in seen)
      || (outcome == Failed(ConnectionAborted) && LinkLost in seen)
    case TcpListen(addr, backlog) =>
      || (outcome.ListenerReady? && outcome.addr == addr && addr.port != 0 && outcome.h in ask.made
          && outcome.h in sizes && sizes[outcome.h] == AtLeastOne(backlog))
      || (outcome == Failed(if addr.port == 0 then InvalidInput else AddrInUse) && ask.made == {})
    case TcpAccept(l) =>
      || (outcome.StreamReady? && ask.open && Offer(l, outcome.h, outcome.local, outcome.peer) in seen)
      || (outcome == Failed(InvalidInput) && !ask.open)
      || (outcome == Failed(ConnectionAborted) && ask.open && LinkLost in seen)
    case UdpBind(addr) =>
      || (outcome.UdpReady? && ask.made == {outcome.h}
          && outcome.addr == addr.(port := if addr.port == 0 then ask.local.nextPort else addr.port))
      || (outcome == Failed(AddrInUse) && ask.made == {})
    case _ => false
  }

  /** What waits under a handle is the request it came from. */
  predicate Awaits(ask: Ask, h: Handle, op: PendingOp) {
    match op
    case ConnectOp(local, peer, _) =>
      ask.command.TcpConnect? && ask.command.addr == peer && local == ConnectsFrom(ask) && ask.made == {h}
    case AcceptOp(_) => ask.command == TcpAccept(h) && ask.open
  }

  ghost predicate RepliesMatch(log: Log, hist: History) {
    forall i :: 0 <= i < |log.replies| ==>
      && log.replies[i].req < |hist.asks|
      && Answers(hist.asks[log.replies[i].req], log.replies[i].outcome, log.sizes, hist.seen)
  }

  ghost predicate PendingMatches(pending: map<Handle, PendingOp>, hist: History) {
    forall h :: h in pending ==> pending[h].req < |hist.asks| && Awaits(hist.asks[pending[h].req], h, pending[h])
  }

  ghost predicate Chronicled(pending: map<Handle, PendingOp>, log: Log, hist: History) {
    log.requests == |hist.asks| && RepliesMatch(log, hist) && PendingMatches(pending, hist)
  }

  // ---------------------------------------------------------------- the ways the tables change

  ghost predicate Extends(hist: History, hist1: History) {
    hist.asks <= hist1.asks && hist.seen <= hist1.seen
  }

  /** No listener's recorded size changes. */
  ghost predicate SizesStay(log: Log, log1: Log) {
    forall i ::
      0 <= i < |log.replies| && log.replies[i].outcome.ListenerReady? && log.replies[i].outcome.h in log.sizes ==>
      var h := log.replies[i].outcome.h; h in log1.sizes && log1.sizes[h] == log.sizes[h]
  }

  lemma OldRepliesMatch(log: Log, log1: Log, hist: History, hist1: History, i: nat)
    requires RepliesMatch(log, hist) && Extends(hist, hist1) && SizesStay(log, log1) && i < |log.replies|
    ensures var r := log.replies[i];
            r.req < |hist1.asks| && Answers(hist1.asks[r.req], r.outcome, log1.sizes, hist1.seen)
  {
  }

  /** Nothing is asked or answered; pending operations may go. */
  lemma QuietStep(pending: map<Handle, PendingOp>, log: Log, pending1: map<Handle, PendingOp>, log1: Log,
                  hist: History, hist1: History)
    requires Chronicled(pending, log, hist) && Extends(hist, hist1) && hist1.asks == hist.asks
    requires log1.requests == log.requests && log1.replies == log.replies && log1.sizes == log.sizes
    requires forall h :: h in pending1 ==> h in pending && pending1[h] == pending[h]
    ensures Chronicled(pending1, log1, hist1)
  {
  }

  lemma AnswerNew(pending: map<Handle, PendingOp>, log: Log, log1: Log, hist: History, hist1: History,
                  ask: Ask, outcome: Outcome)
    requires Chronicled(pending, log, hist) && Extends(hist, hist1) && hist1.asks == hist.asks + [ask]
    requires log1.requests == log.requests + 1 && log1.replies == log.replies + [Reply(log.requests, outcome)]
    requires SizesStay(log, log1) && Answers(ask, outcome, log1.sizes, hist1.seen)
    ensures Chronicled(pending, log1, hist1)
  {
    forall i | 0 <= i < |log.replies|
      ensures var r := log1.replies[i];
              r.req < |hist1.asks| && Answers(hist1.asks[r.req], r.outcome, log1.sizes, hist1.seen)
    {
      OldRepliesMatch(log, log1, hist, hist1, i);
    }
  }

  lemma WaitNew(pending: map<Handle, PendingOp>, log: Log, log1: Log, hist: History, hist1: History,
                ask: Ask, h: Handle, op: PendingOp)
    requires Chronicled(pending, log, hist) && Extends(hist, hist1) && hist1.asks == hist.asks + [ask]
    requires log1.requests == log.requests + 1 && log1.replies == log.replies && log1.sizes == log.sizes
    requires op.req == log.requests && Awaits(ask, h, op)
    ensures Chronicled(pending[h := op], log1, hist1)
  {
  }

  lemma AnswerOld(pending: map<Handle, PendingOp>, log: Log, log1: Log, hist: History, hist1: History,
                  h: Handle, outcome: Outcome)
    requires Chronicled(pending, log, hist) && Extends(hist, hist1) && hist1.asks == hist.asks && h in pending
    requires log1.requests == log.requests && log1.replies == log.replies + [Reply(pending[h].req, outcome)]
    requires log1.sizes == log.sizes
    requires Answers(hist.asks[pending[h].req], outcome, log1.sizes, hist1.seen)
    ensures Chronicled(pending - {h}, log1, hist1)
  {
    forall i | 0 <= i < |log.replies|
      ensures var r := log1.replies[i];
              r.req < |hist1.asks| && Answers(hist1.asks[r.req], r.outcome, log1.sizes, hist1.seen)
    {
      OldRepliesMatch(log, log1, hist, hist1, i);
    }
  }

  // ---------------------------------------------------------------- commands

  lemma ConnectChronicled(s: Stack, localIp: Option<IpAddr>, addr: SocketAddr, f: Foreign, hist: History,
                          hist1: History)
    requires Chronicled(s.pending, s.log, hist) && Extends(hist, hist1)
    requires hist1.asks == hist.asks + [AskOf(s, TcpConnect(localIp, addr), f)]
    ensures var t := StartConnect(s, localIp, addr, f); Chronicled(t.pending, t.log, hist1)
  {
    var ask, t := hist1.asks[|hist.asks|], StartConnect(s, localIp, addr, f);
    if 0 in f.refused {
      AnswerNew(s.pending, s.log, t.log, hist, hist1, ask, Failed(Other));
    } else {
      var h := FreeSlot(s.sockets.Keys, f.Slot(0));
      WaitNew(s.pending, s.log, t.log, hist, hist1, ask, h, t.pending[h]);
    }
  }

  lemma NewListenerSizes(s: Stack, addr: SocketAddr, handles: seq<Handle>)
    requires Owned(s) && |handles| > 0 && handles[0] !in s.sockets
    ensures SizesStay(s.log, AddListener(s, addr, handles).log)
  {
    forall i | 0 <= i < |s.log.replies| && s.log.replies[i].outcome.ListenerReady?
      ensures s.log.replies[i].outcome.h in s.sockets
    {
      IssuedHas(s.log.replies, i);
      assert IsTcp(s.sockets, s.log.replies[i].outcome.h);
    }
  }

  lemma ListenChronicled(s: Stack, addr: SocketAddr, backlog: nat, f: Foreign, hist: History, hist1: History)
    requires Owned(s) && Chronicled(s.pending, s.log, hist) && Extends(hist, hist1)
    requires hist1.asks == hist.asks + [AskOf(s, TcpListen(addr, backlog), f)]
    ensures var t := StartListening(s, addr, backlog, f); Chronicled(t.pending, t.log, hist1)
  {
    var ask, t := hist1.asks[|hist.asks|], StartListening(s, addr, backlog, f);
    var n := AtLeastOne(backlog);
    if addr.port == 0 {
      AnswerNew(s.pending, s.log, t.log, hist, hist1, ask, Failed(InvalidInput));
    } else if PortTaken(s.listeners, addr.port) || (exists i :: 0 <= i < n && i in f.refused) {
      AnswerNew(s.pending, s.log, t.log, hist, hist1, ask, Failed(AddrInUse));
    } else {
      var handles := NewHandles(s.sockets.Keys, f, 0, n);
      assert handles[0] in handles;
      NewListenerSizes(s, addr, handles);
      AnswerNew(s.pending, s.log, t.log, hist, hist1, ask, ListenerReady(handles[0], addr));
    }
  }

  lemma TakenWasOffered(s: Stack, l: Handle, i: nat)
    requires l in s.listeners && i < |s.listeners[l].handles| && Ready(s.sockets, s.listeners[l].handles[i])
    ensures var o := AcceptedStream(s, l, i); OnStack(s, Offer(l, o.h, o.local, o.peer))
  {
  }

  lemma AcceptChronicled(s: Stack, l: Handle, f: Foreign, hist: History, hist1: History)
    requires ListedLive(s, l) && Chronicled(s.pending, s.log, hist) && Extends(hist, hist1)
    requires hist1.asks == hist.asks + [AskOf(s, TcpAccept(l), f)]
    requires forall o :: OnStack(s, o) ==> o in hist1.seen
    ensures var t := AcceptStream(s, l, f); Chronicled(t.pending, t.log, hist1)
  {
    var ask, t := hist1.asks[|hist.asks|], AcceptStream(s, l, f);
    if l !in s.listeners {
      AnswerNew(s.pending, s.log, t.log, hist, hist1, ask, Failed(InvalidInput));
    } else {
      var i := FirstReady(s.sockets, s.listeners[l].handles);
      if i.Some? {
        TakenWasOffered(s, l, i.value);
        AnswerNew(s.pending, s.log, t.log, hist, hist1, ask, AcceptedStream(s, l, i.value));
      } else {
        WaitNew(s.pending, s.log, t.log, hist, hist1, ask, l, AcceptOp(s.log.requests));
      }
    }
  }

  lemma BindChronicled(s: Stack, addr: SocketAddr, f: Foreign, hist: History, hist1: History)
    requires Chronicled(s.pending, s.log, hist) && Extends(hist, hist1)
    requires hist1.asks == hist.asks + [AskOf(s, UdpBind(addr), f)]
    ensures var t := BindUdp(s, addr, f); Chronicled(t.pending, t.log, hist1)
  {
    var t := BindUdp(s, addr, f);
    AnswerNew(s.pending, s.log, t.log, hist, hist1, hist1.asks[|hist.asks|], t.log.replies[|s.log.replies|].outcome);
  }

  lemma CommandChronicled(s: Stack, c: Command, f: Foreign, hist: History, hist1: History)
    requires Owned(s) && Looks(s, c) && Chronicled(s.pending, s.log, hist) && Extends(hist, hist1)
    requires hist1.asks == if AsksFor(c) then hist.asks + [AskOf(s, c, f)] else hist.asks
    requires forall o :: OnStack(s, o) ==> o in hist1.seen
    ensures var t := Dispatch(s, c, f); Chronicled(t.pending, t.log, hist1)
  {
    match c
    case TcpConnect(localIp, addr) => ConnectChronicled(s, localIp, addr, f, hist, hist1);
    case TcpListen(addr, backlog) => ListenChronicled(s, addr, backlog, f, hist, hist1);
    case TcpAccept(l) => AcceptChronicled(s, l, f, hist, hist1);
    case UdpBind(addr) => BindChronicled(s, addr, f, hist, hist1);
    case TcpListenerClose(l) =>
      var t := CloseListener(s, l);
      QuietStep(s.pending, s.log, t.pending, t.log, hist, hist1);
    case TcpClose(h) => QuietStep(s.pending, s.log, s.pending, s.log, hist, hist1);
    case UdpClose(h) => QuietStep(s.pending, s.log, s.pending, s.log, hist, hist1);
  }

  // ---------------------------------------------------------------- pending operations

  lemma CompleteConnectChronicled(s: Stack, h: Handle, hist: History, hist1: History)
    requires h in s.pending && s.pending[h].ConnectOp? && IsTcp(s.sockets, h)
    requires Chronicled(s.pending, s.log, hist) && Extends(hist, hist1) && hist1.asks == hist.asks
    requires forall o :: OnStack(s, o) ==> o in hist1.seen
    ensures var t := CompleteConnect(s, h); Chronicled(t.pending, t.log, hist1)
  {
    var t, op := CompleteConnect(s, h), s.pending[h];
    assert OnStack(s, Up(h)) ==> Up(h) in hist1.seen;
    assert OnStack(s, Down(h)) ==> Down(h) in hist1.seen;
    match s.sockets[h].tcp.state
    case Established => AnswerOld(s.pending, s.log, t.log, hist, hist1, h, StreamReady(h, op.local, op.peer));
    case Closed => AnswerOld(s.pending, s.log, t.log, hist, hist1, h, Failed(ConnectionRefused));
    case TimeWait => AnswerOld(s.pending, s.log, t.log, hist, hist1, h, Failed(ConnectionRefused));
    case _ => QuietStep(s.pending, s.log, s.pending, s.log, hist, hist1);
  }

  lemma CompleteAcceptChronicled(s: Stack, h: Handle, f: Foreign, hist: History, hist1: History)
    requires h in s.pending && s.pending[h].AcceptOp? && ListedLive(s, h) && h in s.listeners
    requires Chronicled(s.pending, s.log, hist) && Extends(hist, hist1) && hist1.asks == hist.asks
    requires forall o :: OnStack(s, o) ==> o in hist1.seen
    ensures var t := CompleteAccept(s, h, f); Chronicled(t.pending, t.log, hist1)
  {
    var t := CompleteAccept(s, h, f);
    var i := FirstReady(s.sockets, s.listeners[h].handles);
    if i.Some? {
      TakenWasOffered(s, h, i.value);
      AnswerOld(s.pending, s.log, t.log, hist, hist1, h, AcceptedStream(s, h, i.value));
    } else {
      QuietStep(s.pending, s.log, s.pending, s.log, hist, hist1);
    }
  }

  lemma CompleteChronicled(s: Stack, h: Handle, f: Foreign, hist: History, hist1: History)
    requires Owned(s) && PendingLooks(s, h) && Chronicled(s.pending, s.log, hist) && Extends(hist, hist1)
    requires hist1.asks == hist.asks
    requires forall o :: OnStack(s, o) ==> o in hist1.seen
    ensures var t := CompleteOne(s, h, f); Chronicled(t.pending, t.log, hist1)
  {
    if h !in s.pending {
      QuietStep(s.pending, s.log, s.pending, s.log, hist, hist1);
    } else if s.pending[h].ConnectOp? {
      CompleteConnectChronicled(s, h, hist, hist1);
    } else {
      CompleteAcceptChronicled(s, h, f, hist, hist1);
    }
  }

  // ---------------------------------------------------------------- every step

  ghost predicate WorldChronicled(w: World, hist: History) {
    Chronicled(w.s.pending, w.s.log, hist)
  }

  lemma TakeChronicled(w: World, f: Foreign, hist: History)
    requires Kept(w) && WorldChronicled(w, hist) && TakeStep(w, f).Next?
    ensures WorldChronicled(TakeStep(w, f).w, Observed(w, hist, TakeCommand(f)))
  {
    var hist1 := Observed(w, hist, TakeCommand(f));
    if w.phase == Waiting && w.commands != [] {
      assert forall o :: OnStack(w.s, o) ==> InSight(w, o);
      CommandChronicled(w.s, w.commands[0], f, hist, hist1);
    } else {
      QuietStep(w.s.pending, w.s.log, w.s.pending, w.s.log, hist, hist1);
    }
  }

  lemma CompletingChronicled(w: World, h: Handle, f: Foreign, hist: History)
    requires Owned(w.s) && WorldChronicled(w, hist) && CompleteStep(w, h, f).Next?
    ensures WorldChronicled(CompleteStep(w, h, f).w, Observed(w, hist, Complete(h, f)))
  {
    var hist1 := Observed(w, hist, Complete(h, f));
    if w.phase.Completing? && h in w.phase.todo {
      assert forall o :: OnStack(w.s, o) ==> InSight(w, o);
      CompleteChronicled(w.s, h, f, hist, hist1);
    } else {
      QuietStep(w.s.pending, w.s.log, w.s.pending, w.s.log, hist, hist1);
    }
  }

  lemma FailingChronicled(w: World, h: Handle, hist: History)
    requires WorldChronicled(w, hist)
    ensures WorldChronicled(FailStep(w, h), Observed(w, hist, Fail(h)))
  {
    var hist1 := Observed(w, hist, Fail(h));
    if w.phase == Failing && h in w.s.pending {
      assert InSight(w, LinkLost) && LinkLost in hist1.seen;
      AnswerOld(w.s.pending, w.s.log, FailOne(w.s, h).log, hist, hist1, h, Failed(ConnectionAborted));
    } else {
      QuietStep(w.s.pending, w.s.log, w.s.pending, w.s.log, hist, hist1);
    }
  }

  lemma DroppingChronicled(w: World, h: Handle, hist: History)
    requires WorldChronicled(w, hist)
    ensures WorldChronicled(DropStep(w, h), Observed(w, hist, Drop(h)))
  {
    var hist1 := Observed(w, hist, Drop(h));
    if w.phase == Dropping && h in w.s.pending {
      QuietStep(w.s.pending, w.s.log, w.s.pending - {h}, DropOne(w.s, h).log, hist, hist1);
    } else {
      QuietStep(w.s.pending, w.s.log, w.s.pending, w.s.log, hist, hist1);
    }
  }

  /** Steps that take a command or touch what is pending. */
  predicate Busy(e: Event) {
    e.TakeCommand? || e.Complete? || e.Fail? || e.Drop?
  }

  lemma AppsAreIdle(w: World, e: Event)
    requires e.TcpApp? || e.UdpApp?
    ensures Step(w, e).Next? && Step(w, e).w.s.pending == w.s.pending && Step(w, e).w.s.log == w.s.log
  {
  }

  lemma IdleSteps(w: World, e: Event)
    requires !Busy(e) && Step(w, e).Next?
    ensures Step(w, e).w.s.pending == w.s.pending && Step(w, e).w.s.log == w.s.log
  {
    if e.TcpApp? || e.UdpApp? {
      AppsAreIdle(w, e);
    }
  }

  lemma IdleChronicled(w: World, e: Event, hist: History)
    requires !Busy(e) && Step(w, e).Next? && WorldChronicled(w, hist)
    ensures WorldChronicled(Step(w, e).w, Observed(w, hist, e))
  {
    IdleSteps(w, e);
    QuietStep(w.s.pending, w.s.log, w.s.pending, w.s.log, hist, Observed(w, hist, e));
  }

  lemma PendingChronicled(w: World, h: Handle, hist: History)
    requires WorldChronicled(w, hist)
    ensures Step(w, Fail(h)) == Next(FailStep(w, h)) && WorldChronicled(FailStep(w, h), Observed(w, hist, Fail(h)))
    ensures Step(w, Drop(h)) == Next(DropStep(w, h)) && WorldChronicled(DropStep(w, h), Observed(w, hist, Drop(h)))
  {
    FailingChronicled(w, h, hist);
    DroppingChronicled(w, h, hist);
  }

  lemma TakeEventChronicled(w: World, f: Foreign, hist: History)
    requires Kept(w) && WorldChronicled(w, hist)
    ensures Step(w, TakeCommand(f)) == TakeStep(w, f)
    ensures TakeStep(w, f).Next? ==> WorldChronicled(TakeStep(w, f).w, Observed(w, hist, TakeCommand(f)))
  {
    if TakeStep(w, f).Next? {
      TakeChronicled(w, f, hist);
    }
  }

  lemma CompleteEventChronicled(w: World, h: Handle, f: Foreign, hist: History)
    requires Kept(w) && WorldChronicled(w, hist)
    ensures Step(w, Complete(h, f)) == CompleteStep(w, h, f)
    ensures CompleteStep(w, h, f).Next? ==>
              WorldChronicled(CompleteStep(w, h, f).w, Observed(w, hist, Complete(h, f)))
  {
    if CompleteStep(w, h, f).Next? {
      CompletingChronicled(w, h, f, hist);
    }
  }

  lemma StepChronicled(w: World, e: Event, hist: History)
    requires Kept(w) && WorldChronicled(w, hist) && Step(w, e).Next?
    ensures WorldChronicled(Step(w, e).w, Observed(w, hist, e))
  {
    match e
    case TakeCommand(f) => TakeEventChronicled(w, f, hist);
    case Complete(h, f) => CompleteEventChronicled(w, h, f, hist);
    case Fail(h) => PendingChronicled(w, h, hist);
    case Drop(h) => PendingChronicled(w, h, hist);
    case _ => IdleChronicled(w, e, hist);
  }

  lemma {:induction false} RunChronicled(w: World, events: seq<Event>, hist: History)
    requires Kept(w) && WorldChronicled(w, hist)
    ensures Run(w, events).Next? && Kept(Run(w, events).w)
    ensures WorldChronicled(Run(w, events).w, Chronicle(w, hist, events))
    decreases |events|
  {
    if events != [] {
      StepKeeps(w, events[0]);
      StepChronicled(w, events[0], hist);
      RunChronicled(Step(w, events[0]).w, events[1..], Observed(w, hist, events[0]));
    }
  }

  ghost function WholeHistory(local: Local, events: seq<Event>): History {
    Chronicle(Init(local), History([], iset{}), events)
  }

  /** On every run, each reply answers the request it names, as that request asked. */
  lemma EveryReplyAnswersItsRequest(local: Local, events: seq<Event>, i: nat)
    requires Run(Init(local), events).Next? ==> i < |Run(Init(local), events).w.s.log.replies|
    ensures Run(Init(local), events).Next?
    ensures var (log, hist) := (Run(Init(local), events).w.s.log, WholeHistory(local, events));
            && log.requests == |hist.asks|
            && log.replies[i].req < |hist.asks|
            && Answers(hist.asks[log.replies[i].req], log.replies[i].outcome, log.sizes, hist.seen)
  {
    InitKept(local);
    RunChronicled(Init(local), events, History([], iset{}));
  }

  // ---------------------------------------------------------------- source addresses

  /** The command takes a port from the allocator. */
  predicate Allocates(c: Command) {
    c.TcpConnect? || (c.UdpBind? && c.addr.port == 0)
  }

  function Allocations(asks: seq<Ask>): nat {
    if asks == [] then 0
    else Allocations(asks[..|asks| - 1]) + if Allocates(asks[|asks| - 1].command) then 1 else 0
  }

  /** The allocator after the requests in `asks`: its address never changes, its port is counted up. */
  function LocalAfter(start: Local, asks: seq<Ask>): Local {
    Local(start.ip, (start.nextPort + Allocations(asks)) % 65536)
  }

  ghost predicate PortsFollow(start: Local, local: Local, asks: seq<Ask>) {
    && local == LocalAfter(start, asks)
    && forall i :: 0 <= i < |asks| ==> asks[i].local == LocalAfter(start, asks[..i])
  }

  lemma CommandAllocates(s: Stack, c: Command, f: Foreign)
    requires Looks(s, c)
    ensures var t := Dispatch(s, c, f);
            && t.local.ip == s.local.ip
            && t.local.nextPort == if Allocates(c) then (s.local.nextPort + 1) % 65536 else s.local.nextPort
  {
    match c
    case TcpConnect(localIp, addr) => assert StartConnect(s, localIp, addr, f).local == s.local.Allocated();
    case TcpListen(addr, backlog) => assert StartListening(s, addr, backlog, f).local == s.local;
    case TcpAccept(l) => assert AcceptStream(s, l, f).local == s.local;
    case TcpListenerClose(l) => assert CloseListener(s, l).local == s.local;
    case TcpClose(h) => assert CloseStream(s, h).local == s.local;
    case UdpBind(addr) =>
      assert BindUdp(s, addr, f).local == if addr.port == 0 then s.local.Allocated() else s.local;
    case UdpClose(h) => assert CloseUdp(s, h).local == s.local;
  }

  lemma NextPort(n: nat)
    ensures (n % 65536 + 1) % 65536 == (n + 1) % 65536
  {
  }

  lemma LocalAfterPush(start: Local, asks: seq<Ask>, ask: Ask)
    ensures var local := LocalAfter(start, asks);
            LocalAfter(start, asks + [ask]) ==
            local.(nextPort := if Allocates(ask.command) then (local.nextPort + 1) % 65536 else local.nextPort)
  {
    assert (asks + [ask])[..|asks|] == asks;
    assert Allocations(asks + [ask]) == Allocations(asks) + if Allocates(ask.command) then 1 else 0;
    NextPort(start.nextPort + Allocations(asks));
  }

  lemma PortsFollowPush(start: Local, local: Local, asks: seq<Ask>, ask: Ask, next: Local)
    requires PortsFollow(start, local, asks) && ask.local == local && next.ip == local.ip
    requires next.nextPort == if Allocates(ask.command) then (local.nextPort + 1) % 65536 else local.nextPort
    ensures PortsFollow(start, next, asks + [ask])
  {
    var all := asks + [ask];
    assert all[..|asks|] == asks;
    LocalAfterPush(start, asks, ask);
    forall i | 0 <= i < |all|
      ensures all[i].local == LocalAfter(start, all[..i])
    {
      assert i < |asks| ==> all[..i] == asks[..i] && all[i] == asks[i];
    }
  }

  lemma TakeFollows(start: Local, w: World, f: Foreign, hist: History)
    requires PortsFollow(start, w.s.local, hist.asks) && TakeStep(w, f).Next?
    ensures PortsFollow(start, TakeStep(w, f).w.s.local, Observed(w, hist, TakeCommand(f)).asks)
  {
    NothingAsked(hist);
    if w.phase == Waiting && w.commands != [] {
      var c := w.commands[0];
      CommandAllocates(w.s, c, f);
      if AsksFor(c) {
        PortsFollowPush(start, w.s.local, hist.asks, AskOf(w.s, c, f), Dispatch(w.s, c, f).local);
      } else {
        assert Dispatch(w.s, c, f).local == w.s.local;
      }
    }
  }

  lemma NothingAsked(hist: History)
    ensures hist.asks + [] == hist.asks
  {
  }

  lemma CompleteAllocatesNone(w: World, h: Handle, f: Foreign)
    requires CompleteStep(w, h, f).Next?
    ensures CompleteStep(w, h, f).w.s.local == w.s.local
  {
  }

  lemma OthersAllocateNone(w: World, e: Event)
    requires !e.TakeCommand? && !e.Complete? && Step(w, e).Next?
    ensures Step(w, e).w.s.local == w.s.local
  {
    match e
    case TcpApp(h, a) => AppSteps(w, h, a, UdpAction.Receive);
    case UdpApp(h, b) => AppSteps(w, h, Connection.DropWriter, b);
    case Fail(h) => LeaveSteps(w, h);
    case Drop(h) => LeaveSteps(w, h);
    case _ =>
  }

  lemma StepFollows(start: Local, w: World, e: Event, hist: History)
    requires PortsFollow(start, w.s.local, hist.asks) && Step(w, e).Next?
    ensures PortsFollow(start, Step(w, e).w.s.local, Observed(w, hist, e).asks)
  {
    NothingAsked(hist);
    match e
    case TakeCommand(f) => TakeFollows(start, w, f, hist);
    case Complete(h, f) => CompleteAllocatesNone(w, h, f);
    case _ => OthersAllocateNone(w, e);
  }

  lemma {:induction false} RunFollows(start: Local, w: World, events: seq<Event>, hist: History)
    requires Kept(w) && PortsFollow(start, w.s.local, hist.asks)
    ensures Run(w, events).Next?
    ensures PortsFollow(start, Run(w, events).w.s.local, Chronicle(w, hist, events).asks)
    decreases |events|
  {
    if events != [] {
      StepKeeps(w, events[0]);
      StepFollows(start, w, events[0], hist);
      RunFollows(start, Step(w, events[0]).w, events[1..], Observed(w, hist, events[0]));
    }
  }

  /** On every run the address that requests are given as their source never changes, and their ports are
      those of the allocator in order, one for each connect and each bind to port 0. */
  lemma SourcesFollowTheAllocator(local: Local, events: seq<Event>, i: nat)
    requires local.nextPort < 65536 && i < |WholeHistory(local, events).asks|
    ensures var asks := WholeHistory(local, events).asks;
            asks[i].local == Local(local.ip, (local.nextPort + Allocations(asks[..i])) % 65536)
  {
    InitKept(local);
    RunFollows(local, Init(local), events, History([], iset{}));
  }

  lemma RunFirst(w: World, e: Event, more: seq<Event>, hist: History)
    requires Step(w, e).Next?
    ensures Run(w, [e] + more) == Run(Step(w, e).w, more)
    ensures Chronicle(w, hist, [e] + more) == Chronicle(Step(w, e).w, Observed(w, hist, e), more)
  {
    assert ([e] + more)[1..] == more;
  }

  /** What an accept is told of was, at some moment of the run, a connected socket on the list. */
  lemma {:induction false} SightsHappened(w: World, events: seq<Event>, hist: History, o: Sight) returns (n: nat)
    requires Kept(w) && o in Chronicle(w, hist, events).seen && o !in hist.seen
    ensures n <= |events| && Run(w, events[..n]).Next? && InSight(Run(w, events[..n]).w, o)
    decreases |events|
  {
    if InSight(w, o) {
      n := 0;
      assert events[..0] == [];
    } else {
      var e, more := events[0], events[1..];
      var w1, hist1 := LaterSight(w, e, more, hist, o, events);
      n := SightsHappened(w1, more, hist1, o);
      SightLater(w, e, more, n, w1, o, events);
      n := n + 1;
    }
  }

  lemma SightLater(w: World, e: Event, more: seq<Event>, n: nat, w1: World, o: Sight, events: seq<Event>)
    requires events == [e] + more && n <= |more| && Step(w, e) == Next(w1)
    requires Run(w1, more[..n]).Next? && InSight(Run(w1, more[..n]).w, o)
    ensures Run(w, events[..n + 1]).Next? && InSight(Run(w, events[..n + 1]).w, o)
  {
    assert events[..n + 1] == [e] + more[..n];
    assert events[..n + 1][1..] == more[..n];
  }

  lemma LaterSight(w: World, e: Event, more: seq<Event>, hist: History, o: Sight, events: seq<Event>)
    returns (w1: World, hist1: History)
    requires Kept(w) && events == [e] + more && o in Chronicle(w, hist, events).seen
    requires o !in hist.seen && !InSight(w, o)
    ensures Step(w, e) == Next(w1) && Kept(w1) && o in Chronicle(w1, hist1, more).seen && o !in hist1.seen
  {
    StepKeeps(w, e);
    RunFirst(w, e, more, hist);
    w1, hist1 := Step(w, e).w, Observed(w, hist, e);
  }

  /** A listener that is still open owns as many sockets as its listen asked for, but at least one,
      less the replacements that smoltcp refused it: exactly as many if it refused none. */
  lemma ListenersOwnWhatTheyAsked(local: Local, events: seq<Event>, i: nat)
    requires Run(Init(local), events).Next? ==>
               var s := Run(Init(local), events).w.s;
               && i < |s.log.replies| && s.log.replies[i].outcome.ListenerReady?
               && s.log.replies[i].outcome.h in s.listeners
    ensures Run(Init(local), events).Next?
    ensures var (s, hist) := (Run(Init(local), events).w.s, WholeHistory(local, events));
            var r := s.log.replies[i];
            && r.req < |hist.asks| && hist.asks[r.req].command.TcpListen?
            && |s.listeners[r.outcome.h].handles| + s.log.Short(r.outcome.h)
               == AtLeastOne(hist.asks[r.req].command.backlog)
  {
    EveryReplyAnswersItsRequest(local, events, i);
    InitKept(local);
    RunKeeps(Init(local), events);
  }

  // ---------------------------------------------------------------- listeners

  /** The socket an accept hands out. */
  predicate HandsOut(s: Stack, l: Handle, h: Handle, outcome: Outcome) {
    && InList(s.listeners, l, h) && Ready(s.sockets, h)
    && outcome.StreamReady? && outcome.h == h
    && Some(outcome.peer) == s.sockets[h].tcp.remote
    && outcome.local == (if s.sockets[h].tcp.local.Some? then s.sockets[h].tcp.local.value else s.listeners[l].addr)
  }

  /** Answering an accept hands out a connected socket of that listener with its own endpoints, under
      empty channels; the socket leaves the list, and with a replacement in place the list is as long
      as before and the newcomer listens on the listener's address. */
  lemma AcceptIsAnswered(s: Stack, l: Handle, i: nat, req: nat, f: Foreign)
    requires Owned(s) && l in s.listeners && i < |s.listeners[l].handles|
    requires Ready(s.sockets, s.listeners[l].handles[i])
    ensures var t := AcceptAt(s, l, i, req, f);
            var h := s.listeners[l].handles[i];
            && |t.log.replies| == |s.log.replies| + 1
            && t.log.replies[|s.log.replies|].req == req
            && HandsOut(s, l, h, t.log.replies[|s.log.replies|].outcome)
            && h in t.tcpStates && t.tcpStates[h] == NewTcpState()
            && l in t.listeners && h !in t.listeners[l].handles
            && (0 !in f.refused ==>
                  && |t.listeners[l].handles| == |s.listeners[l].handles|
                  && var added := t.listeners[l].handles[|t.listeners[l].handles| - 1];
                     added !in s.sockets && added in t.sockets
                     && t.sockets[added] == ListeningSocket(s.listeners[l].addr))
  {
    var hs := s.listeners[l].handles;
    assert InList(s.listeners, l, hs[i]);
    RemovingKeepsDistinct(hs, i);
  }

  /** Of two waiting accepts on one listener the later one is answered first and the earlier never:
      queueing drops it. */
  lemma SecondAcceptReplacesFirst(s: Stack, l: Handle, f: Foreign, g: Foreign)
    requires ListedLive(s, l) && l in s.listeners && FirstReady(s.sockets, s.listeners[l].handles).None?
    ensures var first := AcceptStream(s, l, f);
            var second := AcceptStream(first, l, g);
            && second.log.replies == s.log.replies
            && second.pending == s.pending[l := AcceptOp(s.log.requests + 1)]
            && s.log.requests in second.log.dropped
  {
    var first := AcceptStream(s, l, f);
    assert FirstReady(first.sockets, first.listeners[l].handles).None?;
    assert first.log.Asked().Dropped(s.log.requests).dropped[|first.log.dropped|] == s.log.requests;
  }

  /** Closing a listener closes those of its sockets that still listen, and touches no other. */
  lemma ListenerCloseIsExact(s: Stack, l: Handle, h: Handle)
    requires ListedLive(s, l) && h in s.sockets
    ensures var t := CloseListener(s, l);
            && l !in t.listeners && l !in t.pending
            && t.tcpStates == s.tcpStates && t.udpStates == s.udpStates && t.log.replies == s.log.replies
            && h in t.sockets
            && if InList(s.listeners, l, h) && s.sockets[h].tcp.state == TcpState.Listen
               then IsTcp(t.sockets, h) && t.sockets[h].tcp == s.sockets[h].tcp.(state := Closed)
               else t.sockets[h] == s.sockets[h]
  {
    if InList(s.listeners, l, h) {
      assert IsTcp(s.sockets, h);
    }
  }
}
