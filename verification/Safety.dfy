/** Safety of the stack task over whole runs: no lookup fails, handles are handed out once, requests
    are answered at most once, listeners keep their backlog and ports. */
module Safety {
  import opened Base
  import opened UdpPath
  import opened Stack
  import opened Ownership
  import opened Accounting
  import opened Machine
  import Connection

  ghost predicate CommandsHeld(commands: seq<Command>, issued: Issued) {
    forall c :: c in commands ==> FromHolder(issued, c)
  }

  ghost predicate StackKept(s: Stack) {
    Owned(s) && Accounted(s.pending, s.log) && ListenersSound(s.listeners, s.log)
  }

  ghost predicate Kept(w: World) {
    && StackKept(w.s)
    && CommandsHeld(w.commands, IssuedBy(w.s.log.replies))
    && (w.phase == Exited ==> w.s.pending == map[] && w.s.tcpStates == map[] && w.s.udpStates == map[])
  }

  // ---------------------------------------------------------------- replies are never taken back

  lemma {:induction false} IssuedGrows(replies: seq<Reply>, more: seq<Reply>)
    ensures var i, j := IssuedBy(replies), IssuedBy(replies + more);
            i.streams <= j.streams && i.udps <= j.udps && i.listeners <= j.listeners
    decreases |more|
  {
    if more == [] {
      assert replies + more == replies;
    } else {
      var n := |more| - 1;
      IssuedGrows(replies, more[..n]);
      ReplyIssues(replies + more[..n], more[n]);
      assert replies + more == (replies + more[..n]) + [more[n]];
    }
  }

  lemma StillHeld(commands: seq<Command>, replies: seq<Reply>, replies1: seq<Reply>)
    requires CommandsHeld(commands, IssuedBy(replies)) && replies <= replies1
    ensures CommandsHeld(commands, IssuedBy(replies1))
  {
    IssuedGrows(replies, replies1[|replies|..]);
    assert replies1 == replies + replies1[|replies|..];
  }

  lemma ListenReplies(s: Stack, addr: SocketAddr, backlog: nat, f: Foreign)
    ensures s.log.replies <= StartListening(s, addr, backlog, f).log.replies
  {
    var handles := NewHandles(s.sockets.Keys, f, 0, AtLeastOne(backlog));
    assert s.log.replies <= AddListener(s, addr, handles).log.replies;
  }

  lemma DispatchReplies(s: Stack, c: Command, f: Foreign)
    requires Looks(s, c)
    ensures s.log.replies <= Dispatch(s, c, f).log.replies
  {
    match c
    case TcpAccept(l) => assert s.log.replies <= AcceptStream(s, l, f).log.replies;
    case TcpListen(addr, backlog) => ListenReplies(s, addr, backlog, f);
    case _ =>
  }

  lemma CompleteReplies(s: Stack, h: Handle, f: Foreign)
    requires PendingLooks(s, h)
    ensures s.log.replies <= CompleteOne(s, h, f).log.replies
  {
    if h in s.pending && s.pending[h].AcceptOp? {
      assert s.log.replies <= CompleteAccept(s, h, f).log.replies;
    }
  }

  // ---------------------------------------------------------------- the remaining steps

  lemma AbandonKeepsOwned(s: Stack, h: Handle, log: Log)
    requires Owned(s) && h in s.pending
    requires IssuedBy(log.replies) == IssuedBy(s.log.replies) && IssuedOnce(log.replies)
    ensures Owned(Abandon(s, h, log))
  {
    if s.pending[h].ConnectOp? {
      Refused(s, Abandon(s, h, log), h, IssuedBy(s.log.replies));
    }
  }

  lemma FailKeepsOwned(s: Stack, h: Handle)
    requires Owned(s) && h in s.pending
    ensures Owned(FailOne(s, h))
  {
    ReplyIssues(s.log.replies, Reply(s.pending[h].req, Failed(ConnectionAborted)));
    AbandonKeepsOwned(s, h, FailOne(s, h).log);
  }

  lemma FailKeeps(s: Stack, h: Handle)
    requires StackKept(s) && h in s.pending
    ensures StackKept(FailOne(s, h))
  {
    FailKeepsOwned(s, h);
    AnswerAccounts(s.pending, s.log, FailOne(s, h).log, h, Failed(ConnectionAborted));
  }

  lemma DropKeeps(s: Stack, h: Handle)
    requires StackKept(s) && h in s.pending
    ensures StackKept(DropOne(s, h))
  {
    AbandonKeepsOwned(s, h, DropOne(s, h).log);
    DropAccounts(s.pending, s.log, h);
  }

  lemma ExitKeepsOwned(s: Stack)
    requires Owned(s) && s.pending == map[]
    ensures Owned(LetGoAll(s))
  {
  }

  lemma PollKeepsOwned(s: Stack, sockets1: map<Handle, Socket>, reported: bool)
    requires Owned(s) && LegalPoll(s.sockets, sockets1, reported)
    ensures Owned(s.(sockets := sockets1))
  {
  }

  lemma PutKeepsOwned(w: World, h: Handle, c: Connection.Conn)
    requires Owned(w.s) && Channelled(w.s, h) && h in IssuedBy(w.s.log.replies).streams
    ensures Owned(Put(w, h, c).s)
  {
  }

  lemma PutUdpKeepsOwned(w: World, h: Handle, u: UdpLife)
    requires Owned(w.s) && UdpChannelled(w.s, h)
    ensures Owned(PutUdp(w, h, u).s)
  {
  }

  // ---------------------------------------------------------------- every step

  lemma TakeKeeps(w: World, f: Foreign)
    requires Kept(w)
    ensures var r := TakeStep(w, f); r.Next? && Kept(r.w)
  {
    if w.phase == Waiting && w.commands != [] {
      var c := w.commands[0];
      CommandLooks(w.s, c);
      CommandKeepsOwned(w.s, c, f);
      CommandAccounts(w.s, c, f);
      CommandKeepsSound(w.s, c, f);
      DispatchReplies(w.s, c, f);
      StillHeld(w.commands[1..], w.s.log.replies, Dispatch(w.s, c, f).log.replies);
    }
  }

  lemma CompleteKeeps(w: World, h: Handle, f: Foreign)
    requires Kept(w)
    ensures var r := CompleteStep(w, h, f); r.Next? && Kept(r.w)
  {
    if w.phase.Completing? && h in w.phase.todo {
      PendingAlwaysLooks(w.s, h);
      CompleteKeepsOwned(w.s, h, f);
      CompleteAccounts(w.s, h, f);
      CompleteKeepsSound(w.s, h, f);
      CompleteReplies(w.s, h, f);
      StillHeld(w.commands, w.s.log.replies, CompleteOne(w.s, h, f).log.replies);
    }
  }

  lemma FailStepKeeps(w: World, h: Handle)
    requires Kept(w)
    ensures Kept(FailStep(w, h))
  {
    if w.phase == Failing && h in w.s.pending {
      FailKeeps(w.s, h);
      StillHeld(w.commands, w.s.log.replies, FailOne(w.s, h).log.replies);
    }
  }

  lemma DropStepKeeps(w: World, h: Handle)
    requires Kept(w)
    ensures Kept(DropStep(w, h))
  {
    if w.phase == Dropping && h in w.s.pending {
      DropKeeps(w.s, h);
      StillHeld(w.commands, w.s.log.replies, DropOne(w.s, h).log.replies);
    }
  }

  lemma ReturnKeeps(w: World)
    requires Kept(w)
    ensures Kept(ReturnStep(w))
  {
    if w.s.pending == map[] {
      ExitKeepsOwned(w.s);
    }
  }

  lemma WriteChannelsKeeps(w: World, takes: Decision)
    requires Kept(w)
    ensures var r := WriteChannelsStep(w, takes); r.Next? && Kept(r.w)
  {
    PollWritesKeepsOwned(w.s, takes);
  }

  lemma ReadChannelsKeeps(w: World)
    requires Kept(w)
    ensures var r := ReadChannelsStep(w); r.Next? && Kept(r.w)
  {
    PollReadsKeepsOwned(w.s);
  }

  lemma PollKeeps(w: World, sockets: map<Handle, Socket>, reported: bool)
    requires Kept(w)
    ensures Kept(PollStep(w, sockets, reported))
  {
    if LegalPoll(w.s.sockets, sockets, reported) {
      PollKeepsOwned(w.s, sockets, reported);
    }
  }

  lemma TcpAppKeeps(w: World, h: Handle, a: Connection.Action)
    requires Kept(w)
    ensures Kept(TcpAppStep(w, h, a))
  {
    if Channelled(w.s, h) && h in IssuedBy(w.s.log.replies).streams {
      PutKeepsOwned(w, h, Connection.Act(Project(w, h), a));
    }
  }

  lemma UdpAppKeeps(w: World, h: Handle, a: UdpAction)
    requires Kept(w)
    ensures Kept(UdpAppStep(w, h, a))
  {
    if UdpChannelled(w.s, h) {
      PutUdpKeepsOwned(w, h, UdpAct(ProjectUdp(w, h), a));
    }
  }

  /** Steps in which the task works on its tables. */
  predicate Working(e: Event) {
    e.TakeCommand? || e.Complete? || e.PollWriteChannels? || e.PollReadChannels? || e.Poll?
  }

  predicate Leaving(e: Event) {
    e.Fail? || e.Drop? || e.Return?
  }

  lemma WorkingKeeps(w: World, e: Event)
    requires Kept(w) && Working(e)
    ensures Step(w, e).Next? && Kept(Step(w, e).w)
  {
    match e
    case TakeCommand(f) => TakeKeeps(w, f);
    case PollWriteChannels(takes) => WriteChannelsKeeps(w, takes);
    case Poll(sockets, reported) => PollKeeps(w, sockets, reported);
    case PollReadChannels => ReadChannelsKeeps(w);
    case Complete(h, f) => CompleteKeeps(w, h, f);
  }

  lemma LeavingKeeps(w: World, e: Event)
    requires Kept(w) && Leaving(e)
    ensures Step(w, e).Next? && Kept(Step(w, e).w)
  {
    match e
    case Fail(h) => FailEventKeeps(w, h);
    case Drop(h) => DropEventKeeps(w, h);
    case Return => ReturnEventKeeps(w);
  }

  lemma FailEventKeeps(w: World, h: Handle)
    requires Kept(w)
    ensures Step(w, Fail(h)) == Next(FailStep(w, h)) && Kept(FailStep(w, h))
  {
    LeaveSteps(w, h);
    FailStepKeeps(w, h);
  }

  lemma DropEventKeeps(w: World, h: Handle)
    requires Kept(w)
    ensures Step(w, Drop(h)) == Next(DropStep(w, h)) && Kept(DropStep(w, h))
  {
    LeaveSteps(w, h);
    DropStepKeeps(w, h);
  }

  lemma ReturnEventKeeps(w: World)
    requires Kept(w)
    ensures Step(w, Return) == Next(ReturnStep(w)) && Kept(ReturnStep(w))
  {
    LeaveSteps(w, 0);
    ReturnKeeps(w);
  }

  lemma TcpAppStepKeeps(w: World, h: Handle, a: Connection.Action)
    requires Kept(w)
    ensures Step(w, TcpApp(h, a)) == Next(TcpAppStep(w, h, a)) && Kept(TcpAppStep(w, h, a))
  {
    TcpAppKeeps(w, h, a);
  }

  lemma UdpAppStepKeeps(w: World, h: Handle, a: UdpAction)
    requires Kept(w)
    ensures Step(w, UdpApp(h, a)) == Next(UdpAppStep(w, h, a)) && Kept(UdpAppStep(w, h, a))
  {
    UdpAppKeeps(w, h, a);
  }

  lemma SubmitKeeps(w: World, c: Command)
    requires Kept(w)
    ensures Kept(SubmitStep(w, c))
  {
  }

  lemma PhaseKeeps(w: World, phase: Phase)
    requires Kept(w) && (phase == Exited ==> w.phase == Exited)
    ensures Kept(w.(phase := phase))
  {
  }

  lemma OtherKeeps(w: World, e: Event)
    requires Kept(w) && !Working(e) && !Leaving(e) && !e.TcpApp? && !e.UdpApp?
    ensures Step(w, e).Next? && Kept(Step(w, e).w)
  {
    match e
    case Submit(c) => SubmitKeeps(w, c);
    case _ => PhaseKeeps(w, PhaseStep(w.phase, w.commands == [], e));
  }

  lemma StepKeeps(w: World, e: Event)
    requires Kept(w)
    ensures Step(w, e).Next? && Kept(Step(w, e).w)
  {
    if Working(e) {
      WorkingKeeps(w, e);
    } else if Leaving(e) {
      LeavingKeeps(w, e);
    } else if e.TcpApp? {
      TcpAppStepKeeps(w, e.h, e.tcpAction);
    } else if e.UdpApp? {
      UdpAppStepKeeps(w, e.h, e.udpAction);
    } else {
      OtherKeeps(w, e);
    }
  }

  lemma InitKept(local: Local)
    ensures Kept(Init(local))
  {
  }

  /** No run of the task panics, and every state it reaches keeps the invariant. */
  lemma {:induction false} RunKeeps(w: World, events: seq<Event>)
    requires Kept(w)
    ensures Run(w, events).Next? && Kept(Run(w, events).w)
    decreases |events|
  {
    if events != [] {
      StepKeeps(w, events[0]);
      RunKeeps(Step(w, events[0]).w, events[1..]);
    }
  }
}
