/** Conservation over whole runs of the machine, for every TCP connection in it. */
module Conservation {
  import opened UdpPath
  import opened Stack
  import opened Ownership
  import opened Machine
  import opened Safety
  import opened Refinement
  import C = Connection

  /** Every connection of the machine conserves its bytes. */
  ghost predicate Conserves(w: World) {
    && Pristine(w.s.sockets, w.s.listeners)
    && (forall h :: h in w.tcpApps ==> Channelled(w.s, h))
    && (forall h :: Channelled(w.s, h) ==> C.ConnInv(Project(w, h)))
  }

  // ---------------------------------------------------------------- clean births, step by step

  lemma TakeGrowsClean(w: World, f: Foreign)
    requires Kept(w) && Pristine(w.s.sockets, w.s.listeners) && TakeStep(w, f).Next?
    ensures GrowsClean(w.s, TakeStep(w, f).w.s)
  {
    if w.phase == Waiting && w.commands != [] {
      CommandGrowsClean(w.s, w.commands[0], f);
    }
  }

  lemma WriteChannelsGrowClean(s: Stack, takes: Decision)
    requires Owned(s) && Pristine(s.sockets, s.listeners)
    ensures GrowsClean(s, PollWrites(s, takes))
  {
  }

  lemma ReadChannelsGrowClean(s: Stack)
    requires Owned(s) && Pristine(s.sockets, s.listeners)
    ensures GrowsClean(s, PollReads(s))
  {
  }

  lemma PollGrowsClean(w: World, sockets: map<Handle, Socket>, reported: bool)
    requires Kept(w) && Pristine(w.s.sockets, w.s.listeners)
    ensures GrowsClean(w.s, PollStep(w, sockets, reported).s)
  {
    if LegalPoll(w.s.sockets, sockets, reported) {
      PollStaysPristine(w.s, sockets, reported);
    }
  }

  lemma CompletingGrowsClean(w: World, h: Handle, f: Foreign)
    requires Kept(w) && Pristine(w.s.sockets, w.s.listeners) && CompleteStep(w, h, f).Next?
    ensures GrowsClean(w.s, CompleteStep(w, h, f).w.s)
  {
    if w.phase.Completing? && h in w.phase.todo {
      CompleteGrowsClean(w.s, h, f);
    }
  }

  lemma WorkingGrowsClean(w: World, e: Event)
    requires Kept(w) && Pristine(w.s.sockets, w.s.listeners) && Working(e) && Step(w, e).Next?
    ensures GrowsClean(w.s, Step(w, e).w.s)
  {
    match e
    case TakeCommand(f) => TakeGrowsClean(w, f);
    case Complete(h, f) => CompletingGrowsClean(w, h, f);
    case _ => PollingGrowsClean(w, e);
  }

  lemma PollingGrowsClean(w: World, e: Event)
    requires Kept(w) && Pristine(w.s.sockets, w.s.listeners) && Step(w, e).Next?
    requires e.PollWriteChannels? || e.Poll? || e.PollReadChannels?
    ensures GrowsClean(w.s, Step(w, e).w.s)
  {
    match e
    case PollWriteChannels(takes) => WriteEventGrowsClean(w, takes);
    case Poll(sockets, reported) => PollGrowsClean(w, sockets, reported);
    case PollReadChannels => ReadEventGrowsClean(w);
  }

  lemma WriteEventGrowsClean(w: World, takes: Decision)
    requires Kept(w) && Pristine(w.s.sockets, w.s.listeners) && WriteChannelsStep(w, takes).Next?
    ensures GrowsClean(w.s, WriteChannelsStep(w, takes).w.s)
  {
    if w.phase == Writing {
      WriteChannelsGrowClean(w.s, takes);
    } else {
      NothingNew(w.s, w.s);
    }
  }

  lemma ReadEventGrowsClean(w: World)
    requires Kept(w) && Pristine(w.s.sockets, w.s.listeners) && ReadChannelsStep(w).Next?
    ensures GrowsClean(w.s, ReadChannelsStep(w).w.s)
  {
    if w.phase.Reading? {
      ReadChannelsGrowClean(w.s);
    } else {
      NothingNew(w.s, w.s);
    }
  }

  /** Neither sockets nor lists change, and no channels come into being. */
  lemma NothingNew(s: Stack, t: Stack)
    requires Pristine(s.sockets, s.listeners) && t.sockets == s.sockets && t.listeners == s.listeners
    requires forall h :: h in t.tcpStates || h in t.past.tcp ==> h in s.tcpStates || h in s.past.tcp
    ensures GrowsClean(s, t)
  {
  }

  lemma LeavingGrowsClean(w: World, e: Event)
    requires Pristine(w.s.sockets, w.s.listeners) && Leaving(e) && Step(w, e).Next?
    ensures GrowsClean(w.s, Step(w, e).w.s)
  {
    match e
    case Fail(h) => FailGrowsClean(w, h);
    case Drop(h) => DropGrowsClean(w, h);
    case Return => NothingNew(w.s, ReturnStep(w).s);
  }

  lemma FailGrowsClean(w: World, h: Handle)
    requires Pristine(w.s.sockets, w.s.listeners)
    ensures GrowsClean(w.s, FailStep(w, h).s)
  {
  }

  lemma DropGrowsClean(w: World, h: Handle)
    requires Pristine(w.s.sockets, w.s.listeners)
    ensures GrowsClean(w.s, DropStep(w, h).s)
  {
  }

  lemma TcpAppGrowsClean(w: World, h: Handle, a: C.Action)
    requires Pristine(w.s.sockets, w.s.listeners)
    ensures GrowsClean(w.s, TcpAppStep(w, h, a).s)
  {
  }

  lemma UdpAppGrowsClean(w: World, h: Handle, a: UdpAction)
    requires Pristine(w.s.sockets, w.s.listeners)
    ensures GrowsClean(w.s, UdpAppStep(w, h, a).s)
  {
  }

  lemma OtherGrowsClean(w: World, e: Event)
    requires Pristine(w.s.sockets, w.s.listeners) && !Working(e) && !Leaving(e) && Step(w, e).Next?
    ensures GrowsClean(w.s, Step(w, e).w.s)
  {
    match e
    case TcpApp(h, tcpAction) => TcpAppGrowsClean(w, h, tcpAction);
    case UdpApp(h, udpAction) => UdpAppGrowsClean(w, h, udpAction);
    case _ => NothingNew(w.s, w.s);
  }

  lemma StepGrowsClean(w: World, e: Event)
    requires Kept(w) && Pristine(w.s.sockets, w.s.listeners) && Step(w, e).Next?
    ensures GrowsClean(w.s, Step(w, e).w.s)
  {
    if Working(e) {
      WorkingGrowsClean(w, e);
    } else if Leaving(e) {
      LeavingGrowsClean(w, e);
    } else {
      OtherGrowsClean(w, e);
    }
  }

  // ---------------------------------------------------------------- conservation

  /** No step invents an application for a socket without channels. */
  lemma AppsStay(w: World, e: Event, h: Handle)
    requires Kept(w) && Step(w, e).Next? && h in Step(w, e).w.tcpApps
    ensures h in w.tcpApps || Channelled(w.s, h)
  {
  }

  lemma BirthConserves(w: World, w1: World, h: Handle)
    requires BornClean(w.s, w1.s) && Channelled(w1.s, h) && !(h in w.s.tcpStates || h in w.s.past.tcp)
    requires h !in w1.tcpApps
    ensures C.ConnInv(Project(w1, h))
  {
  }

  lemma StepConserves(w: World, e: Event)
    requires Kept(w) && Conserves(w)
    ensures Step(w, e).Next? && Conserves(Step(w, e).w)
  {
    StepKeeps(w, e);
    var w1 := Step(w, e).w;
    StepGrowsClean(w, e);
    forall h | h in w1.tcpApps
      ensures Channelled(w1.s, h)
    {
      AppsStay(w, e, h);
      StepRefines(w, e, h);
    }
    forall h | Channelled(w1.s, h)
      ensures C.ConnInv(Project(w1, h))
    {
      if Channelled(w.s, h) {
        StepRefines(w, e, h);
        C.RunKeepsConn(Project(w, h), Seen(w, e, h));
      } else {
        if h in w1.tcpApps {
          AppsStay(w, e, h);
        }
        BirthConserves(w, w1, h);
      }
    }
  }

  lemma {:induction false} RunConserves(w: World, events: seq<Event>)
    requires Kept(w) && Conserves(w)
    ensures Run(w, events).Next? && Kept(Run(w, events).w) && Conserves(Run(w, events).w)
    decreases |events|
  {
    if events != [] {
      StepKeeps(w, events[0]);
      StepConserves(w, events[0]);
      RunConserves(Step(w, events[0]).w, events[1..]);
    }
  }
}
