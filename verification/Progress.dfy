/** What the stack task gets done: one pass of its loop serves every channel, a close that is queued takes
    effect, and a task that is told to stop settles everything first. */
module Progress {
  import opened Base
  import opened TcpPath
  import opened UdpPath
  import opened Stack
  import opened Ownership
  import opened Accounting
  import opened Machine
  import opened Safety
  import opened Accepting

  // ---------------------------------------------------------------- one pass of the loop

  /** The rest of a pass in which the network does nothing. */
  function RestOfPass(takes: Decision): seq<Event> {
    [PollWriteChannels(takes)] + ([EndPoll] + ([PollReadChannels] + ([Check(false)] + [])))
  }

  lemma RunFirst(w: World, e: Event, more: seq<Event>, w1: World)
    requires Step(w, e) == Next(w1)
    ensures Run(w, [e] + more) == Run(w1, more)
  {
    assert ([e] + more)[1..] == more;
  }

  predicate WritesOnce(s: Stack, t: Stack, takes: Decision) {
    StatesLive(s.sockets, s.tcpStates, s.udpStates) && t == PollWrites(s, takes)
  }

  predicate ReadsOnce(s: Stack, t: Stack) {
    StatesLive(s.sockets, s.tcpStates, s.udpStates) && t == PollReads(s)
  }

  /** Every write channel was served once, and then every read channel. */
  ghost predicate ServedOnce(s: Stack, t: Stack, takes: Decision) {
    exists m :: WritesOnce(s, m, takes) && ReadsOnce(m, t)
  }

  lemma WritesServed(w: World, takes: Decision, more: seq<Event>) returns (w1: World)
    requires Kept(w) && w.phase == Writing
    ensures Run(w, [PollWriteChannels(takes)] + ([EndPoll] + more)) == Run(w1, more)
    ensures Kept(w1) && w1.phase == Reading(false) && w1.commands == w.commands && WritesOnce(w.s, w1.s, takes)
  {
    WriteChannelsKeeps(w, takes);
    PollSteps(w, takes, map[], false);
    var v := WriteChannelsStep(w, takes).w;
    w1 := v.(phase := Reading(false));
    RunFirst(w, PollWriteChannels(takes), [EndPoll] + more, v);
    RunFirst(v, EndPoll, more, w1);
  }

  lemma ReadsServed(w: World) returns (w1: World)
    requires Kept(w) && w.phase == Reading(false)
    ensures Run(w, [PollReadChannels] + ([Check(false)] + [])) == Next(w1)
    ensures Kept(w1) && w1.phase == Waiting && w1.commands == w.commands && ReadsOnce(w.s, w1.s)
  {
    ReadChannelsKeeps(w);
    PollSteps(w, (s, d) => true, map[], false);
    var v := ReadChannelsStep(w).w;
    assert v.phase == Checking && v.commands == w.commands && ReadsOnce(w.s, v.s);
    w1 := v.(phase := Waiting);
    RunFirst(w, PollReadChannels, [Check(false)] + [], v);
    RunFirst(v, Check(false), [], w1);
  }

  lemma PassServesAll(w: World, takes: Decision) returns (w1: World)
    requires Kept(w) && w.phase == Writing
    ensures LeadsTo(w, RestOfPass(takes), w1)
    ensures Kept(w1) && w1.phase == Waiting && w1.commands == w.commands && ServedOnce(w.s, w1.s, takes)
  {
    var v := WritesServed(w, takes, [PollReadChannels] + ([Check(false)] + []));
    w1 := ReadsServed(v);
  }

  /** Being woken, the task serves the write channels and then the read channels of all sockets, once
      each, before it waits again. */
  lemma WakeServesAll(w: World, takes: Decision) returns (w1: World)
    requires Kept(w) && w.phase == Waiting
    ensures LeadsTo(w, [Wake] + RestOfPass(takes), w1)
    ensures Kept(w1) && w1.phase == Waiting && w1.commands == w.commands && ServedOnce(w.s, w1.s, takes)
  {
    var v := w.(phase := Writing);
    w1 := PassServesAll(v, takes);
    RunFirst(w, Wake, RestOfPass(takes), v);
  }

  lemma CompletionIs(w: World, h: Handle, f: Foreign)
    requires w.phase.Completing? && h in w.phase.todo && CompleteStep(w, h, f).Next?
    ensures Step(w, Complete(h, f)) == CompleteStep(w, h, f)
    ensures var w1 := CompleteStep(w, h, f).w;
            w1.phase == Completing(w.phase.todo - {h}) && w1.commands == w.commands
  {
  }

  lemma CompletesOne(w: World, h: Handle, f: Foreign) returns (w1: World)
    requires Kept(w) && w.phase.Completing? && h in w.phase.todo
    ensures Step(w, Complete(h, f)) == Next(w1)
    ensures Kept(w1) && w1.phase == Completing(w.phase.todo - {h}) && w1.commands == w.commands
  {
    CompleteKeeps(w, h, f);
    CompletionIs(w, h, f);
    w1 := CompleteStep(w, h, f).w;
  }

  /** A pass in which something changed tries every operation that was pending, in any order, and then
      the task waits again. */
  lemma {:induction false} CompletingEnds(w: World, f: Foreign) returns (w1: World)
    requires Kept(w) && w.phase.Completing?
    ensures Reaches(w, w1) && Kept(w1) && w1.phase == Waiting && w1.commands == w.commands
    decreases w.phase.todo
  {
    ReachesSelf(w);
    if w.phase.todo == {} {
      var v := w.(phase := Checking);
      w1 := w.(phase := Waiting);
      ReachesFurther(w, w, EndComplete, v);
      ReachesFurther(w, v, Check(false), w1);
    } else {
      var h :| h in w.phase.todo;
      var next := CompletesOne(w, h, f);
      w1 := CompletingEnds(next, f);
      ReachesFurther(w, w, Complete(h, f), next);
      ReachesOn(w, next, w1);
    }
  }

  // ---------------------------------------------------------------- commands

  /** The next command is handled and the pass completed. */
  lemma CommandIsHandled(w: World, f: Foreign, takes: Decision) returns (w1: World)
    requires Kept(w) && w.phase == Waiting && w.commands != []
    ensures Reaches(w, w1) && Kept(w1) && w1.phase == Waiting && w1.commands == w.commands[1..]
  {
    TakeKeeps(w, f);
    var t := TakeStep(w, f).w;
    ReachesSelf(w);
    ReachesFurther(w, w, TakeCommand(f), t);
    w1 := PassServesAll(t, takes);
    ReachesOn(w, t, w1);
  }

  /** Commands are handled in the order in which they were queued, and each one comes up. */
  lemma {:induction false} CommandComesUp(w: World, n: nat, f: Foreign, takes: Decision) returns (w1: World)
    requires Kept(w) && w.phase == Waiting && n <= |w.commands|
    ensures Reaches(w, w1) && Kept(w1) && w1.phase == Waiting && w1.commands == w.commands[n..]
    decreases n
  {
    if n == 0 {
      w1 := w;
      ReachesSelf(w);
    } else {
      var next := CommandIsHandled(w, f, takes);
      w1 := CommandComesUp(next, n - 1, f, takes);
      ReachesOn(w, next, w1);
    }
  }

  /** What the close did. */
  predicate TookEffect(s: Stack, c: Command) {
    match c
    case TcpClose(h) => h !in s.tcpStates
    case TcpListenerClose(l) => l !in s.listeners && l !in s.pending
    case UdpClose(h) => h !in s.udpStates
    case _ => false
  }

  lemma CloseHasEffect(s: Stack, c: Command, f: Foreign)
    requires Looks(s, c) && (c.TcpClose? || c.TcpListenerClose? || c.UdpClose?)
    ensures TookEffect(Dispatch(s, c, f), c)
  {
    match c
    case TcpClose(h) => assert h !in CloseStream(s, h).tcpStates;
    case TcpListenerClose(l) => assert l !in CloseListener(s, l).listeners && l !in CloseListener(s, l).pending;
    case UdpClose(h) => assert h !in CloseUdp(s, h).udpStates;
  }

  lemma HeadHasEffect(w: World, c: Command, f: Foreign) returns (w1: World)
    requires Kept(w) && w.phase == Waiting && w.commands != [] && w.commands[0] == c
    requires c.TcpClose? || c.TcpListenerClose? || c.UdpClose?
    ensures Step(w, TakeCommand(f)) == Next(w1) && TookEffect(w1.s, c)
  {
    TakeKeeps(w, f);
    CloseHasEffect(w.s, c, f);
    w1 := TakeStep(w, f).w;
  }

  lemma Submitted(w: World, c: Command)
    requires Kept(w) && w.phase == Waiting && |w.commands| < COMMAND_CHANNEL_CAPACITY
    requires FromHolder(IssuedBy(w.s.log.replies), c)
    ensures var w1 := w.(commands := w.commands + [c]); Step(w, Submit(c)) == Next(w1) && Kept(w1)
  {
    StepKeeps(w, Submit(c));
  }

  /** A holder's close that finds room in the command queue is queued, whatever is queued before it, and
      takes effect in its turn. */
  lemma CloseTakesEffect(w: World, c: Command, f: Foreign, takes: Decision) returns (w1: World)
    requires Kept(w) && w.phase == Waiting && |w.commands| < COMMAND_CHANNEL_CAPACITY
    requires FromHolder(IssuedBy(w.s.log.replies), c) && (c.TcpClose? || c.TcpListenerClose? || c.UdpClose?)
    ensures Step(w, Submit(c)).Next? && c in Step(w, Submit(c)).w.commands
    ensures Reaches(Step(w, Submit(c)).w, w1) && TookEffect(w1.s, c)
  {
    Submitted(w, c);
    var v := w.(commands := w.commands + [c]);
    var up := CommandComesUp(v, |w.commands|, f, takes);
    w1 := HeadHasEffect(up, c, f);
    ReachesFurther(v, up, TakeCommand(f), w1);
  }

  // ---------------------------------------------------------------- the end

  /** Every request that waits in `pending` is answered with an abort. */
  ghost predicate AllAborted(pending: map<Handle, PendingOp>, replies: seq<Reply>) {
    forall h <- pending :: Reply(pending[h].req, Failed(ConnectionAborted)) in replies
  }

  /** Every request that waits in `pending` is dropped. */
  ghost predicate AllDropped(pending: map<Handle, PendingOp>, dropped: seq<nat>) {
    forall h <- pending :: pending[h].req in dropped
  }

  lemma FailsOne(w: World, h: Handle)
    requires Kept(w) && w.phase == Failing && h in w.s.pending
    ensures Step(w, Fail(h)) == Next(FailStep(w, h)) && Kept(FailStep(w, h))
    ensures var w1 := FailStep(w, h);
            && w1.phase == Failing && w1.s.pending == w.s.pending - {h}
            && w1.s.log.replies == w.s.log.replies + [Reply(w.s.pending[h].req, Failed(ConnectionAborted))]
  {
    FailEventKeeps(w, h);
  }

  lemma DropsOne(w: World, h: Handle)
    requires Kept(w) && w.phase == Dropping && h in w.s.pending
    ensures Step(w, Drop(h)) == Next(DropStep(w, h)) && Kept(DropStep(w, h))
    ensures var w1 := DropStep(w, h);
            && w1.phase == Dropping && w1.s.pending == w.s.pending - {h}
            && w1.s.log.dropped == w.s.log.dropped + [w.s.pending[h].req] && w1.s.log.replies == w.s.log.replies
  {
    DropEventKeeps(w, h);
  }

  lemma Returns(w: World)
    requires (w.phase == Failing || w.phase == Dropping) && w.s.pending == map[]
    ensures var w1 := ReturnStep(w);
            Step(w, Return) == Next(w1) && w1.phase == Exited && w1.s.log == w.s.log
  {
    LeaveSteps(w, 0);
  }

  lemma {:induction false} FailsAll(w: World) returns (w1: World)
    requires Kept(w) && w.phase == Failing
    ensures Reaches(w, w1) && w1.phase == Exited
    ensures AllAborted(w.s.pending, w1.s.log.replies) && w.s.log.replies <= w1.s.log.replies
    decreases w.s.pending.Keys
  {
    ReachesSelf(w);
    if w.s.pending == map[] {
      Returns(w);
      w1 := ReturnStep(w);
      ReachesFurther(w, w, Return, w1);
    } else {
      var h :| h in w.s.pending;
      FailsOne(w, h);
      var next := FailStep(w, h);
      w1 := FailsAll(next);
      ReachesFurther(w, w, Fail(h), next);
      ReachesOn(w, next, w1);
      AbortedToo(w.s.pending, h, next.s.log.replies, w1.s.log.replies);
    }
  }

  lemma AbortedToo(pending: map<Handle, PendingOp>, h: Handle, replies: seq<Reply>, all: seq<Reply>)
    requires h in pending && AllAborted(pending - {h}, all) && replies <= all
    requires Reply(pending[h].req, Failed(ConnectionAborted)) in replies
    ensures AllAborted(pending, all)
  {
    forall k | k in pending
      ensures Reply(pending[k].req, Failed(ConnectionAborted)) in all
    {
      assert k != h ==> k in pending - {h} && (pending - {h})[k] == pending[k];
    }
  }

  lemma {:induction false} DropsAll(w: World) returns (w1: World)
    requires Kept(w) && w.phase == Dropping
    ensures Reaches(w, w1) && w1.phase == Exited && w1.s.log.replies == w.s.log.replies
    ensures AllDropped(w.s.pending, w1.s.log.dropped) && w.s.log.dropped <= w1.s.log.dropped
    decreases w.s.pending.Keys
  {
    ReachesSelf(w);
    if w.s.pending == map[] {
      Returns(w);
      w1 := ReturnStep(w);
      ReachesFurther(w, w, Return, w1);
    } else {
      var h :| h in w.s.pending;
      DropsOne(w, h);
      var next := DropStep(w, h);
      w1 := DropsAll(next);
      ReachesFurther(w, w, Drop(h), next);
      ReachesOn(w, next, w1);
      DroppedToo(w.s.pending, h, next.s.log.dropped, w1.s.log.dropped);
    }
  }

  lemma DroppedToo(pending: map<Handle, PendingOp>, h: Handle, dropped: seq<nat>, all: seq<nat>)
    requires h in pending && AllDropped(pending - {h}, all) && dropped <= all && pending[h].req in dropped
    ensures AllDropped(pending, all)
  {
    forall k | k in pending
      ensures pending[k].req in all
    {
      assert k != h ==> k in pending - {h} && (pending - {h})[k] == pending[k];
    }
  }

  /** A task that finds the connection to the proxy lost can end at once, and has then told everybody who
      waited that the operation was aborted. */
  lemma LostLinkEndsTask(w: World) returns (w1: World)
    requires Kept(w) && w.phase == Checking
    ensures Step(w, Check(true)).Next? && Reaches(Step(w, Check(true)).w, w1) && w1.phase == Exited
    ensures AllAborted(w.s.pending, w1.s.log.replies) && w.s.log.replies <= w1.s.log.replies
  {
    StepKeeps(w, Check(true));
    w1 := FailsAll(Step(w, Check(true)).w);
  }

  /** A task whose last command sender is gone ends too, but drops those who wait without an answer. */
  lemma DisconnectEndsTask(w: World) returns (w1: World)
    requires Kept(w) && w.phase == Waiting && w.commands == []
    ensures Step(w, Disconnect).Next? && Reaches(Step(w, Disconnect).w, w1) && w1.phase == Exited
    ensures AllDropped(w.s.pending, w1.s.log.dropped) && w1.s.log.replies == w.s.log.replies
  {
    StepKeeps(w, Disconnect);
    w1 := DropsAll(Step(w, Disconnect).w);
  }
}
