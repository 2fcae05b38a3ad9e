/** Proxy commands from concurrent callers: one id counter, one map from id to waiting caller, one
    link to the proxy and back.  Each event is one atomic step of one task. */
module Correlation {

  const ID_SPACE: nat := 0x1_0000_0000_0000_0000

  datatype Kind = AddRoute | RemoveRoute | GetIfaceStats

  datatype Command = Command(kind: Kind, id: nat)

  datatype Response = OkResponse(id: nat) | ErrorResponse(id: nat) | IfaceStats(id: nat)

  /** `Abandoned` callers returned an error or were cancelled. */
  datatype Stage = Started | Registered | Sent | Answered(r: Response) | Abandoned

  /** Whether the proxy made the foreign call for a command, and whether that succeeded. */
  datatype Call = Uncalled | Called(ok: bool)

  datatype Caller = Caller(kind: Kind, id: nat, stage: Stage, call: Call)

  /** A command or response on its way, with the caller it stems from, which is not on the wire. */
  datatype Outgoing = Outgoing(command: Command, from: nat)
  datatype Incoming = Incoming(response: Response, from: nat)

  /** `next` is the 64-bit counter, `waiting` the map of response senders. */
  datatype Calls = Calls(
    next: nat, callers: seq<Caller>, waiting: map<nat, nat>,
    toProxy: seq<Outgoing>, toLibrary: seq<Incoming>)

  datatype Event =
    | Start(kind: Kind)
    | Register(k: nat)
    | Send(k: nat)
    | SendFails(k: nat)
    | Handle(ok: bool)
    | Deliver
    | Cancel(k: nat)
    | LinkLost

  function Init(): Calls {
    Calls(1, [], map[], [], [])
  }

  /** The proxy's answer, given whether the foreign call succeeded. */
  function HandleCommand(c: Command, ok: bool): Response {
    if !ok then ErrorResponse(c.id)
    else if c.kind.GetIfaceStats? then IfaceStats(c.id)
    else OkResponse(c.id)
  }

  /** What the caller's own match does not call an unexpected response. */
  predicate Expected(kind: Kind, r: Response) {
    match r
    case ErrorResponse(_) => true
    case OkResponse(_) => !kind.GetIfaceStats?
    case IfaceStats(_) => kind.GetIfaceStats?
  }

  predicate Live(stage: Stage) {
    stage.Started? || stage.Registered? || stage.Sent?
  }

  predicate Awaits(stage: Stage) {
    stage.Registered? || stage.Sent?
  }

  function SetStage(callers: seq<Caller>, k: nat, stage: Stage): seq<Caller>
    requires k < |callers|
  {
    callers[k := callers[k].(stage := stage)]
  }

  function SetCall(callers: seq<Caller>, k: nat, ok: bool): seq<Caller> {
    if k < |callers| then callers[k := callers[k].(call := Called(ok))] else callers
  }

  /** Inserting drops the sender that was there: that caller, if it still waits, gets an error. */
  function Displaced(s: Calls, id: nat, k: nat): seq<Caller>
    requires k < |s.callers|
  {
    var callers := SetStage(s.callers, k, Registered);
    if id in s.waiting && s.waiting[id] < |callers| && s.waiting[id] != k && Awaits(callers[s.waiting[id]].stage)
    then SetStage(callers, s.waiting[id], Abandoned)
    else callers
  }

  function Step(s: Calls, e: Event): Calls {
    match e
    case Start(kind) =>
      s.(next := (s.next + 1) % ID_SPACE, callers := s.callers + [Caller(kind, s.next, Started, Uncalled)])
    case Register(k) =>
      if k < |s.callers| && s.callers[k].stage.Started? then
        s.(callers := Displaced(s, s.callers[k].id, k), waiting := s.waiting[s.callers[k].id := k])
      else s
    case Send(k) =>
      if k < |s.callers| && s.callers[k].stage.Registered? then
        var c := s.callers[k];
        s.(callers := SetStage(s.callers, k, Sent),
           toProxy := s.toProxy + [Outgoing(Command(c.kind, c.id), k)])
      else s
    case SendFails(k) =>
      if k < |s.callers| && s.callers[k].stage.Registered? then
        s.(callers := SetStage(s.callers, k, Abandoned))
      else s
    case Handle(ok) =>
      if s.toProxy != [] then
        var c := s.toProxy[0];
        s.(callers := SetCall(s.callers, c.from, ok), toProxy := s.toProxy[1..],
           toLibrary := s.toLibrary + [Incoming(HandleCommand(c.command, ok), c.from)])
      else s
    case Deliver =>
      if s.toLibrary != [] then Delivered(s.(toLibrary := s.toLibrary[1..]), s.toLibrary[0].response) else s
    case Cancel(k) =>
      if k < |s.callers| && Live(s.callers[k].stage) then
        s.(callers := SetStage(s.callers, k, Abandoned))
      else s
    case LinkLost =>
      s.(toProxy := [], toLibrary := [])
  }

  /** The reader removes the sender registered under the response's id and uses it. */
  function Delivered(s: Calls, r: Response): Calls {
    if r.id !in s.waiting then s
    else
      var k := s.waiting[r.id];
      if k < |s.callers| && Awaits(s.callers[k].stage) then
        s.(waiting := s.waiting - {r.id}, callers := SetStage(s.callers, k, Answered(r)))
      else
        s.(waiting := s.waiting - {r.id})
  }

  function Run(s: Calls, es: seq<Event>): Calls
    decreases |es|
  {
    if es == [] then s else Run(Step(s, es[0]), es[1..])
  }

  // ---------------------------------------------------------------- the condition

  /** Among the latest 2^64 commands. */
  predicate Recent(s: Calls, k: nat) {
    |s.callers| <= k + ID_SPACE
  }

  /** Every command that is not finished, or still on its way, is recent. */
  predicate AllRecent(s: Calls) {
    && (forall k :: 0 <= k < |s.callers| && Live(s.callers[k].stage) ==> Recent(s, k))
    && (forall i :: 0 <= i < |s.toProxy| ==> Recent(s, s.toProxy[i].from))
    && (forall i :: 0 <= i < |s.toLibrary| ==> Recent(s, s.toLibrary[i].from))
  }

  /** It is so before each step of a run. */
  predicate RecentThroughout(s: Calls, es: seq<Event>)
    decreases |es|
  {
    AllRecent(s) && (es != [] ==> RecentThroughout(Step(s, es[0]), es[1..]))
  }

  // ---------------------------------------------------------------- the invariant

  predicate Numbered(s: Calls) {
    && s.next == (1 + |s.callers|) % ID_SPACE
    && (forall k :: 0 <= k < |s.callers| ==> s.callers[k].id == (1 + k) % ID_SPACE)
  }

  /** The response is to this caller's command: an error if and only if its own call failed, statistics
      if and only if it asked for them and its call succeeded. */
  predicate Proper(c: Caller, r: Response) {
    && r.id == c.id && c.call.Called?
    && (r.ErrorResponse? <==> !c.call.ok)
    && (r.IfaceStats? <==> c.call.ok && c.kind.GetIfaceStats?)
  }

  predicate OnItsWay(callers: seq<Caller>, from: nat) {
    from < |callers| && (callers[from].stage.Sent? || callers[from].stage.Abandoned?)
  }

  predicate OutgoingSound(callers: seq<Caller>, toProxy: seq<Outgoing>) {
    forall i :: 0 <= i < |toProxy| ==>
      && OnItsWay(callers, toProxy[i].from)
      && toProxy[i].command == Command(callers[toProxy[i].from].kind, callers[toProxy[i].from].id)
  }

  predicate IncomingSound(callers: seq<Caller>, toLibrary: seq<Incoming>) {
    forall i :: 0 <= i < |toLibrary| ==>
      OnItsWay(callers, toLibrary[i].from) && Proper(callers[toLibrary[i].from], toLibrary[i].response)
  }

  /** No caller has two messages under way. */
  predicate OneEach(toProxy: seq<Outgoing>, toLibrary: seq<Incoming>) {
    && (forall i, j :: 0 <= i < j < |toProxy| ==> toProxy[i].from != toProxy[j].from)
    && (forall i, j :: 0 <= i < j < |toLibrary| ==> toLibrary[i].from != toLibrary[j].from)
    && (forall i, j :: 0 <= i < |toProxy| && 0 <= j < |toLibrary| ==> toProxy[i].from != toLibrary[j].from)
  }

  predicate AnswersProper(callers: seq<Caller>) {
    forall k :: 0 <= k < |callers| && callers[k].stage.Answered? ==> Proper(callers[k], callers[k].stage.r)
  }

  /** A caller that waits is the one registered under its id. */
  predicate WaitersRegistered(callers: seq<Caller>, waiting: map<nat, nat>) {
    forall k :: 0 <= k < |callers| && Awaits(callers[k].stage) ==>
      callers[k].id in waiting && waiting[callers[k].id] == k
  }

  predicate EntriesSound(callers: seq<Caller>, waiting: map<nat, nat>) {
    forall id <- waiting :: waiting[id] < |callers| && callers[waiting[id]].id == id
  }

  /** What is on its way carries its caller's id. */
  predicate CarriesIds(callers: seq<Caller>, toProxy: seq<Outgoing>, toLibrary: seq<Incoming>) {
    && (forall i :: 0 <= i < |toProxy| ==>
          toProxy[i].from < |callers| && toProxy[i].command.id == callers[toProxy[i].from].id)
    && (forall i :: 0 <= i < |toLibrary| ==>
          toLibrary[i].from < |callers| && toLibrary[i].response.id == callers[toLibrary[i].from].id)
  }

  /** Holds in every run, whatever the ids do. */
  predicate Traced(s: Calls) {
    && Numbered(s)
    && CarriesIds(s.callers, s.toProxy, s.toLibrary)
    && WaitersRegistered(s.callers, s.waiting)
    && EntriesSound(s.callers, s.waiting)
  }

  /** Holds as long as unfinished commands are recent. */
  predicate Inv(s: Calls) {
    && Traced(s)
    && OutgoingSound(s.callers, s.toProxy)
    && IncomingSound(s.callers, s.toLibrary)
    && OneEach(s.toProxy, s.toLibrary)
    && AnswersProper(s.callers)
  }

  /** Two recent callers with the same id are one. */
  lemma RecentIdsDiffer(s: Calls, j: nat, k: nat)
    requires Numbered(s) && j < |s.callers| && k < |s.callers| && Recent(s, j) && Recent(s, k)
    requires s.callers[j].id == s.callers[k].id
    ensures j == k
  {
  }

  lemma NextId(n: nat)
    ensures ((1 + n) % ID_SPACE + 1) % ID_SPACE == (2 + n) % ID_SPACE
  {
  }

  lemma StartTraced(s: Calls, kind: Kind)
    requires Traced(s)
    ensures Traced(Step(s, Start(kind)))
  {
    NextId(|s.callers|);
    var t := Step(s, Start(kind));
    assert forall k :: 0 <= k < |s.callers| ==> t.callers[k] == s.callers[k];
  }

  lemma RegisterTraced(s: Calls, k: nat)
    requires Traced(s)
    ensures Traced(Step(s, Register(k)))
  {
  }

  lemma DeliverTraced(s: Calls)
    requires Traced(s)
    ensures Traced(Step(s, Deliver))
  {
  }

  lemma StepTraced(s: Calls, e: Event)
    requires Traced(s)
    ensures Traced(Step(s, e))
  {
    match e
    case Start(kind) => StartTraced(s, kind);
    case Register(k) => RegisterTraced(s, k);
    case Deliver => DeliverTraced(s);
    case _ =>
  }

  lemma {:induction false} RunTraced(s: Calls, es: seq<Event>)
    requires Traced(s)
    ensures Traced(Run(s, es))
    decreases |es|
  {
    if es != [] {
      StepTraced(s, es[0]);
      RunTraced(Step(s, es[0]), es[1..]);
    }
  }

  lemma StartKeeps(s: Calls, kind: Kind)
    requires Inv(s)
    ensures Inv(Step(s, Start(kind)))
  {
    StartTraced(s, kind);
    var t := Step(s, Start(kind));
    assert forall k :: 0 <= k < |s.callers| ==> t.callers[k] == s.callers[k];
  }

  lemma RegisterKeeps(s: Calls, k: nat)
    requires Inv(s)
    ensures Inv(Step(s, Register(k)))
  {
    RegisterTraced(s, k);
  }

  lemma SendKeeps(s: Calls, k: nat)
    requires Inv(s)
    ensures Inv(Step(s, Send(k)))
  {
    StepTraced(s, Send(k));
  }

  lemma SendFailKeeps(s: Calls, k: nat)
    requires Inv(s)
    ensures Inv(Step(s, SendFails(k)))
  {
    StepTraced(s, SendFails(k));
  }

  lemma CancelKeeps(s: Calls, k: nat)
    requires Inv(s)
    ensures Inv(Step(s, Cancel(k)))
  {
    StepTraced(s, Cancel(k));
  }

  lemma HandleKeeps(s: Calls, ok: bool)
    requires Inv(s)
    ensures Inv(Step(s, Handle(ok)))
  {
    StepTraced(s, Handle(ok));
  }

  lemma DeliverKeeps(s: Calls)
    requires Inv(s) && AllRecent(s)
    ensures Inv(Step(s, Deliver))
  {
    DeliverTraced(s);
    if s.toLibrary != [] {
      var r, from := s.toLibrary[0].response, s.toLibrary[0].from;
      assert Proper(s.callers[from], r);
      if r.id in s.waiting && Awaits(s.callers[s.waiting[r.id]].stage) {
        RecentIdsDiffer(s, s.waiting[r.id], from);
      }
    }
  }

  /** Only a delivery needs the condition. */
  lemma StepKeeps(s: Calls, e: Event)
    requires Inv(s) && (e.Deliver? ==> AllRecent(s))
    ensures Inv(Step(s, e))
  {
    match e
    case Start(kind) => StartKeeps(s, kind);
    case Register(k) => RegisterKeeps(s, k);
    case Send(k) => SendKeeps(s, k);
    case SendFails(k) => SendFailKeeps(s, k);
    case Handle(ok) => HandleKeeps(s, ok);
    case Deliver => DeliverKeeps(s);
    case Cancel(k) => CancelKeeps(s, k);
    case LinkLost =>
  }

  lemma {:induction false} RunKeeps(s: Calls, es: seq<Event>)
    requires Inv(s) && RecentThroughout(s, es)
    ensures Inv(Run(s, es))
    decreases |es|
  {
    if es != [] {
      StepKeeps(s, es[0]);
      RunKeeps(Step(s, es[0]), es[1..]);
    }
  }

  // ---------------------------------------------------------------- what it buys

  /** Under every interleaving, as long as unfinished commands are recent, a caller that has a
      response has the one to its own command: an error if and only if its own foreign call failed,
      otherwise statistics if it asked for them and a plain success if not. */
  lemma ResponsesMatch(es: seq<Event>, k: nat)
    requires RecentThroughout(Init(), es)
    requires var s := Run(Init(), es); k < |s.callers| && s.callers[k].stage.Answered?
    ensures var c := Run(Init(), es).callers[k];
            && c.stage.r.id == c.id && c.id == (1 + k) % ID_SPACE && Expected(c.kind, c.stage.r)
            && c.call.Called?
            && (c.stage.r.ErrorResponse? <==> !c.call.ok)
            && (c.stage.r.IfaceStats? <==> c.call.ok && c.kind.GetIfaceStats?)
            && (c.stage.r.OkResponse? <==> c.call.ok && !c.kind.GetIfaceStats?)
  {
    RunKeeps(Init(), es);
  }

  lemma EntryGoes(s: Calls)
    requires s.toLibrary != []
    ensures Step(s, Deliver).waiting == s.waiting - {s.toLibrary[0].response.id}
  {
  }

  lemma GoesToItsCaller(s: Calls)
    requires Inv(s) && AllRecent(s) && s.toLibrary != []
    ensures var i := s.toLibrary[0];
            && i.from < |s.callers|
            && Step(s, Deliver).callers ==
               if Awaits(s.callers[i.from].stage) then SetStage(s.callers, i.from, Answered(i.response)) else s.callers
  {
    var r, from := s.toLibrary[0].response, s.toLibrary[0].from;
    assert Proper(s.callers[from], r);
    if r.id in s.waiting && Awaits(s.callers[s.waiting[r.id]].stage) {
      RecentIdsDiffer(s, s.waiting[r.id], from);
    }
  }

  /** The next response goes to the caller whose command it answers if that caller still waits, and
      to nobody otherwise; no other caller changes, and the entry under its id is gone. */
  lemma DeliveryIsExact(es: seq<Event>)
    requires RecentThroughout(Init(), es)
    requires Run(Init(), es).toLibrary != []
    ensures var s := Run(Init(), es);
            var i := s.toLibrary[0];
            && i.from < |s.callers|
            && Step(s, Deliver).callers ==
               if Awaits(s.callers[i.from].stage) then SetStage(s.callers, i.from, Answered(i.response)) else s.callers
    ensures var s := Run(Init(), es); Step(s, Deliver).waiting == s.waiting - {s.toLibrary[0].response.id}
  {
    RunKeeps(Init(), es);
    RecentAtEnd(Init(), es);
    GoesToItsCaller(Run(Init(), es));
    EntryGoes(Run(Init(), es));
  }

  lemma {:induction false} RecentAtEnd(s: Calls, es: seq<Event>)
    requires RecentThroughout(s, es)
    ensures AllRecent(Run(s, es))
    decreases |es|
  {
    if es != [] {
      RecentAtEnd(Step(s, es[0]), es[1..]);
    }
  }

  /** A response once given is final, whatever happens later: a caller gets at most one. */
  lemma {:induction false} AnsweredForGood(s: Calls, es: seq<Event>, k: nat)
    requires k < |s.callers| && s.callers[k].stage.Answered?
    ensures k < |Run(s, es).callers| && Run(s, es).callers[k] == s.callers[k].(call := Run(s, es).callers[k].call)
    decreases |es|
  {
    if es != [] {
      AnsweredForGood(Step(s, es[0]), es[1..], k);
    }
  }

  /** A caller that gives up, or whose command cannot be sent, never gets a response. */
  lemma {:induction false} AbandonedForGood(s: Calls, es: seq<Event>, k: nat)
    requires k < |s.callers| && s.callers[k].stage.Abandoned?
    ensures k < |Run(s, es).callers| && Run(s, es).callers[k].stage.Abandoned?
    decreases |es|
  {
    if es != [] {
      AbandonedForGood(Step(s, es[0]), es[1..], k);
    }
  }

  lemma GivesUp(s: Calls, es: seq<Event>, k: nat)
    requires k < |s.callers|
    ensures Live(s.callers[k].stage) ==>
              k < |Run(Step(s, Cancel(k)), es).callers| && Run(Step(s, Cancel(k)), es).callers[k].stage.Abandoned?
    ensures s.callers[k].stage.Registered? ==>
              && k < |Run(Step(s, SendFails(k)), es).callers|
              && Run(Step(s, SendFails(k)), es).callers[k].stage.Abandoned?
  {
    if Live(s.callers[k].stage) {
      AbandonedForGood(Step(s, Cancel(k)), es, k);
    }
    if s.callers[k].stage.Registered? {
      AbandonedForGood(Step(s, SendFails(k)), es, k);
    }
  }

  /** When the link is lost nobody gets a response any more, until a new command is sent. */
  lemma LostLinkAnswersNobody(s: Calls, es: seq<Event>, k: nat)
    requires k < |s.callers| && !s.callers[k].stage.Answered?
    requires forall i :: 0 <= i < |es| ==> !es[i].Send?
    ensures var t := Run(Step(s, LinkLost), es); k < |t.callers| && !t.callers[k].stage.Answered?
  {
    SilentLinkAnswersNobody(Step(s, LinkLost), es, k);
  }

  lemma {:induction false} SilentLinkAnswersNobody(s: Calls, es: seq<Event>, k: nat)
    requires s.toProxy == [] && s.toLibrary == [] && k < |s.callers| && !s.callers[k].stage.Answered?
    requires forall i :: 0 <= i < |es| ==> !es[i].Send?
    ensures var t := Run(s, es); k < |t.callers| && !t.callers[k].stage.Answered?
    decreases |es|
  {
    if es != [] {
      SilentLinkAnswersNobody(Step(s, es[0]), es[1..], k);
    }
  }

  // ---------------------------------------------------------------- no caller is left without an answer

  lemma HandleFirst(s: Calls, k: nat)
    requires Traced(s) && s.toProxy != [] && k < |s.callers| && s.callers[k].stage.Started?
    ensures var t := Step(s, Handle(true));
            Traced(t) && k < |t.callers| && t.callers[k].stage.Started? && t.callers[k].kind == s.callers[k].kind
            && |t.toProxy| == |s.toProxy| - 1
  {
    StepTraced(s, Handle(true));
  }

  lemma DeliverFirst(s: Calls, k: nat)
    requires Traced(s) && s.toLibrary != [] && k < |s.callers| && s.callers[k].stage.Started?
    ensures var t := Step(s, Deliver);
            Traced(t) && k < |t.callers| && t.callers[k] == s.callers[k]
            && t.toProxy == s.toProxy && |t.toLibrary| == |s.toLibrary| - 1
  {
    StepTraced(s, Deliver);
  }

  lemma RunFirst(s: Calls, e: Event, es: seq<Event>)
    ensures Run(s, [e] + es) == Run(Step(s, e), es)
  {
    assert ([e] + es)[1..] == es;
  }

  /** With nothing else under way, a caller registers and sends. */
  lemma SentInTwo(s: Calls, k: nat)
    requires s.toProxy == [] && s.toLibrary == [] && k < |s.callers| && s.callers[k].stage.Started?
    ensures var t := Step(Step(s, Register(k)), Send(k));
            && |t.callers| == |s.callers| && t.callers[k] == s.callers[k].(stage := Sent)
            && t.toProxy == [Outgoing(Command(s.callers[k].kind, s.callers[k].id), k)] && t.toLibrary == []
            && s.callers[k].id in t.waiting && t.waiting[s.callers[k].id] == k
  {
    var one := Step(s, Register(k));
    assert one.callers[k] == s.callers[k].(stage := Registered) && one.waiting[s.callers[k].id] == k;
  }

  /** Then the proxy handles the command and the response is delivered. */
  lemma AnsweredInTwo(s: Calls, k: nat, ok: bool)
    requires k < |s.callers| && s.callers[k].stage.Sent? && s.toLibrary == []
    requires s.toProxy == [Outgoing(Command(s.callers[k].kind, s.callers[k].id), k)]
    requires s.callers[k].id in s.waiting && s.waiting[s.callers[k].id] == k
    ensures var t := Step(Step(s, Handle(ok)), Deliver);
            && |t.callers| == |s.callers| && t.callers[k].stage.Answered? && t.callers[k].kind == s.callers[k].kind
            && t.callers[k].call == Called(ok) && Proper(t.callers[k], t.callers[k].stage.r)
  {
    var one := Step(s, Handle(ok));
    assert one.callers[k] == s.callers[k].(call := Called(ok)) && one.waiting == s.waiting;
    assert one.toLibrary == [Incoming(HandleCommand(s.toProxy[0].command, ok), k)];
  }

  /** Together four steps. */
  lemma AnsweredInFour(s: Calls, k: nat, ok: bool)
    requires s.toProxy == [] && s.toLibrary == [] && k < |s.callers| && s.callers[k].stage.Started?
    ensures var t := Step(Step(Step(Step(s, Register(k)), Send(k)), Handle(ok)), Deliver);
            && k < |t.callers| && t.callers[k].stage.Answered? && t.callers[k].kind == s.callers[k].kind
            && t.callers[k].call == Called(ok) && Proper(t.callers[k], t.callers[k].stage.r)
  {
    SentInTwo(s, k);
    AnsweredInTwo(Step(Step(s, Register(k)), Send(k)), k, ok);
  }

  /** However many messages are under way and whatever the ids did before, a caller that has started can
      get the answer to its own command: the proxy and the reader work off the rest first. */
  lemma {:induction false} CallerCanBeAnswered(s: Calls, k: nat, ok: bool) returns (es: seq<Event>)
    requires Traced(s) && k < |s.callers| && s.callers[k].stage.Started?
    ensures var t := Run(s, es);
            && k < |t.callers| && t.callers[k].stage.Answered? && t.callers[k].kind == s.callers[k].kind
            && t.callers[k].call == Called(ok) && Proper(t.callers[k], t.callers[k].stage.r)
    decreases |s.toProxy|, |s.toLibrary|
  {
    if s.toProxy != [] {
      HandleFirst(s, k);
      es := CallerCanBeAnswered(Step(s, Handle(true)), k, ok);
      RunFirst(s, Handle(true), es);
      es := [Handle(true)] + es;
    } else if s.toLibrary != [] {
      DeliverFirst(s, k);
      es := CallerCanBeAnswered(Step(s, Deliver), k, ok);
      RunFirst(s, Deliver, es);
      es := [Deliver] + es;
    } else {
      AnsweredInFour(s, k, ok);
      es := [Register(k)] + ([Send(k)] + ([Handle(ok)] + ([Deliver] + [])));
      RunFirst(s, Register(k), [Send(k)] + ([Handle(ok)] + ([Deliver] + [])));
      RunFirst(Step(s, Register(k)), Send(k), [Handle(ok)] + ([Deliver] + []));
      RunFirst(Step(Step(s, Register(k)), Send(k)), Handle(ok), [Deliver] + []);
      RunFirst(Step(Step(Step(s, Register(k)), Send(k)), Handle(ok)), Deliver, []);
    }
  }

  function CommandsIn(es: seq<Event>): nat {
    if es == [] then 0 else (if es[0].Start? then 1 else 0) + CommandsIn(es[1..])
  }

  /** At most 2^64 commands in all is enough. */
  lemma {:induction false} FewCommandsAreRecent(s: Calls, es: seq<Event>)
    requires |s.callers| + CommandsIn(es) <= ID_SPACE
    ensures RecentThroughout(s, es)
    decreases |es|
  {
    if es != [] {
      FewCommandsAreRecent(Step(s, es[0]), es[1..]);
    }
  }

  // ---------------------------------------------------------------- without the condition

  lemma ModDistance(a: nat, d: nat)
    ensures a % ID_SPACE == (a + d) % ID_SPACE <==> d % ID_SPACE == 0
  {
  }

  /** Two callers share an id exactly when their numbers are congruent modulo 2^64. */
  lemma SameIdIff(s: Calls, i: nat, j: nat)
    requires Numbered(s) && i <= j < |s.callers|
    ensures s.callers[i].id == s.callers[j].id <==> (j - i) % ID_SPACE == 0
  {
    ModDistance(1 + i, j - i);
  }

  /** On every run, however often ids have come round: the next response goes astray exactly when
      somebody else with the same id waits. */
  lemma AstrayIff(es: seq<Event>, k: nat)
    requires var s := Run(Init(), es); s.toLibrary != [] && k < |s.callers| && k != s.toLibrary[0].from
    ensures var s := Run(Init(), es);
            && s.toLibrary[0].from < |s.callers| && k < |Step(s, Deliver).callers|
            && (Step(s, Deliver).callers[k] != s.callers[k] <==>
                Awaits(s.callers[k].stage) && s.callers[k].id == s.callers[s.toLibrary[0].from].id)
  {
    RunTraced(Init(), es);
    AstrayIn(Run(Init(), es), k);
  }

  lemma AstrayIn(s: Calls, k: nat)
    requires Traced(s) && s.toLibrary != [] && k < |s.callers| && k != s.toLibrary[0].from
    ensures s.toLibrary[0].from < |s.callers| && k < |Step(s, Deliver).callers|
    ensures Step(s, Deliver).callers[k] != s.callers[k] <==>
            Awaits(s.callers[k].stage) && s.callers[k].id == s.callers[s.toLibrary[0].from].id
  {
  }

  /** Once caller j registers, the next response to arrive is given to it. */
  predicate TakesWhatArrives(s: Calls, j: nat, r: Response) {
    var t := Step(Step(s, Register(j)), Deliver);
    j < |s.callers| && j < |t.callers| && t.callers[j] == s.callers[j].(stage := Answered(r))
  }

  /** The condition is needed, whatever came before: a caller that starts while a response to another
      command with the same id is under way takes that response once it registers. */
  lemma SharedIdMisleads(s: Calls, j: nat)
    requires Traced(s) && s.toLibrary != [] && j < |s.callers| && s.callers[j].stage.Started?
    requires j != s.toLibrary[0].from && s.callers[j].id == s.callers[s.toLibrary[0].from].id
    ensures TakesWhatArrives(s, j, s.toLibrary[0].response)
  {
  }

  function Starts(n: nat): seq<Event> {
    seq(n, i => Start(GetIfaceStats))
  }

  lemma {:induction false} RunStarts(s: Calls, n: nat)
    requires Traced(s)
    ensures var t := Run(s, Starts(n));
            && Traced(t)
            && |t.callers| == |s.callers| + n
            && t.callers[..|s.callers|] == s.callers
            && (forall k :: |s.callers| <= k < |t.callers| ==>
                  t.callers[k].kind.GetIfaceStats? && t.callers[k].stage.Started?)
            && t.waiting == s.waiting && t.toProxy == s.toProxy && t.toLibrary == s.toLibrary
    decreases n
  {
    if n > 0 {
      StartTraced(s, GetIfaceStats);
      assert Starts(n)[1..] == Starts(n - 1);
      RunStarts(Step(s, Start(GetIfaceStats)), n - 1);
    }
  }

  /** How many more commands bring the id of caller k, of `count` callers, round again. */
  function UntilAgain(count: nat, k: nat): (n: nat)
    requires k < count
    ensures 0 < n <= ID_SPACE + 1 && (count + n - 1 - k) % ID_SPACE == 0
  {
    RoundAgain(count - k);
    ID_SPACE - (count - k) % ID_SPACE + 1
  }

  lemma RoundAgain(n: nat)
    ensures (n + ID_SPACE - n % ID_SPACE) % ID_SPACE == 0
  {
  }

  lemma LastStarted(s: Calls, n: nat, k: nat)
    requires Traced(s) && n > 0 && k < |s.callers|
    ensures var full := Run(s, Starts(n));
            && Traced(full) && full.toLibrary == s.toLibrary && |full.callers| == |s.callers| + n
            && full.callers[k] == s.callers[k]
            && full.callers[|s.callers| + n - 1].stage.Started?
            && full.callers[|s.callers| + n - 1].kind == GetIfaceStats
  {
    RunStarts(s, n);
    assert Run(s, Starts(n)).callers[..|s.callers|][k] == s.callers[k];
  }

  /** So no response under way is safe from later commands: when enough have started for the last one
      to have the same id, it takes the response if it registers before that arrives. */
  lemma EveryResponseCanGoAstray(s: Calls, n: nat, full: Calls)
    requires Traced(s) && s.toLibrary != [] && full == Run(s, Starts(n))
    requires n > 0 && (|s.callers| + n - 1 - s.toLibrary[0].from) % ID_SPACE == 0
    ensures |full.callers| == |s.callers| + n && full.callers[|s.callers| + n - 1].kind == GetIfaceStats
    ensures TakesWhatArrives(full, |s.callers| + n - 1, s.toLibrary[0].response)
  {
    LastStarted(s, n, s.toLibrary[0].from);
    LastTakesIt(full, |s.callers| + n - 1);
  }

  lemma LastTakesIt(full: Calls, j: nat)
    requires Traced(full) && full.toLibrary != [] && j < |full.callers| && full.callers[j].stage.Started?
    requires full.toLibrary[0].from < j && (j - full.toLibrary[0].from) % ID_SPACE == 0
    ensures TakesWhatArrives(full, j, full.toLibrary[0].response)
  {
    SameIdIff(full, full.toLibrary[0].from, j);
    SharedIdMisleads(full, j);
  }

  /** The first caller's command has been handled and its response is under way. */
  lemma FirstIsUnderWay() returns (begun: Calls)
    ensures begun == Run(Init(), [Start(AddRoute), Register(0), Send(0), Handle(true)])
    ensures begun.callers == [Caller(AddRoute, 1, Sent, Called(true))]
    ensures begun.toLibrary == [Incoming(OkResponse(1), 0)]
  {
    var one := Step(Init(), Start(AddRoute));
    var two := Step(one, Register(0));
    var three := Step(two, Send(0));
    begun := Step(three, Handle(true));
    assert [Start(AddRoute), Register(0), Send(0), Handle(true)]
        == [Start(AddRoute)] + ([Register(0)] + ([Send(0)] + ([Handle(true)] + [])));
    RunFirst(Init(), Start(AddRoute), [Register(0)] + ([Send(0)] + ([Handle(true)] + [])));
    RunFirst(one, Register(0), [Send(0)] + ([Handle(true)] + []));
    RunFirst(two, Send(0), [Handle(true)] + []);
    RunFirst(three, Handle(true), []);
  }

  /** For instance a route command that 2^64 later commands overtake: one of them is given its
      response, of a kind it does not expect. */
  lemma OldCommandIsMistaken()
    ensures var begun := Run(Init(), [Start(AddRoute), Register(0), Send(0), Handle(true)]);
            var late := Run(Run(begun, Starts(ID_SPACE)), [Register(ID_SPACE), Deliver]);
            && |late.callers| == ID_SPACE + 1
            && late.callers[ID_SPACE].stage.Answered?
            && !Expected(late.callers[ID_SPACE].kind, late.callers[ID_SPACE].stage.r)
  {
    var begun := FirstIsUnderWay();
    RunTraced(Init(), [Start(AddRoute), Register(0), Send(0), Handle(true)]);
    RunStarts(begun, ID_SPACE);
    assert UntilAgain(1, 0) == ID_SPACE;
    EveryResponseCanGoAstray(begun, ID_SPACE, Run(begun, Starts(ID_SPACE)));
    var full := Run(begun, Starts(ID_SPACE));
    var last := Step(full, Register(ID_SPACE));
    assert Run(full, [Register(ID_SPACE), Deliver]) == Step(last, Deliver) by {
      assert [Register(ID_SPACE), Deliver][1..] == [Deliver];
      assert Run(last, [Deliver]) == Run(Step(last, Deliver), []);
    }
  }
}
