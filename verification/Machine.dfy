/** The stack task as a machine: its loop, its command queue, the applications that hold its streams
    and sockets, and the network, under every interleaving of their steps. */
module Machine {
  import opened Base
  import opened TcpPath
  import opened UdpPath
  import opened Stack
  import opened Ownership
  import Connection

  const COMMAND_CHANNEL_CAPACITY: nat := 256

  /** Where the task is in its loop. */
  datatype Phase =
    | Waiting                        // at the head of the loop, in `select!`
    | Writing                        // about to poll the write channels
    | Networking(changed: bool)      // polling the interface
    | Reading(changed: bool)         // about to poll the read channels
    | Completing(todo: set<Handle>)  // in `process_pending`
    | Checking                       // about to look at `ipc_dead`
    | Failing                        // failing what is pending, before it returns
    | Dropping                       // returning with operations still pending
    | Exited

  /** What the application keeps for a stream: its read buffer and all it has read. */
  datatype AppSide = AppSide(readBuf: seq<Byte>, delivered: seq<Byte>)

  datatype World = World(
    phase: Phase,
    s: Stack,
    commands: seq<Command>,
    tcpApps: map<Handle, AppSide>,
    udpApps: map<Handle, seq<Datagram>>)

  datatype Event =
    | Submit(c: Command)
    | TakeCommand(f: Foreign)
    | Wake
    | Disconnect
    | PollWriteChannels(takes: Decision)
    | Poll(sockets: map<Handle, Socket>, reported: bool)
    | EndPoll
    | PollReadChannels
    | Complete(h: Handle, f: Foreign)
    | EndComplete
    | Check(dead: bool)
    | Fail(h: Handle)
    | Drop(h: Handle)
    | Return
    | TcpApp(h: Handle, tcpAction: Connection.Action)
    | UdpApp(h: Handle, udpAction: UdpAction)

  /** A failed lookup in the socket set is a panic of the task. */
  datatype Result = Next(w: World) | Panic

  // ---------------------------------------------------------------- the network

  predicate IsReset(old_: TcpSocket, new_: TcpSocket) {
    new_ == old_.(state := Closed, tx := [], rx := [], local := new_.local, remote := new_.remote)
  }

  /** What one poll of the interface may do to a TCP socket.  A closed socket stays closed, and a
      connection that has ended is not revived. */
  predicate NetTcp(old_: TcpSocket, new_: TcpSocket) {
    || IsReset(old_, new_)
    || (if old_.state == Closed then new_ == old_ else
        && |new_.tx| <= |old_.tx| && |old_.rx| <= |new_.rx|
        && (Ended(old_.state) ==> Ended(new_.state))
        && new_ == old_.(state := new_.state, local := new_.local, remote := new_.remote,
                         tx := old_.tx[|old_.tx| - |new_.tx|..],
                         rx := old_.rx + new_.rx[|old_.rx|..],
                         arrived := old_.arrived + new_.rx[|old_.rx|..]))
  }

  predicate NetUdp(old_: UdpSocket, new_: UdpSocket) {
    && |new_.tx| <= |old_.tx| && |old_.rx| <= |new_.rx|
    && (old_.open || new_.rx == old_.rx)
    && new_ == old_.Transmit(|old_.tx| - |new_.tx|).(
                     rx := old_.rx + new_.rx[|old_.rx|..],
                     arrived := old_.arrived + new_.rx[|old_.rx|..])
  }

  /** A poll that changes the state or the peer of a TCP socket reports it. */
  predicate NetSocket(old_: Socket, new_: Socket, reported: bool) {
    match old_
    case Tcp(t) =>
      && new_.Tcp? && NetTcp(t, new_.tcp)
      && (reported || (new_.tcp.state == t.state && new_.tcp.remote == t.remote))
    case Udp(u) => new_.Udp? && NetUdp(u, new_.udp)
  }

  predicate LegalPoll(sockets: map<Handle, Socket>, sockets1: map<Handle, Socket>, reported: bool) {
    && sockets1.Keys == sockets.Keys
    && (forall h :: h in sockets ==> NetSocket(sockets[h], sockets1[h], reported))
  }

  // ---------------------------------------------------------------- the applications

  predicate Channelled(s: Stack, h: Handle) {
    (h in s.tcpStates || h in s.past.tcp) && IsTcp(s.sockets, h)
  }

  function ReadSide(w: World, h: Handle): AppSide {
    if h in w.tcpApps then w.tcpApps[h] else AppSide([], [])
  }

  /** The connection that a handle names, seen on its own. */
  function Project(w: World, h: Handle): Connection.Conn
    requires Channelled(w.s, h)
  {
    Connection.Conn(w.s.sockets[h].tcp,
                    if h in w.s.tcpStates then w.s.tcpStates[h] else w.s.past.tcp[h],
                    h in w.s.tcpStates,
                    ReadSide(w, h).readBuf,
                    ReadSide(w, h).delivered)
  }

  /** Puts the application's view of connection `c` back under `h`. */
  function Put(w: World, h: Handle, c: Connection.Conn): World {
    var tcpApps := w.tcpApps[h := AppSide(c.readBuf, c.delivered)];
    if h in w.s.tcpStates
    then w.(tcpApps := tcpApps, s := w.s.(tcpStates := w.s.tcpStates[h := c.st]))
    else w.(tcpApps := tcpApps, s := w.s.(past := w.s.past.(tcp := w.s.past.tcp[h := c.st])))
  }

  /** The application acts on its ends of the channels of stream `h`. */
  function ActTcp(w: World, h: Handle, a: Connection.Action): World
    requires Channelled(w.s, h)
  {
    Put(w, h, Connection.Act(Project(w, h), a))
  }

  predicate UdpChannelled(s: Stack, h: Handle) {
    (h in s.udpStates || h in s.past.udp) && IsUdp(s.sockets, h)
  }

  /** The UDP socket that a handle names, seen on its own. */
  function ProjectUdp(w: World, h: Handle): UdpLife
    requires UdpChannelled(w.s, h)
  {
    UdpLife(w.s.sockets[h].udp,
            if h in w.s.udpStates then w.s.udpStates[h] else w.s.past.udp[h],
            h in w.s.udpStates,
            if h in w.udpApps then w.udpApps[h] else [])
  }

  function PutUdp(w: World, h: Handle, u: UdpLife): World {
    var udpApps := w.udpApps[h := u.received];
    if h in w.s.udpStates
    then w.(udpApps := udpApps, s := w.s.(udpStates := w.s.udpStates[h := u.st]))
    else w.(udpApps := udpApps, s := w.s.(past := w.s.past.(udp := w.s.past.udp[h := u.st])))
  }

  function ActUdp(w: World, h: Handle, a: UdpAction): World
    requires UdpChannelled(w.s, h)
  {
    PutUdp(w, h, UdpAct(ProjectUdp(w, h), a))
  }

  // ---------------------------------------------------------------- steps

  function Init(local: Local): World {
    World(Waiting, NewStack(local), [], map[], map[])
  }

  predicate MaySubmit(w: World, c: Command) {
    && w.phase != Exited && |w.commands| < COMMAND_CHANNEL_CAPACITY
    && FromHolder(IssuedBy(w.s.log.replies), c)
  }

  function SubmitStep(w: World, c: Command): World {
    if MaySubmit(w, c) then w.(commands := w.commands + [c]) else w
  }

  function TakeStep(w: World, f: Foreign): Result {
    if w.phase != Waiting || w.commands == [] then Next(w)
    else if !Looks(w.s, w.commands[0]) then Panic
    else Next(w.(phase := Writing, commands := w.commands[1..], s := Dispatch(w.s, w.commands[0], f)))
  }

  function WriteChannelsStep(w: World, takes: Decision): Result {
    if w.phase != Writing then Next(w)
    else if !StatesLive(w.s.sockets, w.s.tcpStates, w.s.udpStates) then Panic
    else Next(w.(phase := Networking(false), s := PollWrites(w.s, takes)))
  }

  function PollStep(w: World, sockets: map<Handle, Socket>, reported: bool): World {
    if w.phase.Networking? && LegalPoll(w.s.sockets, sockets, reported)
    then w.(phase := Networking(w.phase.changed || reported), s := w.s.(sockets := sockets)) else w
  }

  function ReadChannelsStep(w: World): Result {
    if !w.phase.Reading? then Next(w)
    else if !StatesLive(w.s.sockets, w.s.tcpStates, w.s.udpStates) then Panic
    else Next(w.(phase := if w.phase.changed then Completing(w.s.pending.Keys) else Checking, s := PollReads(w.s)))
  }

  function CompleteStep(w: World, h: Handle, f: Foreign): Result {
    if !w.phase.Completing? || h !in w.phase.todo then Next(w)
    else if !PendingLooks(w.s, h) then Panic
    else Next(w.(phase := Completing(w.phase.todo - {h}), s := CompleteOne(w.s, h, f)))
  }

  /** Moving on in the loop without touching the tables. */
  function PhaseStep(phase: Phase, idle: bool, e: Event): Phase {
    match e
    case Wake => if phase == Waiting then Writing else phase
    case Disconnect => if phase == Waiting && idle then Dropping else phase
    case EndPoll => if phase.Networking? then Reading(phase.changed) else phase
    case EndComplete => if phase == Completing({}) then Checking else phase
    case Check(dead) => if phase == Checking then (if dead then Failing else Waiting) else phase
    case _ => phase
  }

  function FailStep(w: World, h: Handle): World {
    if w.phase == Failing && h in w.s.pending then w.(s := FailOne(w.s, h)) else w
  }

  function DropStep(w: World, h: Handle): World {
    if w.phase == Dropping && h in w.s.pending then w.(s := DropOne(w.s, h)) else w
  }

  function ReturnStep(w: World): World {
    if (w.phase == Failing || w.phase == Dropping) && w.s.pending == map[]
    then w.(phase := Exited, commands := [], s := LetGoAll(w.s)) else w
  }

  function TcpAppStep(w: World, h: Handle, a: Connection.Action): World {
    if Channelled(w.s, h) && h in IssuedBy(w.s.log.replies).streams then ActTcp(w, h, a) else w
  }

  function UdpAppStep(w: World, h: Handle, a: UdpAction): World {
    if UdpChannelled(w.s, h) && h in IssuedBy(w.s.log.replies).udps then ActUdp(w, h, a) else w
  }

  /** An event that is not possible in the current phase changes nothing. */
  function Step(w: World, e: Event): Result {
    match e
    case Submit(c) => Next(SubmitStep(w, c))
    case TakeCommand(f) => TakeStep(w, f)
    case PollWriteChannels(takes) => WriteChannelsStep(w, takes)
    case Poll(sockets, reported) => Next(PollStep(w, sockets, reported))
    case PollReadChannels => ReadChannelsStep(w)
    case Complete(h, f) => CompleteStep(w, h, f)
    case Fail(h) => Next(FailStep(w, h))
    case Drop(h) => Next(DropStep(w, h))
    case Return => Next(ReturnStep(w))
    case TcpApp(h, tcpAction) => Next(TcpAppStep(w, h, tcpAction))
    case UdpApp(h, udpAction) => Next(UdpAppStep(w, h, udpAction))
    case _ => Next(w.(phase := PhaseStep(w.phase, w.commands == [], e)))
  }

  function Run(w: World, events: seq<Event>): Result
    decreases |events|
  {
    if events == [] then Next(w) else
    match Step(w, events[0])
    case Panic => Panic
    case Next(w1) => Run(w1, events[1..])
  }

  // Which function an event stands for.

  lemma AppSteps(w: World, h: Handle, a: Connection.Action, b: UdpAction)
    ensures Step(w, TcpApp(h, a)) == Next(TcpAppStep(w, h, a))
    ensures Step(w, UdpApp(h, b)) == Next(UdpAppStep(w, h, b))
  {
  }

  lemma LeaveSteps(w: World, h: Handle)
    ensures Step(w, Fail(h)) == Next(FailStep(w, h))
    ensures Step(w, Drop(h)) == Next(DropStep(w, h))
    ensures Step(w, Return) == Next(ReturnStep(w))
  {
  }

  lemma PollSteps(w: World, takes: Decision, sockets: map<Handle, Socket>, reported: bool)
    ensures Step(w, PollWriteChannels(takes)) == WriteChannelsStep(w, takes)
    ensures Step(w, Poll(sockets, reported)) == Next(PollStep(w, sockets, reported))
    ensures Step(w, PollReadChannels) == ReadChannelsStep(w)
  {
  }
}
