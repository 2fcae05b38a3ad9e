/** The tables of the stack task and what each handler does to them. */
module Stack {
  import opened Base
  import opened TcpPath
  import opened UdpPath

  const EPHEMERAL_PORT_START: nat := 49152

  type Handle = nat

  datatype Socket = Tcp(tcp: TcpSocket) | Udp(udp: UdpSocket)

  /** `req` names the one-shot sender that the operation holds. */
  datatype PendingOp =
    | ConnectOp(local: SocketAddr, peer: SocketAddr, req: nat)
    | AcceptOp(req: nat)

  datatype ListenerState = ListenerState(addr: SocketAddr, handles: seq<Handle>)

  datatype ErrorKind = Other | InvalidInput | AddrInUse | ConnectionRefused | ConnectionAborted

  datatype Outcome =
    | StreamReady(h: Handle, local: SocketAddr, peer: SocketAddr)
    | ListenerReady(h: Handle, addr: SocketAddr)
    | UdpReady(h: Handle, addr: SocketAddr)
    | Failed(kind: ErrorKind)

  datatype Reply = Reply(req: nat, outcome: Outcome)

  function CountOf(counts: map<Handle, nat>, l: Handle): nat {
    if l in counts then counts[l] else 0
  }

  /** What happened so far: how many one-shot senders the task was given, what it answered and in
      which order, which senders it dropped unanswered, the backlog each listener was created with,
      and how often a replacement for one of its sockets was refused. */
  datatype Log = Log(requests: nat, replies: seq<Reply>, dropped: seq<nat>,
                     sizes: map<Handle, nat>, short: map<Handle, nat>) {

    function Asked(): Log {
      this.(requests := requests + 1)
    }

    function Replied(req: nat, outcome: Outcome): Log {
      this.(replies := replies + [Reply(req, outcome)])
    }

    /** A request that is answered while its command is handled. */
    function AskedAndReplied(outcome: Outcome): Log {
      this.(requests := requests + 1, replies := replies + [Reply(requests, outcome)])
    }

    function Short(l: Handle): nat {
      CountOf(short, l)
    }

    function Dropped(req: nat): Log {
      this.(dropped := dropped + [req])
    }
  }

  /** The channels that the task has let go of; the application may still hold its ends of them. */
  datatype Past = Past(tcp: map<Handle, TcpSocketState>, udp: map<Handle, UdpSocketState>)

  datatype Local = Local(ip: IpAddr, nextPort: nat) {
    function Allocated(): Local {
      this.(nextPort := (nextPort + 1) % 65536)
    }
  }

  datatype Stack = Stack(
    sockets: map<Handle, Socket>,
    pending: map<Handle, PendingOp>,
    listeners: map<Handle, ListenerState>,
    tcpStates: map<Handle, TcpSocketState>,
    udpStates: map<Handle, UdpSocketState>,
    past: Past,
    local: Local,
    log: Log)

  function NewStack(local: Local): Stack {
    Stack(map[], map[], map[], map[], map[], Past(map[], map[]), local, Log(0, [], [], map[], map[]))
  }

  /** The choices smoltcp makes while one command is handled: which free slot the i-th added socket
      gets, and whether the i-th `connect`, `listen` or `bind` is refused. */
  datatype Foreign = Foreign(slots: seq<Handle>, refused: set<nat>) {
    function Slot(i: nat): Handle {
      if i < |slots| then slots[i] else 0
    }
  }

  datatype Command =
    | TcpConnect(localIp: Option<IpAddr>, addr: SocketAddr)
    | TcpListen(addr: SocketAddr, backlog: nat)
    | TcpAccept(handle: Handle)
    | TcpListenerClose(handle: Handle)
    | TcpClose(handle: Handle)
    | UdpBind(addr: SocketAddr)
    | UdpClose(handle: Handle)

  // ---------------------------------------------------------------- the socket set

  function FirstFree(live: set<Handle>, from: Handle): (h: Handle)
    ensures h !in live && h >= from
    decreases |live|
  {
    if from in live then FirstFree(live - {from}, from + 1) else from
  }

  /** The slot a new socket gets: any free one, freed slots included. */
  function FreeSlot(live: set<Handle>, wanted: Handle): (h: Handle)
    ensures h !in live
    ensures wanted !in live ==> h == wanted
  {
    if wanted in live then FirstFree(live, 0) else wanted
  }

  predicate IsTcp(sockets: map<Handle, Socket>, h: Handle) {
    h in sockets && sockets[h].Tcp?
  }

  predicate AllTcp(sockets: map<Handle, Socket>, handles: seq<Handle>) {
    forall h :: h in handles ==> IsTcp(sockets, h)
  }

  predicate IsUdp(sockets: map<Handle, Socket>, h: Handle) {
    h in sockets && sockets[h].Udp?
  }

  /** A listening socket that a peer has connected to. */
  predicate Ready(sockets: map<Handle, Socket>, h: Handle) {
    IsTcp(sockets, h) && sockets[h].tcp.state == Established && sockets[h].tcp.remote.Some?
  }

  predicate InList(listeners: map<Handle, ListenerState>, l: Handle, h: Handle) {
    l in listeners && h in listeners[l].handles
  }

  predicate StatesLive(sockets: map<Handle, Socket>, tcpStates: map<Handle, TcpSocketState>,
                       udpStates: map<Handle, UdpSocketState>)
  {
    && (forall h :: h in tcpStates ==> IsTcp(sockets, h))
    && (forall h :: h in udpStates ==> IsUdp(sockets, h))
  }

  ghost predicate ListsLive(sockets: map<Handle, Socket>, listeners: map<Handle, ListenerState>) {
    forall l, h :: InList(listeners, l, h) ==> IsTcp(sockets, h)
  }

  ghost predicate ConnectsLive(sockets: map<Handle, Socket>, pending: map<Handle, PendingOp>) {
    forall h :: h in pending && pending[h].ConnectOp? ==> IsTcp(sockets, h)
  }

  // ---------------------------------------------------------------- commands

  /** Taking an operation out of `pending` without answering it drops its sender. */
  function DropPending(s: Stack, h: Handle): Stack {
    if h in s.pending
    then s.(pending := s.pending - {h}, log := s.log.Dropped(s.pending[h].req))
    else s
  }

  function StartConnect(s: Stack, localIp: Option<IpAddr>, addr: SocketAddr, f: Foreign): Stack {
    if 0 in f.refused then
      s.(local := s.local.Allocated(), log := s.log.AskedAndReplied(Failed(Other)))
    else
      var h := FreeSlot(s.sockets.Keys, f.Slot(0));
      var local := SocketAddr(if localIp.Some? then localIp.value else s.local.ip, s.local.nextPort);
      s.(local := s.local.Allocated(),
         log := s.log.Asked(),
         sockets := s.sockets[h := Tcp(NewSocket(SynSent).(local := Some(local), remote := Some(addr)))],
         tcpStates := s.tcpStates[h := NewTcpState()],
         pending := s.pending[h := ConnectOp(local, addr, s.log.requests)])
  }

  predicate PortTaken(listeners: map<Handle, ListenerState>, port: nat) {
    exists l <- listeners :: listeners[l].addr.port == port
  }

  /** The slots of `n` sockets added one after the other, starting with the i-th. */
  function NewHandles(live: set<Handle>, f: Foreign, i: nat, n: nat): (r: seq<Handle>)
    ensures |r| == n
    ensures forall h <- r :: h !in live
    decreases n
  {
    if n == 0 then [] else
    var h := FreeSlot(live, f.Slot(i));
    [h] + NewHandles(live + {h}, f, i + 1, n - 1)
  }

  function ListeningSocket(addr: SocketAddr): Socket {
    Tcp(NewSocket(TcpState.Listen).(local := Some(addr)))
  }

  function AddListening(sockets: map<Handle, Socket>, handles: seq<Handle>, addr: SocketAddr): map<Handle, Socket> {
    sockets + map h | h in handles :: ListeningSocket(addr)
  }

  function AtLeastOne(backlog: nat): nat {
    if backlog == 0 then 1 else backlog
  }

  function StartListening(s: Stack, addr: SocketAddr, backlog: nat, f: Foreign): Stack {
    var n := AtLeastOne(backlog);
    if addr.port == 0 then
      s.(log := s.log.AskedAndReplied(Failed(InvalidInput)))
    else if PortTaken(s.listeners, addr.port) || (exists i :: 0 <= i < n && i in f.refused) then
      s.(log := s.log.AskedAndReplied(Failed(AddrInUse)))
    else
      AddListener(s, addr, NewHandles(s.sockets.Keys, f, 0, n))
  }

  function AddListener(s: Stack, addr: SocketAddr, handles: seq<Handle>): Stack
    requires |handles| > 0
  {
    var l := handles[0];
    s.(sockets := AddListening(s.sockets, handles, addr),
       listeners := s.listeners[l := ListenerState(addr, handles)],
       log := s.log.(sizes := s.log.sizes[l := |handles|], short := s.log.short[l := 0])
              .AskedAndReplied(ListenerReady(l, addr)))
  }

  /** The index of the first listening socket that a peer has connected to. */
  function FirstReady(sockets: map<Handle, Socket>, handles: seq<Handle>): (r: Option<nat>)
    requires AllTcp(sockets, handles)
    ensures r.Some? ==> r.value < |handles| && Ready(sockets, handles[r.value])
    ensures r.Some? ==> forall h <- handles[..r.value] :: !Ready(sockets, h)
    ensures r.None? ==> forall h <- handles :: !Ready(sockets, h)
  {
    if handles == [] then None
    else if Ready(sockets, handles[0]) then Some(0)
    else
      var r := FirstReady(sockets, handles[1..]);
      if r.None? then None else
      assert handles[..r.value + 1] == [handles[0]] + handles[1..][..r.value];
      Some(r.value + 1)
  }

  /** What is left of a list once its i-th socket is taken off. */
  function Without(hs: seq<Handle>, i: nat): seq<Handle>
    requires i < |hs|
  {
    hs[..i] + hs[i + 1..]
  }

  /** `try_accept_socket`: takes the i-th socket off the list of listener `l` and puts a new
      listening socket in its place, unless smoltcp refuses. */
  function TakeFromListener(s: Stack, l: Handle, i: nat, f: Foreign): Stack
    requires l in s.listeners && i < |s.listeners[l].handles|
  {
    var listener := s.listeners[l];
    var rest := Without(listener.handles, i);
    if 0 in f.refused then
      s.(listeners := s.listeners[l := listener.(handles := rest)],
         log := s.log.(short := s.log.short[l := s.log.Short(l) + 1]))
    else
      var added := FreeSlot(s.sockets.Keys, f.Slot(0));
      s.(sockets := s.sockets[added := ListeningSocket(listener.addr)],
         listeners := s.listeners[l := listener.(handles := rest + [added])])
  }

  /** The reply that hands out the i-th socket of listener `l`. */
  function AcceptedStream(s: Stack, l: Handle, i: nat): Outcome
    requires l in s.listeners && i < |s.listeners[l].handles|
    requires Ready(s.sockets, s.listeners[l].handles[i])
  {
    var h := s.listeners[l].handles[i];
    var tcp := s.sockets[h].tcp;
    StreamReady(h, if tcp.local.Some? then tcp.local.value else s.listeners[l].addr, tcp.remote.value)
  }

  /** Turns the i-th socket of listener `l` into a stream and answers `req`. */
  function AcceptAt(s: Stack, l: Handle, i: nat, req: nat, f: Foreign): Stack
    requires l in s.listeners && i < |s.listeners[l].handles|
    requires Ready(s.sockets, s.listeners[l].handles[i])
  {
    var s1 := TakeFromListener(s, l, i, f);
    s1.(tcpStates := s.tcpStates[s.listeners[l].handles[i] := NewTcpState()],
        log := s1.log.Replied(req, AcceptedStream(s, l, i)))
  }

  function AcceptStream(s: Stack, l: Handle, f: Foreign): Stack
    requires ListedLive(s, l)
  {
    if l !in s.listeners then
      s.(log := s.log.AskedAndReplied(Failed(InvalidInput)))
    else
      var i := FirstReady(s.sockets, s.listeners[l].handles);
      if i.Some? then
        AcceptAt(s.(log := s.log.Asked()), l, i.value, s.log.requests, f)
      else
        QueueAccept(s, l)
  }

  /** A second accept on the same listener takes the place of the first, whose sender is dropped. */
  function QueueAccept(s: Stack, l: Handle): Stack {
    s.(pending := s.pending[l := AcceptOp(s.log.requests)],
       log := if l in s.pending then s.log.Asked().Dropped(s.pending[l].req) else s.log.Asked())
  }

  function CloseListening(sockets: map<Handle, Socket>, handles: seq<Handle>): map<Handle, Socket>
    requires AllTcp(sockets, handles)
  {
    map h | h in sockets ::
      if h in handles && IsTcp(sockets, h) && sockets[h].tcp.state == TcpState.Listen
      then Tcp(sockets[h].tcp.Close()) else sockets[h]
  }

  function CloseListener(s: Stack, l: Handle): Stack
    requires ListedLive(s, l)
  {
    if l !in s.listeners then DropPending(s, l) else
    DropPending(s, l).(sockets := CloseListening(s.sockets, s.listeners[l].handles), listeners := s.listeners - {l})
  }

  /** Removing an entry of `tcp_states` drops the task's channel ends. */
  function PastWith(s: Stack, h: Handle): Past {
    if h in s.tcpStates then s.past.(tcp := s.past.tcp[h := TcpPath.Detach(s.tcpStates[h])]) else s.past
  }

  function CloseStream(s: Stack, h: Handle): Stack
    requires IsTcp(s.sockets, h)
  {
    s.(sockets := s.sockets[h := Tcp(s.sockets[h].tcp.Close())], tcpStates := s.tcpStates - {h}, past := PastWith(s, h))
  }

  function BindUdp(s: Stack, addr: SocketAddr, f: Foreign): Stack {
    var local := if addr.port == 0 then s.local.Allocated() else s.local;
    if 0 in f.refused then
      s.(local := local, log := s.log.AskedAndReplied(Failed(AddrInUse)))
    else
      var h := FreeSlot(s.sockets.Keys, f.Slot(0));
      var bound := addr.(port := if addr.port == 0 then s.local.nextPort else addr.port);
      s.(local := local,
         sockets := s.sockets[h := Udp(NewUdpSocket())],
         udpStates := s.udpStates[h := NewUdpState()],
         log := s.log.AskedAndReplied(UdpReady(h, bound)))
  }

  function UdpPastWith(s: Stack, h: Handle): Past {
    if h in s.udpStates then s.past.(udp := s.past.udp[h := UdpPath.Detach(s.udpStates[h])]) else s.past
  }

  function CloseUdp(s: Stack, h: Handle): Stack
    requires IsUdp(s.sockets, h)
  {
    s.(sockets := s.sockets[h := Udp(s.sockets[h].udp.Close())], udpStates := s.udpStates - {h},
       past := UdpPastWith(s, h))
  }

  predicate ListedLive(s: Stack, l: Handle) {
    l in s.listeners ==> AllTcp(s.sockets, s.listeners[l].handles)
  }

  /** Every `get_mut` that handling the command makes finds a socket of the right kind. */
  predicate Looks(s: Stack, c: Command) {
    match c
    case TcpAccept(l) => ListedLive(s, l)
    case TcpListenerClose(l) => ListedLive(s, l)
    case TcpClose(h) => IsTcp(s.sockets, h)
    case UdpClose(h) => IsUdp(s.sockets, h)
    case _ => true
  }

  function Dispatch(s: Stack, c: Command, f: Foreign): Stack
    requires Looks(s, c)
  {
    match c
    case TcpConnect(localIp, addr) => StartConnect(s, localIp, addr, f)
    case TcpListen(addr, backlog) => StartListening(s, addr, backlog, f)
    case TcpAccept(l) => AcceptStream(s, l, f)
    case TcpListenerClose(l) => CloseListener(s, l)
    case TcpClose(h) => CloseStream(s, h)
    case UdpBind(addr) => BindUdp(s, addr, f)
    case UdpClose(h) => CloseUdp(s, h)
  }

  // ---------------------------------------------------------------- channels

  function PollWrites(s: Stack, takes: Decision): Stack
    requires StatesLive(s.sockets, s.tcpStates, s.udpStates)
  {
    s.(sockets := map h | h in s.sockets ::
         if h in s.tcpStates then Tcp(WriteStep(s.sockets[h].tcp, s.tcpStates[h]).socket)
         else if h in s.udpStates then Udp(UdpWriteStep(s.sockets[h].udp, s.udpStates[h], takes).socket)
         else s.sockets[h],
       tcpStates := map h | h in s.tcpStates :: WriteStep(s.sockets[h].tcp, s.tcpStates[h]).st,
       udpStates := map h | h in s.udpStates :: UdpWriteStep(s.sockets[h].udp, s.udpStates[h], takes).st)
  }

  function PollReads(s: Stack): Stack
    requires StatesLive(s.sockets, s.tcpStates, s.udpStates)
  {
    s.(sockets := map h | h in s.sockets ::
         if h in s.tcpStates then Tcp(ReadStep(s.sockets[h].tcp, s.tcpStates[h]).socket)
         else if h in s.udpStates then Udp(UdpReadStep(s.sockets[h].udp, s.udpStates[h]).socket)
         else s.sockets[h],
       tcpStates := map h | h in s.tcpStates :: ReadStep(s.sockets[h].tcp, s.tcpStates[h]).st,
       udpStates := map h | h in s.udpStates :: UdpReadStep(s.sockets[h].udp, s.udpStates[h]).st)
  }

  // ---------------------------------------------------------------- pending operations

  predicate PendingLooks(s: Stack, h: Handle) {
    h in s.pending ==> if s.pending[h].ConnectOp? then IsTcp(s.sockets, h) else ListedLive(s, h)
  }

  /** Tries to complete the operation pending under `h`. */
  function CompleteOne(s: Stack, h: Handle, f: Foreign): Stack
    requires PendingLooks(s, h)
  {
    if h !in s.pending then s
    else if s.pending[h].ConnectOp? then CompleteConnect(s, h)
    else CompleteAccept(s, h, f)
  }

  function CompleteConnect(s: Stack, h: Handle): Stack
    requires h in s.pending && s.pending[h].ConnectOp? && IsTcp(s.sockets, h)
  {
    var op := s.pending[h];
    match s.sockets[h].tcp.state
    case Established =>
      s.(pending := s.pending - {h}, log := s.log.Replied(op.req, StreamReady(h, op.local, op.peer)))
    case Closed => RefuseConnect(s, h)
    case TimeWait => RefuseConnect(s, h)
    case _ => s
  }

  function RefuseConnect(s: Stack, h: Handle): Stack
    requires h in s.pending
  {
    s.(pending := s.pending - {h}, tcpStates := s.tcpStates - {h}, past := PastWith(s, h),
       log := s.log.Replied(s.pending[h].req, Failed(ConnectionRefused)))
  }

  /** What a pending connect is told when it is tried: that the stream is ready if its socket is
      connected, that it was refused if its socket has ended, and nothing yet otherwise. */
  predicate TellsConnect(s: Stack, t: Stack, h: Handle, state: TcpState)
    requires h in s.pending && s.pending[h].ConnectOp?
  {
    var op := s.pending[h];
    if state == Established then
      && t.log.replies == s.log.replies + [Reply(op.req, StreamReady(h, op.local, op.peer))]
      && t.pending == s.pending - {h} && t.tcpStates == s.tcpStates
    else if state == Closed || state == TimeWait then
      && t.log.replies == s.log.replies + [Reply(op.req, Failed(ConnectionRefused))]
      && t.pending == s.pending - {h} && h !in t.tcpStates
    else t.log == s.log && t.pending == s.pending && t.tcpStates == s.tcpStates
  }

  function CompleteAccept(s: Stack, h: Handle, f: Foreign): Stack
    requires h in s.pending && s.pending[h].AcceptOp? && ListedLive(s, h)
  {
    var req := s.pending[h].req;
    if h !in s.listeners then
      s.(pending := s.pending - {h}, log := s.log.Replied(req, Failed(InvalidInput)))
    else
      var i := FirstReady(s.sockets, s.listeners[h].handles);
      if i.Some? then AcceptAt(s.(pending := s.pending - {h}), h, i.value, req, f) else s
  }

  /** The task is about to return: the operation pending under `h` goes, with the channels it holds. */
  function Abandon(s: Stack, h: Handle, log: Log): Stack
    requires h in s.pending
  {
    if s.pending[h].ConnectOp?
    then s.(pending := s.pending - {h}, tcpStates := s.tcpStates - {h}, past := PastWith(s, h), log := log)
    else s.(pending := s.pending - {h}, log := log)
  }

  /** The proxy connection is lost: the operation pending under `h` fails. */
  function FailOne(s: Stack, h: Handle): Stack
    requires h in s.pending
  {
    Abandon(s, h, s.log.Replied(s.pending[h].req, Failed(ConnectionAborted)))
  }

  /** The command channel is disconnected: the operation pending under `h` is dropped. */
  function DropOne(s: Stack, h: Handle): Stack
    requires h in s.pending
  {
    Abandon(s, h, s.log.Dropped(s.pending[h].req))
  }

  /** The task returns and its tables go away. */
  function LetGoAll(s: Stack): Stack {
    s.(tcpStates := map[], udpStates := map[],
       past := Past(s.past.tcp + map h | h in s.tcpStates :: TcpPath.Detach(s.tcpStates[h]),
                    s.past.udp + map h | h in s.udpStates :: UdpPath.Detach(s.udpStates[h])))
  }
}
