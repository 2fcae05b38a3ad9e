# A verified model of tap-tunnel

tap-tunnel gives a process TCP and UDP sockets of its own inside a network namespace. A library holds a
user-space network stack (smoltcp) and a proxy process holds a TAP device; Ethernet frames and control
messages travel between them over one stream socket. This project models the data and control plane and
proves what holds of it over whole runs.

**Stack task.** `Stack` has the five tables of the stack task (socket set, pending operations, listeners, TCP and
UDP channel states) and what each handler does to them. `StackTask` is the same task in its own form, a class whose
methods and loops update the tables in place, each method proved to do what `Stack` says. `Machine` puts
handlers, network polls, channel polls, pending operations, exits and applications together as one step
system in which a failed socket lookup is a panic. The socket set reuses free slots as it likes. `Ownership`,
`Accounting`, `Safety`, `Wakeup`, `Conservation`, `UdpConservation` and `Backlog` prove invariants of every
run, `Replies` says what callers are told, `Accepting` when a listener can still accept, `Progress` what a pass of the
loop, a queued close and the end of the stack task get done, `Leftover` what becomes of streams, listeners and UDP sockets
whose close is lost; `Theorems` states the main results in plain terms.

**Stream and datagram paths.** `TcpPath` and `UdpPath` are the four channel loops of the stack task, `Connection` the
application side and the life of one connection, `UdpDelivery` what the UDP loops move and where they stop.
`Refinement` and `UdpConservation` show that every step of the machine is, for each connection, a run of its own
small machine, so that what holds for one connection holds for all of them together.

**Link to the proxy.** `Framing` is the wire format and the two readers, `Transport` the exact-read and
write-all loops over a transport that splits bytes as it likes, `Misread` what happens to messages over the limit,
`Relay` the batching two-queue writer, `Device` the frame queues and counters. `Correlation` is the id-matched
command protocol of concurrent callers.

**Small parts.** `SplitDrop` is the drop of the two halves of a stream, `Addressing` the address and port
arithmetic.

What the model takes from smoltcp: `send_slice` accepts as much as fits and fails only on a socket that may not
send; `can_send` implies `may_send`; a poll only consumes sent bytes, appends received ones, and reports when a
TCP socket changes state or peer; a reset empties the buffers and may clear the endpoints; a connection that has
ended is not revived.
`listen`, `connect` and `bind` may be refused at any call. Of the stream socket it takes that it delivers bytes
in order and, once a write has failed, takes no more. Length prefixes enter the framing proofs only as a 4-byte
code that reads back; `BigEndianIsLawful` shows that the real one is such a code.

Where the code does not do what its comments or documentation suggest, and exactly when it does:

- A listener's socket that a peer connects to and leaves before it is accepted stays on its list as long as the
  listener is open (`Backlog.EndedForever`), so the number of sockets it can accept with never grows
  (`Backlog.OpenNeverGrows`). A listener can still accept if and only if one of its sockets has not ended
  (`Accepting.CanAcceptIffSomeOpen`), and peers can use up any listener (`Backlog.AnyListenerCanBeSpent`).
- Dropping both halves of a split stream sends a `TcpClose` if and only if the drops do not overlap and the command
  queue is not full (`SplitDrop.CloseSentIff`); every other drop is one try on that queue as well
  (`Leftover.FullQueueLosesCommand`). Without the command the write loop still closes a stream's socket once everything
  is handed over (`Leftover.WriteLoopCloses`, `Connection.DroppedStreamCloses`), but the stack task's entry stays until
  it exits (`Leftover.EntryStaysUntilExit`, `Leftover.UdpEntryStaysUntilExit`), and a listener stays with its port taken
  (`Leftover.ListenerStays`).
- Closing a UDP socket loses what is queued and what smoltcp holds, though `udp_tx_packets` counts the latter
  (`UdpPath.CloseLosesDatagrams`). Dropping it does the same, unless the waiting datagrams fill all slots of the buffer
  (`UdpPath.DropLosesDatagrams`).
- The proxy's reader passes over an overlong length but not over its body. It stays in step if and only if every
  message is within its limit (`Framing.InStepIffWithinLimit`). An overlong command is lost without harm if its length
  is a multiple of four (`Misread.OverlongIsLost`), and otherwise puts the reader out of step
  (`Misread.OverlongPutsOutOfStep`), so that it can deliver a message nobody sent (`Misread.OverlongIsMisread`).
- `udp_rx_dropped` counts polls that found the channel full or closed, and those drop nothing
  (`UdpPath.BlockedPollsCounted`).
- Of each 65536 ephemeral ports exactly the first 16384 are in the dynamic range, and the next one is port 0
  (`Addressing.PortsDistinct`).
- A request id is shared by commands whose numbers are congruent modulo 2^64, and a response goes astray exactly when
  another caller with its id waits, on every run (`Correlation.SameIdIff`, `Correlation.AstrayIff`).

## Model

| member | source | states |
|---|---|---|
| `Theorems.NeverPanics` | src/stack/mod.rs:319-443 | whatever the commands of handle holders, the network, the applications and their order, no lookup in the socket set ever fails |
| `Theorems.HandlesAreIssuedOnce` | src/stack/mod.rs:526-889 | over a whole run no handle is handed out twice as a stream, as a UDP socket or as a listener, although a new socket may get any slot that is free, one that a refused socket had before included; and each still names a live socket of its kind |
| `Theorems.TablesAreOwned` | src/stack/mod.rs:319-443 | in every reachable state listener lists are duplicate-free, pairwise disjoint and disjoint from the sockets with channels; all handles in tables are live and of the right kind; a pending accept has a live listener, so the "listener closed" branch is dead |
| `Theorems.RequestsAreAccountedFor` | src/stack/mod.rs:422-442 | each request sender is pending, answered or dropped, exactly one of these and in one place; after the stack task has returned none is pending |
| `Theorems.ListenersKeepBacklog` | src/stack/mod.rs:599-810 | live listeners have distinct non-zero ports and own as many sockets as at creation, less one per refused replacement, across any number of accepts |
| `Replies.ListenersOwnWhatTheyAsked` | src/stack/mod.rs:599-785 | that number is max(1, backlog) of the listen that opened it: exactly as many sockets if no replacement was refused |
| `Theorems.StreamsConserveBytes` | src/stack/mod.rs:995-1052 | for every stream handed out, at any moment of any run of the whole task: bytes written equal bytes handed to smoltcp, then the backlog; after a close they are still a prefix; bytes read, buffered and queued are the bytes taken from smoltcp in order |
| `Theorems.UdpSocketsAccount` | src/stack/mod.rs:1055-1107 | for every UDP socket handed out, open or closed: accepted datagrams are queued or were passed to smoltcp, and counted as sent or failed; those counted as sent are, in order, transmitted, in the socket while it is open, or lost by its close; delivered ones are those that fit of the first that arrived, in order |
| `Theorems.UdpLossIsFinal` | src/stack/mod.rs:880-889 | once the stack task has let go of a UDP socket, by a close or its exit, nothing that was queued or in the socket is sent in any later run |
| `Theorems.UdpCountersAddUp` | src/stack/mod.rs:1055-1107 | for the tunnel-wide counters, as sums over all UDP sockets ever handed out: accepted = `udp_tx_packets` + `udp_tx_failed` + queued + queued at sockets since let go, `udp_tx_packets` = transmitted + in a socket + lost by a close, and `udp_rx_packets` = received + queued |
| `Wakeup.NoLostWakeup` | src/stack/mod.rs:319-419 | whenever the stack task waits, no pending accept has a connected peer and no pending connect has a socket that is Established, Closed or TimeWait |
| `Wakeup.CompleteSettles` | src/stack/mod.rs:1110-1205 | one attempt at a pending operation leaves it completed or unable to complete, and unblocks no other |
| `Wakeup.CommandSettles` | src/stack/mod.rs:449-523 | handling a command leaves no pending operation that could complete |
| `Safety.RunKeeps` | src/stack/mod.rs:319-443 | every run from a state with the invariant goes on without panic and keeps it |
| `Ownership.CommandLooks` | src/stack/mod.rs:787-889 | a command from the holder of a handle looks up only live sockets of the right kind |
| `Ownership.CommandKeepsOwned` | src/stack/mod.rs:449-523 | every command keeps the ownership of sockets by tables, and no handle is issued a second time |
| `Ownership.CompleteKeepsOwned` | src/stack/mod.rs:1110-1205 | so does completing a pending operation |
| `Ownership.PollWritesKeepsOwned` | src/stack/mod.rs:955-972 | so does serving the write channels |
| `Ownership.PollReadsKeepsOwned` | src/stack/mod.rs:975-992 | so does serving the read channels |
| `Accounting.CommandAccounts` | src/stack/mod.rs:449-523 | after any command every request so far has exactly one fate; a second accept on a listener drops the first one's sender |
| `Accounting.CompleteAccounts` | src/stack/mod.rs:1110-1205 | completing an operation answers its request once and no other |
| `Accounting.CommandKeepsSound` | src/stack/mod.rs:599-810 | every command keeps backlog sizes and distinct non-zero ports |
| `Accounting.ListenOpens` | src/stack/mod.rs:599-673 | a successful listen opens max(1, backlog) distinct new sockets in Listen under a new port |
| `Replies.EveryReplyAnswersItsRequest` | src/stack/mod.rs:526-889 | on every run each reply answers the request it names: a connect gets the asked peer and source address on the one socket it made, once that was Established; a listen the asked address on a socket it made; a bind the asked address, on the asked or the allocated port, of the one socket it made; an accept a socket that was connected on that listener's list. A connect is told ConnectionRefused only if its socket had ended, an accept InvalidInput only if its listener was not open when it was taken, either ConnectionAborted only if the proxy connection was lost |
| `Theorems.EndedConnectIsRefused` | src/stack/mod.rs:1117-1160 | on every run, whenever the stack task waits, a connect whose socket has ended without being seen connected has been told ConnectionRefused (or its sender was dropped), while the proxy connection stands |
| `Replies.SourcesFollowTheAllocator` | src/stack/mod.rs:1276-1281 | on every run the source address of requests never changes and their ports are those of the allocator in order, one for each connect and each bind to port 0 |
| `Replies.SightsHappened` | src/stack/mod.rs:723-785 | what an accept was told of was, at some moment of the run, a socket on that listener's list, Established, with those endpoints; so too for the socket of a connect |
| `Replies.AcceptIsAnswered` | src/stack/mod.rs:703-785 | an accept hands out a connected socket of that listener with its own endpoints and fresh channels; it leaves the list, and its replacement is new and listens on the same address |
| `Replies.SecondAcceptReplacesFirst` | src/stack/mod.rs:715-718 | of two accepts that have to wait on one listener the first is dropped unanswered |
| `Replies.ListenerCloseIsExact` | src/stack/mod.rs:787-810 | closing a listener closes its sockets that still listen and touches no other socket or channel |
| `Refinement.StepRefines` | src/stack/mod.rs:319-443 | each step of the stack task is, for each TCP connection, the run of its own events: a close reaches only the connection it names, however slots are reused |
| `Conservation.RunConserves` | src/stack/mod.rs:319-443 | on every run of the stack task each connection keeps the conservation invariant of the single connection |
| `UdpConservation.StepRefinesUdp` | src/stack/mod.rs:319-443 | each step of the stack task is, for each UDP socket, the run of its own events |
| `UdpConservation.RunConservesUdp` | src/stack/mod.rs:319-443 | on every run of the stack task each UDP socket keeps its accounting invariant |
| `Backlog.EndedForever` | src/stack/mod.rs:723-785 | a listed socket whose peer connected and left unaccepted stays on the list in every run, neither accepted nor replaced, while the listener is open |
| `Backlog.OpenNeverGrows` | src/stack/mod.rs:723-785 | the number of listed sockets that have not ended never grows: each such peer costs one of the backlog for good |
| `Backlog.SpentForever` | src/stack/mod.rs:723-785 | once all peers on a listener's list have left unaccepted, no run accepts or replaces any of its sockets |
| `Backlog.AnyListenerCanBeSpent` | src/stack/mod.rs:723-785 | if all peers of a listener connect and hang up before they are accepted, by the transitions of RFC 9293, no later run accepts or replaces any of its sockets |
| `Accepting.CanAcceptIffSomeOpen` | src/stack/mod.rs:675-785 | whenever the stack task waits and no close of the listener is queued, some run hands out one of its sockets in the reply to an accept if and only if one of them has not ended |
| `Progress.WakeServesAll` | src/stack/mod.rs:319-419 | a wake leads through one pass of the loop in which every write channel and then every read channel is served once, and back to waiting |
| `Progress.CompletingEnds` | src/stack/mod.rs:1110-1205 | a pass in which something changed tries every pending operation, in any order, and ends waiting |
| `Progress.CommandComesUp` | src/stack/mod.rs:330-372 | queued commands are handled in order, and each one comes up |
| `Progress.CloseTakesEffect` | src/stack/mod.rs:787-889 | a holder's close that finds room in the command queue takes effect in its turn, whatever is queued before it: the stream's or UDP socket's entry goes, the listener goes with its waiting accept |
| `Progress.LostLinkEndsTask` | src/stack/mod.rs:422-442 | when the proxy connection is found lost the stack task goes on to end, with every waiting request told ConnectionAborted |
| `Progress.DisconnectEndsTask` | src/stack/mod.rs:319-443 | when the last command sender is gone it ends too, but drops every waiting request unanswered |
| `Stack.FirstReady` | src/stack/mod.rs:727-752 | the first listed socket that is Established with a remote endpoint, or none if there is none |
| `StackTask.Task.HandleTcpConnect` | src/stack/mod.rs:526-597 | a socket is added on a free slot and removed again when smoltcp refuses it, which leaves no trace but a used port; otherwise it is on its way to the peer, with unused channels and an operation that waits for it, and no other socket changes |
| `StackTask.Task.HandleTcpListen` | src/stack/mod.rs:599-673 | port 0 and a taken port are refused; the loop adds the backlog or, on a refusal, takes back what it added |
| `StackTask.Task.AddListeningSockets` | src/stack/mod.rs:630-655 | all sockets are added under free slots, or the socket set is as before |
| `StackTask.Task.PortInUse` | src/stack/mod.rs:618-628 | true exactly when a live listener has the port |
| `StackTask.Task.TryAcceptSocket` | src/stack/mod.rs:723-785 | takes exactly the first ready socket off the list and replaces it; without one nothing changes |
| `StackTask.Task.HandleTcpAccept` | src/stack/mod.rs:675-718 | answers at once with a ready socket, else queues and drops a previous waiter |
| `StackTask.Task.HandleTcpListenerClose` | src/stack/mod.rs:787-810 | drops a pending accept and closes the listed sockets still in Listen, no others |
| `StackTask.Task.HandleTcpClose` | src/stack/mod.rs:812-821 | only the named socket changes, by the CLOSE call of its state; its entry goes, chunks already queued for the reader stay, no other entry changes |
| `StackTask.Task.HandleUdpBind` | src/stack/mod.rs:823-878 | the one reply has the asked address on the asked or the allocated port and a new open socket with unused channels, or AddrInUse and nothing changed; no other socket changes |
| `StackTask.Task.HandleUdpClose` | src/stack/mod.rs:880-889 | only the named socket changes: it is closed and emptied; its entry goes, datagrams queued for the reader stay |
| `StackTask.Task.PollWriteChannels` | src/stack/mod.rs:955-972 | in whatever order the tables are walked, every socket's write channel is served once, against the tables as they were |
| `StackTask.Task.PollReadChannels` | src/stack/mod.rs:975-992 | the same for the read channels |
| `StackTask.Task.CompletePending` | src/stack/mod.rs:1117-1199 | completes one pending connect or accept; a connect is told that its stream is ready if its socket is Established, ConnectionRefused if it is Closed or TimeWait, and otherwise nothing yet |
| `StackTask.Task.ProcessPending` | src/stack/mod.rs:1110-1205 | in any order of the snapshot, afterwards no pending operation could complete, ownership holds, and earlier replies are kept |
| `StackTask.Task.FailPending` | src/stack/mod.rs:422-442 | each pending operation gets one ConnectionAborted reply, nothing stays pending |
| `TcpPath.ProcessTcpWrite` | src/stack/mod.rs:995-1032 | the loop computes the write transition |
| `TcpPath.WriteStepIsGreedy` | src/stack/mod.rs:995-1032 | however the bytes are cut into chunks, the transition hands over the longest prefix of the backlog that fits, keeps the rest in order, and closes exactly when the writer is gone and all of it fits with room to spare |
| `TcpPath.ProcessTcpRead` | src/stack/mod.rs:1035-1052 | the loop computes the read transition |
| `TcpPath.ReadStepIsOrderly` | src/stack/mod.rs:1035-1052 | bytes move from socket to channel in order, none lost, and stop only at a full or closed channel or an empty socket |
| `Connection.TcpStream.Read` | src/socket/mod.rs:67-149 | the bytes stored are the next ones in order, as many as fit of what is buffered or else of the next chunk, and the rest is kept; it waits if and only if nothing is buffered or queued and more can come |
| `Connection.TcpStream.PollWrite` | src/socket/mod.rs:153-175 | a chunk is accepted whole or not at all |
| `Connection.TcpStream.IntoSplit` | src/socket/mod.rs:200-232 | each half has one channel end and lacks the other, the read half has all buffered bytes, and the stream keeps nothing |
| `Connection.RunKeepsConn` | src/stack/mod.rs:995-1052 | conservation in both directions on every run of one connection |
| `Connection.InOrderDelivery` | src/socket/mod.rs:67-175 | bytes handed over are a prefix of bytes written, bytes read a prefix of bytes arrived, with equality of the parts while the connection is attached |
| `Connection.EofExactlyAtEnd` | src/socket/mod.rs:67-87 | a read into a non-empty buffer gives 0 bytes exactly when the stack task has let go and everything taken was delivered |
| `Connection.HalfCloseFlushes` | src/stack/mod.rs:995-1032 | after the writer is dropped the socket is closed only once every accepted byte was handed over, and exactly when the backlog fits with room to spare |
| `Connection.CloseLosesBacklog` | src/stack/mod.rs:812-821 | a close command loses exactly the backlog of that moment, in every later run |
| `Connection.BacklogDrains` | src/stack/mod.rs:995-1032 | each round of acknowledgement and poll hands over one more buffer's worth: nothing stalls |
| `Connection.WrittenIsHandedOver` | src/socket/mod.rs:153-175 | what is written while the channel has room is handed to smoltcp behind everything accepted before, after enough rounds |
| `Connection.ReadsDeliver` | src/socket/mod.rs:67-149 | enough reads, into a buffer of any size, deliver everything the stack task took from the socket |
| `Connection.EverythingIsRead` | src/stack/mod.rs:1035-1052 | polls and reads alone bring the application everything that arrived on an open connection, in order |
| `Connection.DroppedReaderHoldsBack` | src/stack/mod.rs:1035-1052 | after the reader is dropped nothing more is taken from the socket or delivered, in every later run |
| `TcpPath.CloseIsFinal` | src/stack/mod.rs:812-821 | after the CLOSE call nobody may send, a second one changes nothing, and the connection is gone at once exactly if it was never made |
| `Connection.DroppedStreamCloses` | src/stack/mod.rs:1015-1032 | a stream whose writer is dropped needs no close command: after enough rounds for its backlog every byte is handed over and the write loop has closed the socket |
| `Leftover.WriteLoopCloses` | src/stack/mod.rs:955-1032 | in the whole stack task, the write loop closes the socket of such a stream exactly when its backlog fits with room to spare, with every byte handed over, and the entry stays |
| `Leftover.EntryStaysUntilExit` | src/stack/mod.rs:319-443 | as long as its close is not queued, because nobody sent it or because the queue was full, the entry of a stream stays in every run until the stack task exits |
| `Leftover.UdpEntryStaysUntilExit` | src/stack/mod.rs:319-443 | the same for the entry of a UDP socket |
| `Leftover.ListenerStays` | src/stack/mod.rs:787-810 | as long as its close is not queued, a listener stays in every run and its port is taken |
| `Leftover.FullQueueLosesCommand` | src/socket/mod.rs:243-249 | a close that finds the command queue full is lost: unless tried again it is not queued at any moment of any later run |
| `UdpPath.ProcessUdpWrite` | src/stack/mod.rs:1055-1080 | the loop computes the write transition |
| `UdpDelivery.UdpWriteIsOrderly` | src/stack/mod.rs:1055-1080 | which passes queued datagrams to smoltcp one by one in order, stops only at an empty queue or without a free slot, and closes the socket behind the last one exactly if nobody can send any more |
| `UdpPath.ProcessUdpRead` | src/stack/mod.rs:1083-1107 | the loop computes the read transition |
| `UdpDelivery.UdpReadIsOrderly` | src/stack/mod.rs:1083-1107 | which takes datagrams off the socket in order, queues exactly those that fit the buffer and counts them, and stops only at an empty socket, a full or closed channel, or behind the first datagram that does not fit |
| `UdpDelivery.SentIsPassedOn` | src/stack/mod.rs:1055-1080 | a datagram sent is passed to smoltcp, behind those queued before, by the next poll that has slots for all |
| `UdpDelivery.EverythingIsReceived` | src/stack/mod.rs:1083-1107 | polls and receives alone bring the application every datagram that arrived and fits, in order |
| `UdpDelivery.DroppedReceivesNothing` | src/stack/mod.rs:1083-1107 | after the socket is dropped nothing more is received or accepted, in every later run |
| `UdpPath.BlockedPollsCounted` | src/stack/mod.rs:1083-1107 | `udp_rx_dropped` grows exactly by the polls that end behind a full or closed channel, and in those every datagram is in the channel or still in the socket, in order |
| `UdpPath.RunKeepsUdp` | src/stack/mod.rs:1055-1107 | on every run, before and after a close: accepted datagrams are queued or were passed to smoltcp; those it took are transmitted, in the socket or lost by the close, in order; received ones are those that fit of the first that arrived, in order |
| `UdpPath.CloseLosesDatagrams` | src/stack/mod.rs:880-889 | a close command loses exactly what is queued and what is in the socket, in every later run, though the latter are counted as sent |
| `UdpPath.DropLosesDatagrams` | src/stack/mod.rs:1055-1080 | after the application drops its socket the next poll loses all that waits, unless it fills the 256 slots of the buffer: if smoltcp takes every datagram, something can still be transmitted if and only if it does |
| `UdpPath.NoneLostIffSmall` | src/stack/mod.rs:1083-1107 | no datagram is lost or reordered on the way to the application's channel if and only if each one that left the socket has at most 9216 bytes |
| `UdpPath.RecvFrom` | src/socket/mod.rs:483-498 | the caller gets the next datagram cut to its buffer, all of it exactly when it fits |
| `Framing.DecodeInvertsEncode` | src/protocol.rs:147-174 | a message decodes to itself, and only its encoding decodes to it |
| `Framing.LengthRoundTrip` | src/protocol.rs:179-187 | the written prefix reads back as the length modulo 2^32 |
| `Framing.BytesRoundTrip` | src/protocol.rs:197-198 | every 4 bytes are the prefix of the length they read as |
| `Framing.BigEndianIsLawful` | src/protocol.rs:179-198 | the prefix is a one-to-one code of the lengths below 2^32 |
| `Framing.ParseFramed` | proxy/src/main.rs:819-840 | messages within the limit are read back exactly, whatever follows them |
| `Framing.ParsePrefix` | proxy/src/main.rs:819-840 | from any beginning of the stream the reader has exactly the complete messages of it, and is at a boundary or inside the next message |
| `Framing.InStepIffWithinLimit` | proxy/src/main.rs:826-830 | a reader recovers exactly the messages sent if and only if each is within its limit (for the proxy: non-empty, at most mtu + 30) |
| `Misread.OverlongIsLost` | proxy/src/main.rs:826-830 | a command over the limit whose length is a multiple of four is lost, and all that follows is read as sent |
| `Misread.OverlongPutsOutOfStep` | proxy/src/main.rs:826-830 | after any other the reader goes on inside the length of the next message |
| `Misread.OverlongIsMisread` | proxy/src/main.rs:826-830 | then, with the real length prefix, an overlong command and a frame of the device's size can be read as a third message that nobody sent |
| `Framing.FitsProxyIff` | proxy/src/main.rs:818-830 | a message gets through to the proxy if and only if its payload has at most mtu + 29 bytes, as every frame of the device does |
| `Transport.Fd.ReadExact` | proxy/src/main.rs:239-261 | fills the buffer with the next bytes for every splitting of the stream, terminates by remaining length, and succeeds on an error-free transport exactly when enough bytes come |
| `Transport.Fd.WriteAll` | proxy/src/main.rs:264-280 | writes all bytes for every splitting, tries again after any write that took nothing, or a proper beginning of them on an error |
| `Transport.Fd.WriteFramed` | src/protocol.rs:179-187 | writes prefix and message, or a proper beginning on an error or a write that took nothing |
| `Transport.Fd.ReadFramed` | src/protocol.rs:192-210 | reads exactly one framed message, into the buffer if it is large enough; on an error-free transport exactly when a whole non-empty one comes |
| `Transport.Fd.ReadHandshakeLength` | src/lib.rs:607-652 | short reads and timeouts before the deadline do not change the length read; it fails on the end of the stream, an error, the deadline or the exit of the proxy |
| `Transport.Fd.ReadMessages` | proxy/src/main.rs:819-872 | the relay's reader loop gets exactly the parse of the stream, for every splitting; with errors a beginning of it |
| `Transport.FramedIsUnique` | src/protocol.rs:179-210 | a stream starts with one framed message in at most one way, so what is read is what was written |
| `Relay.RunKeeps` | src/lib.rs:940-1023 | on every run of the writer, wire and buffer together are the plain framing of the messages taken, which with the queues make up the accepted ones in order; after a failed write, the wire is a beginning of it that may hold part of the message whose write failed, but not all |
| `Relay.BatchingRefinesFraming` | src/lib.rs:940-1023 | on every run and wherever the reader is before the first message over its limit, it has a merge of beginnings of the two queues in order, nothing added; when the writer waits, all that is not still queued |
| `Relay.WriteBatch` | proxy/src/main.rs:769-812 | one pass of the loop, with messages arriving and the transport failing at any point, is a run of the machine that ends waiting with everything taken on the wire, or stopped; undisturbed it takes all that was queued; a first write that fails stops it, a later one stops the proxy's writer at once, and the library's exactly if the flush leaves something |
| `Relay.TransmitCounters` | src/lib.rs:950-1004 | frames accepted = `ipc_tx_frames` + `ipc_tx_errors` + queued, offered = accepted + dropped, and queues stay within capacity, at every moment |
| `Relay.CountersTellApart` | src/lib.rs:950-1004 | `ipc_tx_frames` counts exactly the frames written, `ipc_tx_errors` exactly those whose write failed |
| `Relay.OfferIsTakenIff` | src/stack/device.rs:109-126 | on every run an offered frame or command is queued if and only if the writer has not stopped and its queue is not full, and a frame is counted as dropped otherwise |
| `Relay.ClosedQueueIsWritten` | src/lib.rs:940-1023 | a waiting writer stops exactly when it finds a queue closed, and by then everything that queue accepted is on the wire |
| `Relay.BrokenWireIsFinal` | src/lib.rs:940-1023 | once the transport is broken nothing more gets on the wire |
| `Device.ReceiveCounters` | src/lib.rs:902-918 | `ipc_rx_frames` = `device_rx_frames` + queued + `ipc_rx_dropped` (+ 1 if the reader found the queue closed), at most 2048 queued, order kept |
| `Device.FrameIsDroppedIffFull` | src/lib.rs:902-918 | on every run a frame that arrives while the device is there is dropped and counted if and only if the queue is full, and queued otherwise |
| `Device.NoneDroppedIffKeptUp` | src/lib.rs:902-918 | on every run no frame is dropped if and only if each one that arrives finds fewer outstanding than the queue holds |
| `Device.ReceivesDrain` | src/stack/device.rs:56-78 | a device that goes on receiving gives the stack everything queued |
| `Device.ProxyDevice.Receive` | src/stack/device.rs:56-78 | takes the oldest queued frame and counts it |
| `Device.ProxyDevice.Consume` | src/stack/device.rs:109-126 | queues and counts the frame as sent, or counts it as dropped |
| `Device.FramesReachTheStack` | proxy/src/main.rs:734-812 | frames given to the stack are frames the proxy accepted from the TAP device, in order and none twice; all of them when nothing was dropped and the reader has caught up |
| `Device.FramesReachTheTap` | proxy/src/main.rs:815-872 | wherever it is before the first message over its limit, the proxy's bounded reader has exactly a beginning of the frames and of the commands, in order; wherever it is, if frames have at most mtu + 14 bytes and commands at most mtu + 29 |
| `Device.TapInStepIff` | proxy/src/main.rs:815-872 | with frames of at most mtu + 14 bytes the reader gets all that was taken if and only if no command is over mtu + 29 bytes |
| `Correlation.RunKeeps` | src/lib.rs:1333-1368 | under every interleaving in which unfinished commands are among the latest 2^64, ids, registrations and messages under way match their callers |
| `Correlation.RunTraced` | src/lib.rs:1333-1368 | on every run, without that condition, ids follow the callers' numbers, a waiting caller is the one registered under its id, and every message under way carries its caller's id |
| `Correlation.ResponsesMatch` | src/lib.rs:1275-1331 | then a caller's response carries its own id, is an error if and only if its own foreign call failed, and otherwise statistics if it asked for them and a plain success if not: "unexpected response" is unreachable |
| `Correlation.DeliveryIsExact` | src/lib.rs:919-933 | then each response goes to the caller whose command it answers if that one still waits, changes no other caller, and takes the entry under its id away |
| `Correlation.AnsweredForGood` | src/lib.rs:919-933 | a caller gets at most one response |
| `Correlation.GivesUp` | src/lib.rs:1333-1368 | a caller that is cancelled or cannot send never gets one |
| `Correlation.LostLinkAnswersNobody` | src/lib.rs:919-933 | when the link is lost nobody gets a response until a new command is sent |
| `Correlation.CallerCanBeAnswered` | src/lib.rs:1333-1368 | whatever is under way, a caller that has started can get the response to its own command |
| `Correlation.FewCommandsAreRecent` | src/lib.rs:1338 | runs of at most 2^64 commands meet the condition, however many steps they take |
| `Correlation.SameIdIff` | src/lib.rs:1338 | two callers have the same id if and only if their numbers are congruent modulo 2^64 |
| `Correlation.AstrayIff` | src/lib.rs:919-933 | on every run, however often ids have come round, a response reaches a caller it was not meant for if and only if that caller waits under the same id |
| `Correlation.SharedIdMisleads` | src/lib.rs:1338-1353 | in every state of a run, a caller that starts while a response to another command with its id is under way is given that response once it registers |
| `Correlation.EveryResponseCanGoAstray` | src/lib.rs:1338-1353 | so every response under way can go to a later command, once enough have started for the ids to come round |
| `Correlation.OldCommandIsMistaken` | src/lib.rs:1338-1353 | for instance from the start, with a response of a kind the later caller does not expect |
| `SplitDrop.OneAttemptAtMost` | src/socket/mod.rs:325-332 | every interleaving of the two drops tries to send at most one `TcpClose` |
| `SplitDrop.CloseSentIff` | src/socket/mod.rs:421-428 | after both drops one `TcpClose` was tried if and only if one drop was over before the other looked at the count, and it was sent if and only if, besides, the command queue had room |
| `Addressing.IncrementOctets` | src/protocol.rs:219-229 | the carry loop computes the successor byte string |
| `Addressing.SuccessorIsPlusOne` | src/protocol.rs:219-229 | which is +1 modulo 256^n on the numbers, for any length n |
| `Addressing.CarryLoopComputesClient` | src/protocol.rs:213-231 | for the 16 octets of an IPv6 address it is +1 modulo 2^128 |
| `Addressing.SameNetworkIff` | src/protocol.rs:240-262 | two addresses are equal under the prefix mask if and only if they are in the same block of the size of the host part |
| `Addressing.DefaultClientIsNext` | src/protocol.rs:213-231 | the default client is the next address of the same family modulo the address space; only the last IPv4 address has none |
| `Addressing.InSubnetIff` | src/protocol.rs:234-262 | an address is found in the subnet if and only if it is of the same family and in the same block |
| `Addressing.DefaultClientInSubnetIff` | src/protocol.rs:213-264 | for every prefix but 0 the default client is in the TAP subnet if and only if the TAP host part is not all ones |
| `Addressing.PortAfter` | src/stack/mod.rs:1276-1281 | the k-th allocated port is (49152 + k) mod 65536 |
| `Addressing.PortsDistinct` | src/stack/mod.rs:1276-1281 | ports are distinct over any 65536 allocations, in the dynamic range of section 6 of RFC 6335 exactly for the first 16384 of each 65536, and 0 exactly for the next one |

## Left out

- smoltcp itself (retransmission, ARP, NDP, checksums, timers): the model keeps states and byte queues and the assumptions named above.
- Scheduling, wakers, timers and task aborts of tokio; channels are bounded FIFO queues and every step is atomic.
- The limit of 256 ingress batches per poll and the bias of the stack task's `select!`: the model allows every order, so liveness under load is not claimed.
- JSON text of control messages: payloads are byte strings, commands and responses are values.
- Process spawning, namespaces, TAP and rtnetlink calls, `/proc/net/dev`: foreign calls whose outcome is a parameter or absent.
- IP address add, remove and list, packet-loss injection, log output and builders: only easy properties.
- End of stream on a peer's FIN and liveness after the proxy connection is lost: the code does not provide them.
- Sockets are never removed from the socket set once published; the model shows that this is what keeps handles unique, not that memory is bounded.
- The gratuitous ARP frame that the proxy may write before its relay starts.
- Explicit shutdown of a split stream's write half, which sends a close of its own beside the two drops.
- Addressing.DefaultClientInSubnetIff: leaves out prefix 0 and the IPv4 address 255.255.255.255, where the code's shift or addition overflows.
