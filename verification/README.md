# Verified model of the SOCKS5 proxy and its monitoring protocol

A Dafny model of a single-threaded, non-blocking SOCKS5 proxy (RFC 1928
sections 3, 4 and 6, RFC 1929 section 2) that resolves names on helper threads,
and of the binary protocol a monitoring client talks to it. `dafny verify
dfyconfig.toml` checks the whole project.

Four things are modelled, each first as steps on values, about which runs are
reasoned, and then as classes over arrays, buffers and parser objects whose
methods are proved to take exactly those steps.

* **Connection life cycle** (`Lifecycle*.dfy`, `Pool.dfy`, `Selector.dfy`). A
  transition system whose steps are the atomic sections of the event loop and
  of any number of name-resolution workers, in any interleaving: reference
  counts, the `cancelled` flag, two mutexes taken in opposite orders, queued
  notifications, re-entrant closing, forced shutdown. Steps are not guarded by
  what they should keep: touching a freed connection, a reference count below
  zero, closing a descriptor twice, using a destroyed selector or destroying a
  held mutex set a `fault` flag, which is proved never to be set. The pool is
  also given as the linked list it is, and the selector as its item table.
* **Relay** (`Buffer.dfy`, `Relay*.dfy`). Two bounded buffers with in-place
  compaction, partial reads and writes, half-close and interests, for every
  sequence of readiness events; integrity, order, absence of stalls, when it
  closes, termination.
* **Handshake and origin connect** (`Hello.dfy`, `Auth.dfy`, `Request.dfy`,
  `Chunks.dfy`, `Handshake*.dfy`). Byte-at-a-time parsers against one
  declarative grammar each, the state machine whose missing handlers abort, the
  handlers that assign its current state from outside, and the fallback over
  resolved addresses; what every client is told, what an honest one gets, and
  the limits of it. `Bridge*.dfy` show that the life cycle abstracts the
  handshake.
* **Monitoring** (`Mon*.dfy`, `UserTable.dfy`, `AccessLog.dfy`). Encoders,
  decoders, the incremental request parser with its skipping loops, the slot
  table, the circular log, the server's replies and the client's state machine,
  composed over two lossless byte streams cut anywhere; and each of the two
  alone, with a peer that may send anything.

## Reading the model

Fields called history in a comment are not in the program and no step reads
them. Where the program leaves its own error path, the model has that path:
results are `Option`s, `-1`, status values or states, as in the source.

What the kernel and the C library do is a parameter of the step that calls
them, within their contracts: a read gives between one byte and the room
offered, end of stream, a would-block error or a failure, and end of stream
whenever no room is offered; a write takes at most what it is given;
`getaddrinfo` gives an error or a non-empty list; a connecting socket is
reported writable once its connect has settled; readiness belongs to the item
registered for the descriptor. Relay streams begin at `start_relay`, which
resets both buffers.

## Findings

* The selector indexes its table past its end. `selector_register` compares with
  `>`, so it lets through exactly the descriptor equal to the table's size
  (`FdSelector.Add`); `selector_unregister_fd` and `selector_set_interest`
  (src/shared/selector.c:360 and :391) do not compare at all. Unregistering also
  goes on with a pointer that its callback has made stale by growing the table,
  or with an item its callback has unregistered. `FdSelector.Remove` and
  `FdSelector.RunAll` say exactly when operations go outside, in any table and
  with any callbacks; with a slot for every descriptor named and callbacks that
  leave their own item alone they never do (`AllStayInside`), as in the server's
  table, 1025 slots for descriptors below 1024 (`FullStaysInside`). A selector
  made for 16 elements has 33 slots and descriptor 33 is a case
  (`OverrunExample`).
* A response whose payload pointer is NULL but whose length is not 0 is encoded
  without its payload, and decoding inverts encoding exactly for the others
  (`DecodeInvertsEncode`, `NullPayloadIsLost`). The server never sends one.
* When a connect that was waited for fails, the refusal names the error of the
  last address to fail except exactly when entries are left of which none is a
  stream (`RefusalNamesTheFailure`): `start_resolved_connect` starts from host
  unreachable, and with no address left to dial that is what it returns. A
  refused connection is then answered as unreachable (`MaskedIsReached`). The
  resolver is asked for stream entries only (src/server/dns_resolver.c:27-30), so
  this needs a resolver that gives others all the same.
* When memory for a notification cannot be found (src/shared/selector.c:485-489)
  the worker has stored its answer but nobody is told. These are exactly the
  connections that are open, not relaying, and can never go on
  (`StuckExactly`), this is the only way to become one (`StuckOnlyByLoss`), and
  any client that asks by name can (`StuckIsReached`).
* A handshake read with no room is taken for an end of stream, which closes the
  connection (src/server/socks5nio.c:80-86). It happens only to a client that has
  sent ahead (`NoRoomOnlyAhead`), exactly after a read that filled the buffer
  with more than the current parser needs (`RoomExactly`); 4093 bytes after the
  first message are enough (`NoRoomIsReached`).
* In forced shutdown the branch that removes a connection from the pool after
  closing it is never taken: the close callback has already done so.
* The last `return false` of `user_table_add`, the truncation in
  `list_user_cb` and the failure of a response's encoding are never reached, and
  with this server neither is the client's response-too-large branch.

## Model

| member | source | states |
|---|---|---|
| LifecycleTheorems.NoFault | src/server/socks5.c:99-115 | In every interleaving: no freed connection is touched, no reference released twice, no descriptor closed twice or while registered, no held mutex destroyed, and the selector is not used after its destruction |
| LifecycleTheorems.ReferencesAreShares | src/server/dns_resolver.c:34-50 | A live connection's reference count is its owner's share, plus one for each running worker and each queued notification that hold one, plus the one the main thread took for a worker not yet started; and it is never 0 |
| LifecycleTheorems.StartsOnce | src/server/dns_resolver.c:63-95 | A connection about to start a worker has never had one |
| LifecycleTheorems.NoDeadlock | src/server/dns_resolver.c:34-50 | No reachable state has a cycle of threads waiting for each other's mutexes, though worker and main thread take them in opposite orders |
| LifecycleTheorems.SomeoneMoves | src/shared/selector.c:452-476 | Unless every thread has ended or is between two handlers, some thread can take its next section |
| LifecycleTheorems.CancelledWorkerIsSilent | src/server/socks5.c:123-129 | After a connection's cancellation its worker is never again in a section that uses the selector, in any continuation |
| LifecycleTheorems.CleanedOnce | src/shared/selector.c:286-307 | A notification is cleaned up at most once, and exactly once by the end, by the loop or by the destruction |
| LifecycleTheorems.NothingLeaks | src/server/main.c:245-246 | After shutdown, once the workers have ended, no connection, descriptor, item or pool entry is left |
| LifecycleTheorems.LedgerAgrees | src/server/socks5nio.c:174-195 | The pool has no repetition, is exactly the registered connections, its size is the current_connections metric; every item watches an open descriptor and every open descriptor has one owner |
| LifecycleTheorems.ShutdownTerminates | src/server/socks5nio.c:199-206 | Each section of the main thread during forced shutdown decreases a measure, whatever workers do in between, until the pool is empty |
| LifecycleTheorems.HandledExactly | src/shared/selector.c:460-468 | A notification reaches its handler exactly when its connection is still registered and not being closed, and then for that connection; otherwise it is only cleaned up |
| LifecycleSteps.OpenIsHandled | src/shared/selector.c:460-466 | The notification of a live connection finds its handler: the job names the connection's own descriptor |
| LifecycleSteps.ChangeInv | src/server/socks5.c:479-491 | A section about one connection that keeps that connection's part of the invariant keeps the rest of it |
| LifecycleWork.StepInv | src/server/dns_resolver.c:22-57 | Every section of every thread keeps the invariant |
| RelayRuns.StreamIntegrity | src/server/socks5.c:196-245 | In each direction the bytes read since the relay began are the bytes written followed by at most 4096 bytes buffered, in order, and the metric counts every byte written |
| RelayRuns.HalfCloseOrder | src/server/socks5.c:133-160 | A side is shut for writing at most once, only after its peer's end of stream and all its peer's bytes, and is not written to afterwards; nothing is read after an end of stream |
| RelayRuns.NeverStalls | src/server/socks5.c:163-179 | An open relay watches for reading exactly the sides that have not ended and have room, for writing exactly those with bytes waiting, and always something |
| RelayRuns.ClosesExactly | src/server/socks5.c:196-245 | Each event moves exactly the bytes its calls moved, and closes the relay exactly when its read failed, the write it attempted failed, or both sides have ended and were sent everything; otherwise a side is shut exactly once its peer has ended and all its bytes were delivered |
| RelayRuns.EofIsNotAFullBuffer | src/server/connect.c:210-235 | Whenever an end of stream is recorded there was room to read into |
| RelayRuns.RelayTerminates | src/server/socks5.c:213-245 | With finite sources and willing sinks a run has at most two moves per byte and one per side; a relay that cannot move has closed, and then each side was sent exactly what the other sent |
| RelayRuns.MeasureDecreases | src/server/connect.c:238-257 | Every dispatched event decreases the measure over unread bytes, buffered bytes and unseen ends |
| RelayLoop.RelayState.constructor | src/server/socks5.c:182-192 | Starting a relay resets both buffers and computes interests afresh |
| RelayLoop.RelayState.FlushFrom | src/server/socks5.c:196-210 | Draining a buffer into a socket over real buffers is the relay's flush: what it takes and when it fails is what `RelayRuns.ClosesExactly` says |
| RelayLoop.RelayState.ShouldClose | src/server/socks5.c:143-160 | Which sides are shut, and whether the tunnel is finished |
| RelayLoop.RelayState.OnReadable | src/server/socks5.c:213-233 | The read handlers of both sides take the relay's step |
| RelayLoop.RelayState.OnWritable | src/server/connect.c:237-257 | The write handlers of both sides take the relay's step |
| Buffers.Buffer.Compact | src/shared/buffer.c:76-88 | Moving the pending bytes to the front, over themselves, keeps them and frees the rest |
| Buffers.Buffer.ReadAdv | src/shared/buffer.c:46-56 | Bytes leave from the front, and a buffer that drains has its whole capacity again |
| Buffers.Buffer.ReadByte | src/shared/buffer.c:58-67 | One byte leaves, or 0 is given by an empty buffer |
| Buffers.Buffer.Deliver | src/shared/buffer.c:39-44 | Bytes stored after the write index become pending, in order |
| Chunks.ConsumeSplit | src/server/hello.c:54-63 | Consuming two pieces in turn is consuming them joined |
| Chunks.ChunkIndependence | src/server/request.c:91-100 | However a stream is cut into reads, the parser ends the same and leaves the same bytes |
| Hello.MeetsGrammar | src/server/hello.c:10-35 | The parser reads what the negotiation message's grammar says, takes exactly its bytes, and selects 0x02 exactly when offered |
| Hello.AnySplit | src/server/hello.c:54-63 | The same for any cut of the stream |
| Hello.HelloParser.ConsumeFrom | src/server/hello.c:54-63 | The consume loop over a real buffer leaves exactly what the parser did not need |
| Auth.MeetsGrammar | src/server/auth.c:14-57 | The credentials parser reads, as C strings, the user and password of the grammar, and takes exactly its bytes; indexes stay in the arrays for lengths up to 255 |
| Auth.AnySplit | src/server/auth.c:76-84 | The same for any cut of the stream |
| Auth.AuthParser.FeedByte | src/server/auth.c:14-57 | One byte, in place in the credential arrays |
| Request.MeetsGrammar | src/server/request.c:19-71 | The request parser reads the grammar's command, address type, address and port, with the errors of version, reserved byte and address type where the grammar has them |
| Request.AnySplit | src/server/request.c:91-100 | The same for any cut of the stream |
| Request.Bound | src/server/request.c:112-127 | The endpoint of a reply is the IPv4 address and port of a socket address of at least 16 bytes, the IPv6 address and port of one of at least 28, and zeros for anything else |
| Request.ReadsBack | src/server/request.c:102-147 | Any marshalled reply is read back by the request parser: its code and that endpoint, taking exactly its bytes |
| Request.Marshall | src/server/request.c:102-147 | The reply written for a bound address, or -1 and nothing when it does not fit |
| Request.RequestParser.ConsumeFrom | src/server/request.c:91-100 | The consume loop over a real buffer leaves exactly what the parser did not need |
| HandshakeTheorems.NeverAborts | src/shared/stm.c:48-65 | No missing handler is called and no second origin descriptor opened; an open connection is never in the error state, its client's interest agrees with its state, and bytes wait exactly when it is watched for writing |
| HandshakeTheorems.RepliesFit | src/server/connect.c:144-165 | In every state not waiting to write, a reply fits the write buffer |
| HandshakeTheorems.RelaysOnlyAfterHandshake | src/server/socks5.c:297-435 | A relaying connection was first sent a whole negotiation offering 0x02, whole credentials the user table knew when compared, and a whole CONNECT; it has been sent exactly the three positive replies; the access log was given one entry with that user and the destination and port of that CONNECT; the relay starts afresh |
| HandshakeTheorems.SaysOnlyReplies | src/server/socks5.c:311-372 | What was sent is at all times a prefix of three replies: 05 and 02 or FF as 0x02 was offered or not, 01 and 00 or 01 as the credentials matched the user table or not, and the reply to the request, which needs accepted credentials |
| HandshakeTheorems.DialsInOrderOnce | src/server/connect.c:89-142 | What is dialled is the address and port of the CONNECT, or the addresses found for its name in list order, each once, the name and port looked up being those of the CONNECT; failure is reported only when all were tried, success only while an origin is connected |
| HandshakeTheorems.FallbackShrinks | src/server/connect.c:167-207 | Moving on after an asynchronous failure uses up addresses; otherwise the request is answered |
| HandshakeAnswers.RequestAnswered | src/server/socks5.c:382-403 | Whatever bytes arrive and however they are cut, a request is answered once the grammar says it is whole, and with 01 for a wrong version, 08 for an address type, 07 for a command other than 1; a CONNECT with what its connect or the start of name resolution returned, success with the bound address and port, every refusal with zeros |
| HandshakeAnswers.NamesAnswered | src/server/socks5.c:276-295 | The same once names were looked up: host unreachable if that failed, success or waiting for the first address found that connects, otherwise the code of the errno of the last one dialled |
| HandshakeAnswers.OriginAnswered | src/server/connect.c:167-207 | The same once a connect that was waited for is over: its own error if nothing is left, otherwise what the addresses left come to |
| HandshakeAnswers.RoundMeans | src/server/connect.c:46-126 | A round of dialling stops at the first address whose connect succeeds or has to be waited for, and otherwise gives the errno of the last address dialled |
| HandshakeAnswers.TransfersExactly | src/server/socks5nio.c:73-148 | Each event before the relay takes exactly the bytes its read returned, and sends exactly as many of the waiting ones as its write took |
| HandshakeAnswers.ClosesExactly | src/server/socks5nio.c:73-148 | An event closes a connection before its relay exactly when the stream ended or a call failed, what was sent cannot be a negotiation or credentials, or a reply that turns the client away has been written whole |
| HandshakeExample.Conversation | src/server/request.c:102-147 | One conversation with every byte written out, whose connect succeeds or fails with ENETUNREACH |
| HandshakeHonest.HonestClientIsRelayed | src/server/socks5.c:297-435 | A client with good credentials, whose destination is an address that accepts or a name with such an address among those found, is relayed for, whatever pieces its messages arrive and replies leave in, whether connects finish at once or later, and whatever other addresses fail first: runs are bounded, and go on until the relay begins |
| HandshakeHonest.Completes | src/server/socks5.c:402-435 | And every such run can be carried on until it does |
| HandshakeHonest.WillingStep | src/server/connect.c:111-207 | Every event that gets on keeps the client served and uses up bytes or addresses |
| HandshakeHonest.DialReaches | src/server/connect.c:111-126 | A round of dialling with an address that accepts among those left connects, or waits with one still to come |
| HandshakeLimits.StuckExactly | src/shared/selector.c:479-506 | An open connection before its relay has no possible event exactly when its names were stored and nobody was told |
| HandshakeLimits.StuckOnlyByLoss | src/shared/selector.c:485-489 | A step gets there exactly when it is a worker's answer whose notification could not be queued |
| HandshakeLimits.StuckIsReached | src/server/dns_resolver.c:36-46 | And every client that asks by name can get there |
| HandshakeLimits.SomeoneAsksByName | src/server/request.c:19-71 | A concrete client, credentials and request of that kind |
| HandshakeLimits.NoRoomOnlyAhead | src/server/socks5nio.c:80-86 | A read is offered no room only when bytes were received that no parser has taken, and then closes the connection |
| HandshakeLimits.RoomExactly | src/server/socks5nio.c:96-99 | A read leaves no room exactly when it fills the buffer and the current parser needs fewer bytes than there then are, which is exactly when bytes were received that no parser has taken |
| HandshakeLimits.NoRoomIsReached | src/server/socks5nio.c:80-86 | A run that gets there, with one read of 4096 bytes |
| HandshakeAnswers.RefusalNamesTheFailure | src/server/connect.c:177-194 | After a connect that was waited for, the refusal names the errno of the last connect to fail except exactly when entries that are not streams are all that is left |
| HandshakeLimits.MaskedIsReached | src/server/connect.c:115-125 | A run in which a refused connection is answered as unreachable |
| BridgeRuns.LifecycleAbstracts | src/server/dns_resolver.c:22-94 | Every run of the handshake is a run of the life cycle: from the empty proxy, the sections of the main thread and of the worker bring a connection to the same phase, origin and resolution, with worker and notification where they should be |
| BridgeRuns.StepRun | src/server/socks5.c:247-295 | Each step of the handshake is a run of those sections |
| Bridge.HandshakeMoves | src/server/socks5.c:247-295 | Every handshake step either closes the connection or changes its phase, origin and resolution as a move of that event's handler does |
| Bridge.LifecycleMoves | src/server/dns_resolver.c:63-94 | The life cycle's sections make each of those moves |
| Bridge.LifecycleFollows | src/server/connect.c:128-142 | Among other connections and workers too: with the same phase, origin and resolution and the thread in place, the life cycle follows every step of the handshake |
| HandshakeRuns.DialsInOrder | src/server/connect.c:111-126 | A round of dialling keeps order, ends connected, pending or with nothing left, and never has two descriptors |
| HandshakeRuns.Answers | src/server/connect.c:144-165 | A request is always answered into an empty buffer, whoever assigns the next state |
| HandshakeRuns.StepInv | src/server/socks5.c:247-295 | Every event keeps the handshake's invariant |
| HandshakeLoop.Handshake.DispatchRead | src/shared/stm.c:48-56 | The read handler of the current state over real parsers and buffers takes the model's step, aborting where there is none |
| HandshakeLoop.Handshake.HandleWrite | src/shared/stm.c:57-65 | The same for the write handlers |
| HandshakeLoop.Handshake.LogAndRelay | src/server/socks5.c:408-434 | The entry the access log is given, and the start of the relay |
| HandshakeLoop.Handshake.ConnectResolved | src/server/connect.c:111-126 | The loop over resolved addresses dials as the model does |
| HandshakeLoop.Handshake.OnClientReadable | src/server/socks5nio.c:73-100 | A readable client before the relay |
| HandshakeLoop.Handshake.OnClientWritable | src/server/socks5nio.c:116-148 | A writable client before the relay |
| HandshakeLoop.Handshake.OnOriginReady | src/server/connect.c:167-207 | A connect that finished, or failed and fell back |
| HandshakeLoop.Handshake.OnNamesFound | src/server/socks5.c:276-295 | The notification that names were resolved |
| HandshakeLoop.Handshake.HandleAll | src/shared/stm.c:48-65 | Any run of events, the user table changing between them, takes real buffers and parsers where the model's run ends, invariant included |
| HandshakeLoop.Serve | src/server/socks5nio.c:38-71 | The same from the acceptance of a connection |
| Selector.CapacityExceeds | src/shared/selector.c:169-182 | The capacity chosen exceeds what was asked for, up to the platform's limit |
| Selector.NextCapacity | src/shared/selector.c:169-182 | The shifting loop computes that capacity |
| Selector.FdSelector.EnsureCapacity | src/shared/selector.c:225-266 | Growing keeps the items and marks the new ones unused |
| Selector.FdSelector.Add | src/shared/selector.c:311-346 | When registering succeeds, what it changes, and exactly when the table is indexed past its end |
| Selector.FdSelector.SetItem | src/shared/selector.c:384-400 | Changing an interest changes one item and the fd sets with it |
| Selector.FdSelector.Remove | src/shared/selector.c:348-382 | Unregistering runs the callback's operations first, then removes one item, with fd sets and max_fd as they should be, and says exactly when it goes outside the table, in any table and for any callback |
| Selector.FdSelector.RunAll | src/shared/selector.c:311-400 | The same for any operations, nested ones included |
| Selector.FullStaysInside | src/shared/selector.c:225-266 | In the server's table no operation goes outside, whatever descriptors it names, if callbacks leave their own item alone, and the table is what the operations mean |
| Selector.AllStayInside | src/shared/selector.c:311-400 | The same for any table with a slot for every descriptor named |
| Selector.CallbacksGoOutside | src/shared/selector.c:363-370 | A callback that unregisters its own item, or makes the table grow, makes unregistering go outside, in any table |
| Selector.OutsideExactly | src/shared/selector.c:321-391 | Exactly which descriptors each operation goes outside for |
| Selector.SparedAllStays | src/shared/selector.c:363-370 | An item no callback unregisters is there when its callback returns |
| Selector.OverrunExample | src/shared/selector.c:321-328 | A concrete descriptor that is let through past the end |
| Pool.Proxy.Remove | src/server/socks5nio.c:182-195 | The traversal by links removes exactly that connection and keeps the list acyclic, its size and the metric right |
| Pool.Proxy.OnClientClose | src/server/socks5nio.c:102-107 | The close callback takes the connection out of the pool and calls the close it was called from, which leaves it alone |
| Pool.Proxy.Close | src/server/socks5.c:447-491 | A connection being closed is left alone; of any other each descriptor is closed exactly once, after leaving the selector, the connection leaves the pool and no other is touched |
| Pool.Proxy.ForceShutdown | src/server/socks5nio.c:199-206 | It ends, with the pool empty and every descriptor closed |
| UserTable.AddLaw | src/server/user_table.c:27-47 | Adding fails exactly for a length outside 1 to 255, a taken name or ten users already, and otherwise adds exactly that user |
| UserTable.RemoveLaw | src/server/user_table.c:49-55 | Removing fails exactly for an unknown name, and otherwise removes exactly that user |
| UserTable.LookupLaw | src/server/user_table.c:57-62 | Credentials match exactly a user there is, with that password |
| UserTable.ListsEveryUserOnce | src/server/user_table.c:66-71 | Listing visits every active user exactly once |
| UserTable.Table.TryAdd | src/server/user_table.c:27-47 | The method over the slot array does it, and its last return is not reached |
| AccessLog.RingAdd | src/server/access_log.c:13-29 | Writing at the index that wraps keeps exactly the last 1024 entries |
| AccessLog.HoldsTheNewest | src/server/access_log.c:13-29 | What is held is the last 1024 entries, or all there are |
| AccessLog.Log.Add | src/server/access_log.c:13-29 | For every history the ring holds its last entries; strings are cut at 255 bytes and NULL is a dash |
| AccessLog.Log.OldestIndex | src/server/access_log.c:39-41 | Reading from that index gives the entries in chronological order, every index in range |
| MonProtocol.EncodeRequest | src/shared/mon_protocol.c:5-23 | The bytes of a request, or -1 and nothing when they do not fit |
| MonProtocol.EncodeResponse | src/shared/mon_protocol.c:25-41 | The bytes of a response, or -1 when the announced length does not fit |
| MonProtocol.DecodeInvertsEncode | src/shared/mon_protocol.c:25-59 | Decoding inverts encoding exactly for responses of this version that hold the payload they announce, whatever follows |
| MonProtocol.NullPayloadIsLost | src/shared/mon_protocol.c:36-39 | A response that does not, and is not understood |
| MonProtocol.EveryStrictPrefixNeedsMore | src/shared/mon_protocol.c:43-52 | Need-more on every strict prefix of a response |
| MonProtocol.EncodeInvertsDecode | src/shared/mon_protocol.c:43-59 | What is decoded is what was there, and following bytes make no difference |
| MonParser.MeetsGrammar | src/server/mon_parser.c:12-78 | The incremental parser, empty arguments skipped, reads the grammar's command and arguments with their terminators, and takes exactly its bytes |
| MonParser.AnySplit | src/server/mon_parser.c:88-96 | The same for any cut of the stream |
| MonParser.ParseInvertsEncode | src/server/mon_parser.c:12-96 | Parsing an encoded request gives it back and takes exactly its bytes, empty arguments included |
| MonParser.RequestReader.FeedByte | src/server/mon_parser.c:12-78 | One byte, in place in the argument arrays |
| MonPayload.UnbeBe | src/client/mon_client.c:27-35 | Big-endian integers survive encoding and decoding |
| MonPayload.RingIsLongEnough | src/server/mon_nio.c:241-263 | The longest suffix of the whole history that fits a response is one the ring still holds |
| MonPayload.LogRoundTrip | src/client/mon_client.c:145-178 | The client reads back every entry of an access log payload |
| MonPayload.UsersRoundTrip | src/client/mon_client.c:130-143 | The client reads back every name of a user list |
| MonPayload.MetricsRoundTrip | src/client/mon_client.c:122-128 | The client reads back the three counters |
| MonPayload.LogIsThere | src/client/mon_client.c:145-178 | An access log is accepted only if the payload starts with the encoding of exactly what is printed |
| MonPayload.UsersAreThere | src/client/mon_client.c:130-143 | The same for a user list |
| MonServer.PutBe | src/server/mon_nio.c:48-52 | The shifting loop writes the big-endian bytes |
| MonServer.CountFitting | src/server/mon_nio.c:249-263 | The first pass over the ring finds the longest suffix that fits 4092 bytes |
| MonServer.LogReply | src/server/mon_nio.c:241-285 | The two passes write exactly that suffix of the history, oldest first |
| MonServer.ListPayload | src/server/mon_nio.c:161-178 | Every active user is written, and never truncated |
| MonServer.MonConn.Decide | src/server/mon_nio.c:180-291 | Over the real table, log and metrics every command is answered as the function that `MonPeers.RespondTells` shows to be the protocol's table |
| MonServer.MonConn.OnReadable | src/server/mon_nio.c:85-113 | A readable peer takes the model's step |
| MonServer.MonConn.OnWritable | src/server/mon_nio.c:115-135 | A writable peer takes the model's step, and a fresh request begins when all is sent |
| MonPeers.AnsweredAsTold | src/server/mon_nio.c:180-291 | For any peer sending any bytes in any cut: a request that is incomplete changes nothing, one that cannot be a request closes the connection, and a whole one is answered by its command, its arguments, whether the peer is authenticated and the users there are, with the status of each failure and the payload of each success |
| MonPeers.OutsidersChangeNothing | src/server/mon_nio.c:183-199 | A peer is authenticated exactly once it sent an AUTH whose credentials the table held; until then the shared state is what others made of it, and all it is sent is AUTH_FAIL without payload |
| MonPeers.RespondTells | src/server/mon_nio.c:180-291 | The server's function gives what that table says, for any shared state, command and arguments |
| MonPeers.RequestsWritten | src/server/mon_parser.c:12-78 | Requests with every byte written out, as the server reads them |
| MonPeers.QuestionsWritten | src/client/mon_client.c:60-101 | And as the client builds them |
| MonPeers.PayloadsWritten | src/server/mon_nio.c:224-285 | The three payloads with every byte written out |
| MonSession.RefusesExactly | src/client/mon_client.c:60-101 | The client refuses to send a request exactly when a string of it is longer than 255 bytes |
| MonReplies.ReadsAnyServer | src/client/mon_client.c:236-342 | For any server sending any bytes in any cut: the client waits for the length announced, and its exit code, its next request or what it prints follows from the version, status and payload received |
| MonSession.RepliesFit | src/server/mon_nio.c:140-154 | No reply outgrows its response, and the shared state stays sane |
| MonClient.BeU64 | src/client/mon_client.c:31-35 | The shifting loop reads the big-endian bytes and loses nothing |
| MonClient.FormatUsers | src/client/mon_client.c:130-143 | What is printed, also before a fault is found |
| MonClient.FormatLog | src/client/mon_client.c:145-178 | What is printed, also before a fault is found |
| MonClient.MonClient.AskServer | src/client/mon_client.c:60-116 | Requests are built and queued, or the client fails, which `MonSession.RefusesExactly` says is for a string of more than 255 bytes |
| MonClient.MonClient.OnReadable | src/client/mon_client.c:236-276 | A readable server takes the model's step |
| MonRuns.ClientShowsTheTruth | src/server/mon_nio.c:85-135 | For any cut of the streams and whatever other connections do: each request is completed at most once, with the client's own arguments, and a client that ends shows exactly what the server computed, was refused, or was given a string of more than 255 bytes |
| MonRuns.NeverMalformed | src/client/mon_client.c:237-276 | The malformed and too-large branches are never taken |
| MonRuns.AuthenticationMeans | src/server/mon_nio.c:189-199 | OK exactly for a user of the table with that password |
| MonRuns.CommandMeans | src/server/mon_nio.c:201-239 | What OK means for the users before and after, lengths 1 to 255 and at most ten users included, and that a list is every user once |
| MonRuns.SessionEnds | src/client/mon_client.c:207-226 | Some byte can always move until the client has ended, and only so many moves can be made |

## Left out

- Sockets, accept, bind, fcntl, signals, pselect and getaddrinfo themselves: foreign calls, modelled by their results.
- Bytes a client sends ahead of a reply: the program drops or delays them, and no delivery is claimed for them.
- Closing a live connection from selector_destroy (src/shared/selector.c:290-291): the model counts it as a fault and proves that it does not happen after forced shutdown.
- Linked list of getaddrinfo results: the list is a sequence and its release is not modelled; allocation failures are modelled only where the program has a branch for them.
- HandshakeLoop.Handshake.CloseConnection: says only what the handshake sees of a close; the close itself is `Pool.Proxy.Close` and the life cycle.
- Lifecycle: connections, workers and the pool are values there, since interleavings of threads are the point; the pool's links are in `Pool.dfy`, the item table in `Selector.dfy`.
- Selector.FdSelector.Remove: after an access outside the table nothing is said of what the program does next.
- The text of a numeric destination in the access log (inet_ntop), and of the port getaddrinfo is given (snprintf): the entry holds type and bytes, the query the number.
- Interest bookkeeping of the monitoring client and server, and socket errors between them: the two streams are lossless and the handler called is the one its state has.
- Wrap-around of the three metrics counters, and the meaning of timestamps, which are opaque 64-bit values.
- Text output, time formatting, the terminal interface, command-line and users-file parsing, and the generic helpers in src/shared/netutils.c and src/shared/parser.c: not on the proxy's path.
