# boost_net, modelled and proved

boost_net wraps asio sockets in connections that live by callbacks: a handler runs, calls user code, and
posts or starts what comes next. Nothing in the code locks or checks the order. This project models those
state machines in Dafny and proves what every step keeps, what holds of whole runs, and that the objects
which update their fields in place do what the machines say.

## How the model is built

- **One connection** (`ConnectionMachine`, `ConnectionInvariant`, `ConnectionLaws`, `ConnectionMeaning`). A step is one handler: a
  completion with either outcome, the front of the posted queue, or an API call from another thread. A user
  callback is an arbitrary script of API calls and a result. TCP and active UDP are two instances of the same
  machine. Operations in flight are kept as a list, so that "one read, one write" is proved and not built in.
  `TcpConnections` and `UdpActiveConnections` are the classes, with the source's fields and handlers; every
  method is proved equal to the machine's handler on `State()` and to keep the invariant.
  `ConnectionMeaning` says what a run does in terms of its steps and calls alone, without the machine's histories.
- **Connecting** (`Connecting`, `ConnectOutcomes`). The synchronous endpoint loop as a loop, the asynchronous chain
  as steps, and the lemma that they settle on the same endpoint; then, over every run, what becomes of a resolved
  name, of the answers of its endpoints, of a handshake and of an accept.
- **The two-party protocol** (`Frames`, `TestProtocol`, `TestServices`, `PingPong`, `PingPongSteps`,
  `PingPongLaws`). Two connections, a lossless wire in each direction that delivers any non-empty part of what
  it carries, and the test service on both ends. Safety, a bound on the length of every run, and the outcome.
- **The UDP acceptor** (`AcceptorMachine`, `AcceptorInvariant`, `AcceptorLaws`, `AcceptorClosing`,
  `AcceptorMeaning`, `AcceptorPeers`, `AcceptorRefinement`, `UdpAcceptors`). One socket, a table from endpoints to
  connections, one send queue. `AcceptorMeaning` and `AcceptorPeers` say what a run sends, gives, drops, posts and
  tells in terms of its steps and calls alone.
- **The pool** (`Workers`, `PoolRefinement`, `IoContextPool`, `Managers`). Several workers over several queues run
  any number of connections. Handlers are not atomic there: a callback is entered, makes its calls and returns
  while other workers and threads go on. Every connection is proved to live a run of the machine, in which each
  handler is one step. Then the round robin, and what the managers make and post.
- **The proxy** (`ProxyMachine`, `ProxyLaws`, `ProxyWitnesses`, `SslProxies`). Two connections joined by the proxy's
  callbacks and the pair of pointers they share.

`SendQueue` and `Octets` are shared: the queue whose front is being written, and byte sequences.

## Where the code does not do what is promised

Each of these is kept as the code has it, with a run or an input that shows it and the exact condition.

- readme.md:249 says that on_close is the last callback. The receive and send handlers do not look at
  m_running, so a completion without error that runs after the close still calls back
  (`ConnectionLaws.LateReadAfterClose`). The promise is kept by exactly the runs without such a completion
  (`ConnectionLaws.CloseIsLastIff`). For passive UDP connections it holds outright (`AcceptorLaws.ClosedIsFinal`).
- readme.md:171 says that on_connect reports the end of every active connect. A TCP connect refused by more than
  one endpoint, and a failed handshake, are never reported (`ConnectOutcomes.TcpReportsIff` over every run,
  `Connecting.SilentForGood`; `Connecting.TcpAnsweredIff` gives the runs). UDP always reports, once.
- A passive UDP connection asked to close twice may close its successor at the same endpoint, because closes are
  by endpoint (`AcceptorClosing.SecondCloseHitsSuccessor`). A close is safe in every later run if and only if, when
  it is asked for, the connection is open and neither a close of its endpoint nor a stop is already posted
  (`AcceptorClosing.CloseSparesIff`).
- A stopped UDP acceptor opens a new connection when the receive that was pending completes, even with an error
  (`AcceptorClosing.FailedReceiveAfterStop`), and stays without connections exactly until then
  (`AcceptorClosing.StoppedStaysEmptyIff`). Nothing in the library calls UdpAcceptor::stop (src/udp_acceptor.cpp:81).
- The proxy uses its pair after releasing it in exactly two ways (`ProxyLaws.TouchedIff`, over every run). One:
  src closes before the outcome of the connect, which is then reported (`ProxyWitnesses.RefusedAfterEarlyClose`).
  Two, in an ordinary session: src's peer goes away, both ends close, the pair is deleted, and a read that had
  already completed is announced (`ProxyWitnesses.ReadAfterRelease`).
- The proxy deletes its pair twice exactly when src closes before the outcome of the connect and dst opens and closes
  all the same (`ProxyLaws.ReleaseCount`, `ProxyWitnesses.ReleasedTwice`).
- The proxy leaves an accepted connection open, with nothing left that would close it, when the connect to the
  destination is given up without a report (`ProxyWitnesses.RefusalLeavesSrcOpen`: the handshake fails; the sample
  uses ssl towards the destination, samples/ssl_proxy.cpp:115-122). When nothing else ends src, it is closed if and
  only if the refusal was reported (`ProxyLaws.RefusalClosesIff`).
- The round robin leaves its order where the counter wraps, unless the number of contexts divides its range
  (`IoContextPool.RoundRobinStep`); three contexts show it (`IoContextPool.WrapRepeats`).

## Assumptions

- In the machine of one connection a handler, including the user callback it makes, is one step. This is proved
  of the pool (`PoolRefinement.ConnectionsLiveRuns`), where it is assumed that the worker of a context runs one
  handler at a time, that posted handlers of a context run in order, that a completion runs in the context of the
  object its operation was started on, and that a single call of the API takes effect at once. `Workers.PostContext`,
  `Workers.CompletionContext` and `Workers.NewSession` record which context the code names at each place. The same
  is proved of the acceptor, which has one context (`AcceptorRefinement.AcceptorLivesRuns`), with callbacks entered
  and left and calls from outside in between; it is not stopped in the middle of a callback, as nothing in the
  library stops it. For the two-party protocol and the proxy, where two connections are involved, atomic handlers
  are assumed.
- Other threads call only what may be called from them: filling the send buffer and closing. The receive buffer
  belongs to callbacks.
- A TCP read delivers 1 to 512 bytes, the size that is prepared. asio's composed write reports success once the
  whole pack is written.
- In the two-party protocol no operation fails before one of the parties has closed.
- The order in which handle_stop visits the table is arbitrary; it visits every entry.
- In the proxy only the proxy's callbacks act on the two connections, and src carries the pair before dst reports.

## Model

| member | source | states |
|---|---|---|
| `ConnectionInvariant.StepKeeps` | inc/tcp_connection.h:154-390 | every handler, with either outcome and any callback, keeps the invariant: nothing handed over is lost in either direction, one read and one write at most, stages and callbacks in order |
| `ConnectionInvariant.RunKeeps` | inc/tcp_connection.h:154-390 | so does every run |
| `ConnectionInvariant.AcceptKeeps` | inc/tcp_manager_impl.h:181-195 | an accept, after which the start is posted, or the close of a session that never starts |
| `ConnectionInvariant.HandshakeKeeps` | inc/tcp_connection.h:244-279 | opening a blank connection, or giving it up after a failed handshake |
| `ConnectionInvariant.StopKeeps` | inc/tcp_connection.h:167-179 | a posted stop, the first or a repeated one |
| `ConnectionInvariant.PushKeeps` | inc/tcp_connection.h:321-330 | moving a posted pack to the deque keeps the order of packs and the single write |
| `ConnectionInvariant.RecvKeeps` | inc/tcp_connection.h:332-360 | a read completion, announced or not, wanted or not |
| `ConnectionInvariant.SendKeeps` | inc/tcp_connection.h:362-390 | a write completion, failed or not, draining or not |
| `ConnectionInvariant.CallsGrow` | inc/tcp_connection.h:281-285 | whatever a callback calls, it can only append handlers and move unread bytes to consumed |
| `ConnectionLaws.SendConservation` | inc/tcp_connection.h:299-330 | over every run, written packs, packs in the deque and packs still posted are exactly what send_buffer_fill accepted, in order; one write is in flight exactly when the deque is non-empty and no write has failed, and it is of the front pack |
| `ConnectionLaws.FrontStays` | inc/tcp_connection.h:298-308 | no step but its own completion touches the write in flight or the pack it reads from |
| `ConnectionLaws.StepEvents` | inc/tcp_connection.h:181-390 | each step makes exactly the callback that an independent definition announces: on_recv at the water mark, on_send when all pushed is written, on_close when running |
| `ConnectionLaws.OnSendMeansDrained` | inc/tcp_connection.h:373-384 | on_send fires exactly on the step after which everything pushed has been written |
| `ConnectionLaws.CallbackOrder` | inc/tcp_connection.h:167-179 | the opening callback is first and unique, on_close comes at most once and exactly when an opened connection is no longer running |
| `ConnectionLaws.CloseDrains` | inc/tcp_connection.h:281-285 | once a close is posted on a running connection, running the handlers up to it closes it with exactly one on_close, however many were posted |
| `ConnectionLaws.RunningStep` | src/udp_active_connection.cpp:73-86 | only a posted stop ends a running connection, and it is never started again |
| `ConnectionLaws.ErrorsClose` | inc/tcp_connection.h:257-390 | a read or write error, or an opening, receive or send callback that returned false, has led to exactly one on_close when the queue is empty |
| `ConnectionLaws.CloseIsLastIff` | inc/tcp_connection.h:332-390 | on_close is the last callback if and only if no completion without error that has something to announce runs after the close |
| `ConnectionLaws.LateReadAfterClose` | inc/tcp_connection.h:341-347 | a run with on_recv after on_close |
| `ConnectionLaws.ReceiveConservation` | inc/tcp_connection.h:287-296 | delivered bytes are consumed bytes followed by unread bytes, and one read is in flight exactly while the connection reads on |
| `ConnectionLaws.EndedForGood` | inc/tcp_connection.h:335-352 | after the first error or refusal nothing is received any more |
| `ConnectionMeaning.SendsWhatIsFilled` | inc/tcp_connection.h:458-470 | over every run of either kind of connection, what the calls filled, in order, is what has been written, is queued and is posted, and as many packs have been written as writes succeeded |
| `ConnectionMeaning.KeepsWhatArrives` | inc/tcp_connection.h:418-450 | over every run, what the successful reads brought, in order, is what the drops asked for followed by what user code can see; a drop of too much takes nothing |
| `ConnectionMeaning.KeepsTheMark` | inc/tcp_connection.h:452-456 | over every run the water mark is the last one set, whatever was unread then, and 1 before |
| `ConnectionMeaning.ReadsUntilQuit` | inc/tcp_connection.h:257-360 | over every run an opened connection has a read in flight if and only if no read has failed and no opening or receive callback has returned false |
| `ConnectionMeaning.ClosesIffAsked` | inc/tcp_connection.h:257-390 | over every run an opened connection is closed, or has its close posted, if and only if a close was called, a read or write failed, or an opening, receive or send callback returned false |
| `SendQueue.PushKeeps` | src/udp_active_connection.cpp:190-198 | a push keeps one write in flight on the front and appends to what was pushed |
| `SendQueue.FinishKeeps` | src/udp_active_connection.cpp:231-249 | a completion sends the pack it was started on, pops it and starts the next |
| `SendQueue.BreakKeeps` | src/udp_active_connection.cpp:225-229 | a failed write loses nothing and starts nothing |
| `SendQueue.Drains` | src/udp_acceptor.cpp:134-146 | as many completions as there are packs send everything in order and leave no write in flight |
| `TcpConnections.TcpSendBuffer.Commit` | src/tcp_send_buffer.cpp:20-23 | appends |
| `TcpConnections.TcpSendBuffer.Consume` | src/tcp_send_buffer.cpp:30-33 | removes the front |
| `TcpConnections.TcpRecvBuffer.Commit` | src/tcp_recv_buffer.cpp:21-24 | appends to the unread bytes |
| `TcpConnections.TcpRecvBuffer.Consume` | src/tcp_recv_buffer.cpp:36-39 | removes from the front, everything if asked for more |
| `TcpConnections.TcpConnection.constructor` | inc/tcp_connection.h:104-122 | a new session, about to be accepted or to resolve a name, satisfies the invariant and is an initial state of the machine |
| `TcpConnections.TcpConnection.PostStart` | inc/tcp_manager_impl.h:147-149 | the start of a session that was accepted or connected is posted, once, and the invariant kept |
| `TcpConnections.TcpConnection.Refused` | inc/tcp_manager_impl.h:186-190 | a session whose accept failed is closed without having started |
| `TcpConnections.TcpConnection.Close` | inc/tcp_connection.h:281-285 | posts a stop and changes nothing else |
| `TcpConnections.TcpConnection.RecvBufferCopy` | inc/tcp_connection.h:418-427 | succeeds exactly for a non-null buffer and enough bytes, and gives the first of them |
| `TcpConnections.TcpConnection.RecvBufferMove` | inc/tcp_connection.h:429-439 | the same, and consumes them |
| `TcpConnections.TcpConnection.RecvBufferDrop` | inc/tcp_connection.h:441-450 | consumes them, or nothing if there are too few |
| `TcpConnections.TcpConnection.RecvBufferWaterMark` | inc/tcp_connection.h:452-456 | sets the mark only |
| `TcpConnections.TcpConnection.SendBufferFill` | inc/tcp_connection.h:458-470 | accepts and posts a non-empty pack, nothing for an empty one, refuses a null pointer with a length |
| `TcpConnections.TcpConnection.Notify` | inc/tcp_connection.h:257-275 | runs a callback's script call by call, with no read in flight for opening and receive callbacks |
| `TcpConnections.TcpConnection.HandleHandshake` | inc/tcp_connection.h:244-279 | the machine's handshake step, and the invariant |
| `TcpConnections.TcpConnection.StopConnection` | inc/tcp_connection.h:167-179 | the machine's stop |
| `TcpConnections.TcpConnection.PushSendData` | inc/tcp_connection.h:321-330 | the queue's push |
| `TcpConnections.TcpConnection.HandleRecv` | inc/tcp_connection.h:332-360 | the machine's receive, in both outcomes |
| `TcpConnections.TcpConnection.HandleSend` | inc/tcp_connection.h:362-390 | the machine's send completion, in both outcomes |
| `TcpConnections.TcpConnection.HandleResolve` | inc/tcp_connection.h:181-191 | reports a failure, else connects over all endpoints |
| `TcpConnections.TcpConnection.HandleConnect` | inc/tcp_connection.h:223-242 | posts the start, gives up silently when there was more than one endpoint, else reports a failure |
| `TcpConnections.TcpConnection.RunPosted` | inc/tcp_connection.h:154-179 | the worker runs the front of the queue as the machine does and keeps the invariant |
| `TcpConnections.TcpConnection.ReadCompleted` | inc/tcp_connection.h:287-296 | so for the completion of the read in flight |
| `TcpConnections.TcpConnection.WriteCompleted` | inc/tcp_connection.h:298-308 | so for the completion of the write in flight |
| `UdpActiveConnections.UdpActiveConnection.constructor` | src/udp_active_connection.cpp:17-34 | a new connection satisfies the invariant and is an initial state |
| `UdpActiveConnections.UdpActiveConnection.PostStart` | src/udp_manager_impl.cpp:198-200 | the start of a connection that was connected is posted, and the invariant kept |
| `UdpActiveConnections.UdpActiveConnection.HandleResolve` | src/udp_active_connection.cpp:88-128 | reports a failure, else tries the first endpoint of all that were resolved |
| `UdpActiveConnections.UdpActiveConnection.HandleConnect` | src/udp_active_connection.cpp:130-153 | posts the start, tries the next endpoint, or reports a failure after the last; the iterator stays inside the results |
| `UdpActiveConnections.UdpActiveConnection.StartUp` | src/udp_active_connection.cpp:51-71 | the machine's start |
| `UdpActiveConnections.UdpActiveConnection.StopConnection` | src/udp_active_connection.cpp:73-86 | the machine's stop |
| `UdpActiveConnections.UdpActiveConnection.Close` | src/udp_active_connection.cpp:155-158 | posts a stop and changes nothing else |
| `UdpActiveConnections.UdpActiveConnection.PushSendData` | src/udp_active_connection.cpp:190-198 | the queue's push |
| `UdpActiveConnections.UdpActiveConnection.HandleRecv` | src/udp_active_connection.cpp:200-219 | the machine's receive of one datagram, in both outcomes |
| `UdpActiveConnections.UdpActiveConnection.HandleSend` | src/udp_active_connection.cpp:221-250 | the machine's send completion, in both outcomes |
| `UdpActiveConnections.UdpActiveConnection.RecvBufferDrop` | src/udp_active_connection.cpp:291-299 | drops the front datagram if there is one |
| `UdpActiveConnections.UdpActiveConnection.SendBufferFill` | src/udp_active_connection.cpp:301-309 | accepts and posts every datagram, the empty one included, refuses a null pointer with a length |
| `UdpActiveConnections.UdpActiveConnection.RunPosted` | src/udp_active_connection.cpp:51-86 | the worker runs the front of the queue as the machine does and keeps the invariant |
| `UdpActiveConnections.UdpActiveConnection.ReadCompleted` | src/udp_active_connection.cpp:160-168 | so for the completion of the receive in flight |
| `UdpActiveConnections.UdpActiveConnection.WriteCompleted` | src/udp_active_connection.cpp:170-178 | so for the completion of the send in flight; the assertion that the buffer is not empty holds |
| `Connecting.FirstAcceptedIsFirst` | src/udp_manager_impl.cpp:166-200 | the chosen endpoint accepts and none before it does |
| `Connecting.SyncConnect` | src/udp_manager_impl.cpp:151-201 | the loop succeeds exactly when an endpoint accepts and no bind fails up to it, and then on the first that accepts |
| `Connecting.AskedUpToFirst` | src/udp_active_connection.cpp:138-152 | the endpoints asked are those up to the first that accepts |
| `Connecting.UdpChain` | src/udp_active_connection.cpp:119-153 | the asynchronous chain asks in order up to the first that accepts, then posts the start, and reports null once exactly when all refuse |
| `Connecting.SyncAgainstAsync` | src/udp_manager_impl.cpp:166-200 | from a resolved name both ways choose the same endpoint; they differ exactly when a bind fails at or before it |
| `Connecting.ChainProgress` | src/udp_active_connection.cpp:138-152 | each refusal leaves fewer endpoints |
| `Connecting.UdpReportsOnce` | src/udp_active_connection.cpp:88-153 | over every run on_connect is called once, as soon as the connection has opened or failed, and never given up silently |
| `Connecting.TcpAnsweredIff` | inc/tcp_connection.h:223-279 | a TCP connect goes unreported if and only if it was asynchronous and more than one endpoint refused, or, asynchronous or not, its handshake failed |
| `Connecting.SilentForGood` | inc/tcp_connection.h:232-236 | what was given up silently is never reported later |
| `ConnectOutcomes.UdpTriesInOrder` | src/udp_active_connection.cpp:119-153 | over every run of an active UDP connection whose name was resolved to n endpoints: it failed if and only if all n refused; it is scheduled or opened if and only if some, fewer than n, refused and the next accepted; else the next is being tried |
| `ConnectOutcomes.TcpReportsIff` | inc/tcp_connection.h:181-279 | over every run of an active TCP connection, once it has opened, failed or been given up: nothing was reported if and only if the name had several endpoints and the connect failed, or the handshake failed, and otherwise on_connect came first with the outcome |
| `ConnectOutcomes.AcceptedOpens` | inc/tcp_manager_impl.h:181-195 | over every run of an accepted TCP session, with nothing posted and no handshake in flight: it has opened, on_accept first, if and only if its handshake did not fail, and otherwise nothing was called back |
| `ConnectOutcomes.RefusedStaysSilent` | inc/tcp_manager_impl.h:186-190 | over every run a session whose accept failed never calls back, and the close posted for it is the only handler it ever has |
| `Frames.FrameShape` | test/test_service.cpp:133-158 | the fills make up head, blocks and tail, of the announced length |
| `Frames.FrameBytes` | test/test_service.cpp:133-158 | byte by byte: the length with the high byte first, as far as two bytes hold it; "this is a message\n" once for each message counted; a zero |
| `Frames.HeadDecodes` | test/test_service.cpp:135-177 | the first two bytes decode to the frame's length if and only if the count is at most the bound |
| `Frames.FrameInjective` | test/test_service.cpp:133-158 | different counts have different frames |
| `Frames.CheckAcceptsNextFrame` | test/test_service.cpp:207-244 | data as long as it announces passes the check if and only if it is the next frame and the bound is not reached |
| `Frames.CheckBlocks` | test/test_service.cpp:225-239 | the comparison loop finds exactly the right body |
| `TestProtocol.BoundIsExchanged` | test/test_service.cpp:15 | the bound is the number of messages asked for if the last frame's length fits two bytes, and otherwise the largest number whose frame does; it is 0 only if none were asked for |
| `TestProtocol.ApplyFills` | inc/tcp_connection.h:310-319 | filling packs posts and accepts them in order |
| `TestServices.TestService.constructor` | test/test_service.cpp:11-23 | the bound is the number of messages asked for, or, if the last frame's length would not fit two bytes, the largest number whose does |
| `TestServices.TestService.SendMessage` | test/test_service.cpp:113-163 | fills the next frame pack by pack and counts it, or refuses at the bound; no assertion fails |
| `TestServices.TestService.CheckMessage` | test/test_service.cpp:207-244 | checks one frame and counts it |
| `TestServices.TestService.RecvMessage` | test/test_service.cpp:165-205 | waits, raises the mark, or consumes one frame and answers it, as the protocol's reply says |
| `TestServices.TestService.OnConnect` | test/test_service.cpp:30-42 | refuses a null connection, else resets the count and sends the first frame |
| `TestServices.TestService.OnAccept` | test/test_service.cpp:44-57 | resets the count |
| `TestServices.TestService.RemoveConnection` | test/test_service.cpp:96-111 | its assertion holds exactly if the count has reached the bound |
| `PingPong.PushMove` | inc/tcp_connection.h:321-330 | moving packs along leaves the bytes still to come unchanged |
| `PingPong.TransmitMove` | inc/tcp_connection.h:298-308 | so does transmitting part of a pack |
| `PingPong.WroteMove` | inc/tcp_connection.h:373-389 | so does completing a write |
| `PingPongSteps.ConnectStarts` | test/test_service.cpp:30-42 | the client's start puts the first frame on its way |
| `PingPongSteps.PartialRead` | test/test_service.cpp:169-182 | part of a frame consumes nothing, and the mark becomes the frame's length as soon as the part reaches the mark and tells the length |
| `PingPongSteps.FrameConsumed` | test/test_service.cpp:184-204 | the last byte of a frame has it consumed in the same step, and the next frame sent or the close asked for; no assertion fails |
| `PingPongSteps.ReceiverReads` | inc/tcp_connection.h:332-360 | any read of a frame in flight leads to a phase of the protocol |
| `PingPongLaws.MoveKeeps` | test/test_service.cpp:113-205 | every move of either party keeps the protocol's invariant |
| `PingPongLaws.RunKeeps` | test/test_service.cpp:113-205 | so does every run |
| `PingPongLaws.PingPongSafe` | test/test_service.cpp:96-244 | in every reachable state no assertion has failed, the sides alternate and are at most one frame apart, a side holds a strict prefix of exactly the frame in flight under the mark that prefix calls for, and closes only after the last frame; the bound is the number of messages asked for as far as lengths fit |
| `PingPongLaws.MoveSpends` | test/test_service.cpp:120-131 | every move uses up part of a budget |
| `PingPongLaws.PingPongEnds` | test/test_service.cpp:120-131 | every run is bounded by the number of messages asked for; a run that cannot go on has equal counts, namely that number or the largest whose frame's length fits two bytes, with one on_close on each side; if none were asked for both stay open |
| `PingPongLaws.Completes` | test/test_service.cpp:113-205 | every state can be brought to that end |
| `AcceptorInvariant.StepKeeps` | src/udp_acceptor.cpp:81-194 | receive, send, close, stop and API calls keep the acceptor's invariant, whatever the callbacks do |
| `AcceptorInvariant.RunKeeps` | src/udp_acceptor.cpp:81-194 | so does every run |
| `AcceptorInvariant.RecvKeeps` | src/udp_acceptor.cpp:159-178 | a receive, failed or not, from a known or a new endpoint |
| `AcceptorInvariant.CloseKeeps` | src/udp_acceptor.cpp:185-194 | a close of any endpoint, stale or repeated |
| `AcceptorInvariant.StopKeeps` | src/udp_acceptor.cpp:93-101 | the loop over the table, in any order that visits every entry |
| `AcceptorLaws.PassiveTrace` | src/udp_passive_connection.cpp:34-79 | over every run the callbacks of each connection are on_accept, on_recv any number of times, and on_close exactly if it has closed |
| `AcceptorLaws.ClosedIsFinal` | src/udp_passive_connection.cpp:51-61 | a closed connection is never called back again |
| `AcceptorLaws.TableConsistent` | src/udp_acceptor.cpp:159-194 | each key is its connection's endpoint, a connection runs exactly if it is mapped, and accepts minus closes of an endpoint is 1 if it is mapped and 0 otherwise |
| `AcceptorLaws.DemultiplexingFilters` | src/udp_acceptor.cpp:159-178 | what the successive connections of an endpoint were given is what arrived from it, in order, and each holds what it was given less what was dropped |
| `AcceptorLaws.SendsInOrder` | src/udp_acceptor.cpp:103-146 | a send is in flight exactly when the queue is non-empty, errors included, and each endpoint is sent the packets accepted for it in order |
| `AcceptorLaws.SendsDrain` | src/udp_acceptor.cpp:134-146 | from every reachable state as many completions as there are packets, with or without errors, can follow one another; they send what is queued, in order, and change nothing else |
| `AcceptorClosing.CloseSparesIff` | src/udp_acceptor.cpp:180-194 | when a connection asks to be closed: in every later run the handler it posts stops no other connection, if and only if it is open and neither a close of its endpoint nor a stop was posted before |
| `AcceptorClosing.CloseTarget` | src/udp_acceptor.cpp:185-194 | the handler stops exactly the connection that is mapped when it runs |
| `AcceptorClosing.SecondCloseHitsSuccessor` | src/udp_acceptor.cpp:185-194 | a run in which a second close hits the successor |
| `AcceptorClosing.StopClosesAll` | src/udp_acceptor.cpp:93-101 | handle_stop closes every connection and empties the table |
| `AcceptorClosing.StoppedStaysEmptyIff` | src/udp_acceptor.cpp:93-178 | after handle_stop there are no connections throughout a run if and only if no receive completes in it, with or without an error |
| `AcceptorClosing.FailedReceiveAfterStop` | src/udp_acceptor.cpp:159-178 | a run in which the failed receive of a stopped acceptor opens a connection |
| `AcceptorClosing.CloseReaches` | src/udp_passive_connection.cpp:34-84 | a close that is posted, by a call or by an on_accept or on_recv that returned false, closes the connection once the handlers up to it have run |
| `AcceptorMeaning.SendsWhatIsFilled` | src/udp_passive_connection.cpp:63-66 | over every run the packets sent, queued and posted are, in order, the data that calls filled, each under the endpoint of the connection it was filled on, and as many were sent as sends completed |
| `AcceptorMeaning.GivesWhatArrives` | src/udp_acceptor.cpp:159-178 | over every run what the connections of an endpoint were given is what the receives brought from it, in order |
| `AcceptorMeaning.PostsWhatIsAsked` | src/udp_acceptor.cpp:81-111 | over every run the handlers run and posted are, in order, those that fills, close calls, callbacks that returned false and the first call of stop ask for |
| `AcceptorPeers.DropsWhatIsDropped` | src/udp_passive_connection.cpp:124-132 | over every run each connection has lost from the front exactly as many datagrams as were dropped on it while it had one |
| `AcceptorPeers.TellsOfEach` | src/udp_passive_connection.cpp:68-79 | over every run each connection was told of each of its datagrams by one on_recv, between on_accept and on_close |
| `AcceptorRefinement.AcceptorLivesRuns` | src/udp_acceptor.cpp:93-194 | over every interleaving of its callbacks' calls with calls from outside an acceptor lives a legal run of the machine in which each handler, however many callbacks it makes, is one step |
| `AcceptorRefinement.InterleavedPassiveTrace` | src/udp_passive_connection.cpp:34-79 | so the callbacks of each passive connection are on_accept, on_recv any number of times, and on_close exactly if it is closed or inside it |
| `UdpAcceptors.UdpPassiveConnection.constructor` | src/udp_passive_connection.cpp:16-27 | a new connection, not yet started |
| `UdpAcceptors.UdpPassiveConnection.RecvBufferDrop` | src/udp_passive_connection.cpp:124-132 | drops the front datagram if there is one |
| `UdpAcceptors.UdpPassiveConnection.SendBufferFill` | src/udp_passive_connection.cpp:134-142 | hands the datagram to the acceptor's queue under its endpoint, refuses a null pointer with a length |
| `UdpAcceptors.UdpPassiveConnection.Close` | src/udp_passive_connection.cpp:81-84 | asks the acceptor to close its endpoint |
| `UdpAcceptors.UdpAcceptor.constructor` | src/udp_acceptor.cpp:19-59 | good exactly if opening, reusing and binding the address worked; not started yet |
| `UdpAcceptors.UdpAcceptor.Start` | src/udp_acceptor.cpp:66-79 | starts exactly a good acceptor, with the invariant and one receive in flight, and otherwise changes nothing |
| `UdpAcceptors.UdpAcceptor.Send` | src/udp_acceptor.cpp:103-111 | posts the packet |
| `UdpAcceptors.UdpAcceptor.PushSendData` | src/udp_acceptor.cpp:113-121 | the queue's push |
| `UdpAcceptors.UdpAcceptor.HandleSend` | src/udp_acceptor.cpp:134-146 | pops the front whatever the error, starts the next; the assertion holds |
| `UdpAcceptors.UdpAcceptor.Accept` | src/udp_acceptor.cpp:163-173 | finds the connection of an endpoint, or creates, maps and starts one |
| `UdpAcceptors.UdpAcceptor.Deliver` | src/udp_passive_connection.cpp:68-79 | queues the datagram and calls back |
| `UdpAcceptors.UdpAcceptor.HandleRecv` | src/udp_acceptor.cpp:159-178 | the machine's receive: one datagram to the connection of its endpoint, and the next receive started |
| `UdpAcceptors.UdpAcceptor.ReceiveCompleted` | src/udp_acceptor.cpp:148-157 | the same for every outcome of a receive, keeping the invariant |
| `UdpAcceptors.UdpAcceptor.StopConnection` | src/udp_passive_connection.cpp:51-61 | the machine's stop of one connection |
| `UdpAcceptors.UdpAcceptor.HandleClose` | src/udp_acceptor.cpp:185-194 | stops and unmaps the connection of an endpoint, if any |
| `UdpAcceptors.UdpAcceptor.HandleStop` | src/udp_acceptor.cpp:93-101 | stops all in iteration order, then clears the table |
| `UdpAcceptors.UdpAcceptor.RunPosted` | src/udp_acceptor.cpp:93-121 | the worker runs the front of the queue as the machine does and keeps the invariant |
| `UdpAcceptors.UdpAcceptor.StopListening` | src/udp_acceptor.cpp:81-91 | posts handle_stop once |
| `Workers.ThreeParts` | inc/tcp_connection.h:167-390 | a handler that calls back is what it does before the callback, the callback's calls one by one, and what it does after |
| `PoolRefinement.DispatchIs` | inc/tcp_connection.h:281-319 | every handler a connection posts goes to the queue of its own context, in order |
| `PoolRefinement.StepKeeps` | src/io_context_pool.cpp:37-45 | whatever a worker begins, calls or ends, and whatever is called from outside, every connection stays in step with its run |
| `PoolRefinement.ConnectionsLiveRuns` | src/io_context_pool.cpp:37-45 | over every interleaving of the workers each connection lives a legal run of the machine in which each handler is one step, and its posted handlers are those waiting in its context's queue |
| `PoolRefinement.ExclusiveCallbacks` | src/io_context_pool.cpp:37-45 | over every interleaving no two workers run handlers of the same connection, as readme.md:406 promises |
| `PoolRefinement.PooledCallbackOrder` | inc/tcp_connection.h:167-279 | so in the pool, inside callbacks too: the opening callback is first and unique, on_close comes at most once, and exactly when the connection no longer runs or is inside it |
| `PoolRefinement.NoReadInside` | inc/tcp_connection.h:257-359 | no read of a connection is in flight while on_recv, on_accept or on_connect runs |
| `Managers.InitPool` | src/tcp_manager_impl.cpp:149-177 | succeeds at most once, and then every context has its own worker |
| `Managers.TcpManager.StartAccept` | src/tcp_manager_impl.cpp:290-315 | makes the next passive session on the context at the counter, and moves the counter |
| `Managers.TcpManager.HandleAccept` | inc/tcp_manager_impl.h:181-195 | always starts the next accept, on the next context, and starts or closes the session as the machine does |
| `Managers.TcpManager.SyncCreateConnection` | inc/tcp_manager_impl.h:97-150 | a session on the next context, whose start is posted exactly if the endpoint loop succeeds |
| `Managers.TcpManager.AsyncCreateConnection` | inc/tcp_manager_impl.h:152-179 | a session on the next context, about to resolve |
| `Managers.UdpSyncCreateConnection` | src/udp_manager_impl.cpp:151-201 | a connection whose start is posted exactly if the endpoint loop succeeds |
| `IoContextPool.IoServicePool.Init` | src/io_context_pool.cpp:25-48 | succeeds exactly for a positive size, no earlier threads and no failed thread, with one worker for each context if and only if none was left over; the managers ask for it only when none was |
| `IoContextPool.IoServicePool.Get` | src/io_context_pool.cpp:68-71 | the context at the counter modulo the number of contexts; the counter wraps as std::size_t does |
| `IoContextPool.RoundRobinLoad` | src/io_context_pool.cpp:68-71 | after k calls on n contexts, context i has been returned k/n times, and once more if i < k mod n |
| `IoContextPool.LoadsDifferByOne` | src/io_context_pool.cpp:68-71 | loads differ by at most one |
| `IoContextPool.RoundRobinStep` | src/io_context_pool.cpp:68-71 | consecutive calls return consecutive contexts except, and only, at a wrap whose range n does not divide |
| `IoContextPool.WrapRepeats` | src/io_context_pool.cpp:68-71 | of three contexts the same one is returned on both sides of the wrap |
| `ProxyLaws.MoveKeeps` | samples/ssl_proxy.cpp:161-316 | every step of either connection, with the proxy's answer to its callback, keeps the relay's invariant |
| `ProxyLaws.RunKeeps` | samples/ssl_proxy.cpp:161-316 | so does every run |
| `ProxyLaws.RelayConservation` | samples/ssl_proxy.cpp:207-256 | in each direction, over every run, bytes received are bytes handed to the other connection followed by bytes unread, and nothing is unread while both ends are set |
| `ProxyLaws.ReleaseCount` | samples/ssl_proxy.cpp:263-316 | the pair is released exactly once src has closed and dst does not run, and twice if and only if src closed before the outcome and dst opened and closed afterwards |
| `ProxyLaws.EarlyIff` | samples/ssl_proxy.cpp:263-316 | over every run the pair is noted as left early if and only if, at some step, src stopped running while the outcome of the connect that was asked for was still to come |
| `ProxyLaws.DrainedRelease` | samples/ssl_proxy.cpp:263-316 | if src outlived the connect, any close or reported refusal leads, with the queues drained, to both connections closed and one release |
| `ProxyLaws.RefusalClosesIff` | samples/ssl_proxy.cpp:161-186 | when dst could not be connected and nothing else has ended src, the drained src is closed and the pair released if and only if the refusal was reported |
| `ProxyLaws.NobodyIsHungUpOn` | samples/ssl_proxy.cpp:207-256 | over every run in which no read, write or handshake fails, once dst was asked for and unless it was refused: src is open, has no close due and reads on; until dst opens src keeps all it received; once dst has opened it is open, has no close due and reads on, too |
| `ProxyLaws.UnservedIsClosed` | samples/ssl_proxy.cpp:188-205 | over every run an accepted connection for which no destination could be asked for is closed, or has its close posted |
| `ProxyLaws.LateReadIsLast` | samples/ssl_proxy.cpp:225-233 | an end that has closed reads nothing more after a late read is announced |
| `ProxyLaws.TouchedIff` | samples/ssl_proxy.cpp:161-316 | over every run the pair is used after its release if and only if src closed before an outcome that was then reported, or a completed read of a closed connection is announced after the release |
| `ProxyWitnesses.ReadAfterRelease` | samples/ssl_proxy.cpp:207-218 | a run of the second kind without an early close, with and without ssl towards the destination |
| `ProxyWitnesses.RefusedAfterEarlyClose` | samples/ssl_proxy.cpp:178-185 | a run of the first kind |
| `ProxyWitnesses.ReleasedTwice` | samples/ssl_proxy.cpp:268-315 | a run that deletes the pair twice, with and without ssl towards the destination |
| `ProxyWitnesses.RefusalLeavesSrcOpen` | inc/tcp_connection.h:244-279 | a run in which the handshake of dst fails, nobody is told, and src stays open with nothing left to do |
| `SslProxies.SslProxy.OnAccept` | samples/ssl_proxy.cpp:188-205 | makes a pair holding src, carried by it, or none if dst cannot be asked for |
| `SslProxies.SslProxy.OnConnect` | samples/ssl_proxy.cpp:161-186 | completes the pair and relays what src holds, or closes src; as the reaction of the relay says |
| `SslProxies.SslProxy.OnRecv` | samples/ssl_proxy.cpp:207-256 | forwards all unread bytes to the other end and drops them, or waits, or refuses |
| `SslProxies.SslProxy.OnClose` | samples/ssl_proxy.cpp:263-316 | resets the pointer and closes the other end, or deletes the pair with its last end |

## Left out

- Sockets, resolver, SSL handshakes and certificates, and asio itself: outcomes and queues of the environment.
- Bind failures of asynchronous connects (exceptions thrown while a socket is opened), address text and ports.
- The UDP half of the test service: it relies on a lossless network, and otherwise repeats the TCP protocol without framing.
- The managers' init loops over ports, forwarding to the implementations, user data setters.
- A UDP acceptor without a service: the manager refuses a null service (src/udp_manager_impl.cpp:32-35).
- The proxy's command line, start and exit, and logging. A pair deleted at once because the destination could not be asked for is not counted as a release.
- Unsynchronised use of receive buffers or of the pool's counter from several threads.
- Counters that are only printed.
- UdpActiveConnections.UdpActiveConnection.HandleResolve: requires at least one endpoint, as a successful resolve gives; the code dereferences the first without a check.
- IoContextPool.RoundRobinLoad: counts calls up to the range of the counter; what happens at the wrap is in RoundRobinStep.
