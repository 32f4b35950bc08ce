# Verified model of fabric-rpc

A Dafny 4.11 model of the parts of fabric-rpc in which the order of events, or of characters, decides the
result, with proofs of what the code promises there. `dafny verify dfyconfig.toml` checks all of it.

## What is modelled

**The fabric_rpc2 accept pipeline.** `Rendezvous` is `basic_item_queue` as a value: a stack of items and a
stack of poppers. Its main result says, for every run of pushes, pops and cancels, which push meets which pop:
bracket matching on the difference of the two stacks' heights. `ItemQueues`, `ConnectionManagers` and
`Endpoints` are the mutable objects (queue, events, slots, manager, server connection, acceptor), each method
proved to do what the value does. `Pipelines` is the whole server as a step system in which transport threads
(connect, post, disconnect) interleave with the acceptor and every server connection (clear the event, pop,
take, destroy); `PipelineTheorems`, `PipelineMatching` and `AcceptorMatching` say what holds in every
reachable state and how a run looks from outside, `PipelineFates` what can still become of a request.
`Servers` puts the objects together: under a numbering of the objects (`Namings`) every sequence of their calls
is a run of the step system, so the theorems about runs are about the objects, and the code's asserts hold.

**The fabric_rpc v1 handler.** `BeginEnd` is the race between `BeginProcessRequest` and the callback it hands
to the user, one step per access to the shared payload; `RequestHandlers` is the code, proved to be a run of
that protocol; `Ownership` adds the reference counts. `Headers` writes and reads the two header messages byte
by byte after the Protocol Buffers Encoding specification, sections "Base 128 Varints" and "Length-Delimited
Records"; string fields are UTF-8 (`Encodings`). `Transports`, `RpcV1`, `Routes` and `Stubs` put the client
helpers, router, operations and reply together and compare a remote call with a direct one. `Timeouts` is the
millisecond budget that is passed on.

**The generators and routers.** `Substitution`, `SubstitutionPasses`, `SubstitutionOrder`, `SubstitutionGaps`,
`SubstitutionRuns` and `SubstitutionOneOrder` treat the repeated replace-all of the printer as string rewriting
and compare it with one simultaneous substitution; `Printers` is the printer itself; `Generator` prints the if/else chain and the
client stubs with it, `GeneratedText` reads the string literals back from the printed text, and
`GeneratorWording` holds gen.hpp's own templates. `PrefixRouting` and `Middlewares` are the v2 dispatch,
`Parsing` and `RpcV2` the v2 call from client to handler and back, `Completion` and `MessageHandlers` the v2
request's posting, result and callback.

## How to read the results

- The queue serves the newest item and the newest waiter. No order of arrival is promised, and none is
  claimed.
- A step of `Pipelines` is one critical section of a mutex, or one access of an endpoint to its own event and
  slot. `cancel` takes no lock in the source; treating it as one step is an assumption. A call of `Servers` is
  one such step on the objects, made with the record of the steps before it.
- Conditions on steps are the transport's contract (live ids are unique; requests and disconnects name live
  ids, where the source would throw) and the accept loops' discipline (one accept per endpoint at a time, none
  after closing it).
- Several results say exactly when the code meets its promise. The printed text is right in every order of the
  variables if and only if the template is unambiguous (`SubstitutionRuns.OrderNeverMatters`): from an
  ambiguous template some order leaves a compound placeholder that no later variable can repair. For one fixed
  order, such as a std::map's ascending one, the text is right if and only if no pass meets a clash, provided
  no variable is called like a placeholder with something behind it (`SubstitutionOneOrder.OneOrderExact`);
  without that proviso it can be right by accident, which `AccidentallyRight` shows. `LiteralTakenForName` is
  a failing family.
- A posted request can still reach a handler if and only if it is not lost (`PipelineFates.HandledUnlessLost`):
  destroyed with the slot it lay in, or left in a queue that nobody pops again, because its server connection
  is closed or because a closed acceptor never accepted it. Both kinds of abandoned queue are reachable
  (`PostedBehindClosed`, `PostedUnaccepted`).
- `RpcV1.Transparent` and `RpcV2.Transparent` hold if and only if the outcome can be sent: the v1 server needs
  an end status with a message, both need UTF-8 messages and a header and a body that serialize, and v2 needs
  a code from 0 to 20. A url that is empty (v1), too long to serialize (v2) or not UTF-8 is refused, and the
  theorems say with which status. A v2 request that does not serialize is sent as empty bytes; the handler
  runs on what these parse to, or the client is told that they do not parse.
- A string field that is not UTF-8 is written and then refused by the reader (`Headers.WrittenButRefused`).
- The client helpers judge the transport's result differently at begin and at end (`RpcV1.EndIsStricter`).
- The repository's own protocol description calls the status message optional; in v1 an end status without one
  fails an assert (src/fabric_rpc/src/FRPCRequestHandler.cpp:252; `RpcV1.SilentEndFails`). The comment there
  says serialization would fail; it would not, since a failing code alone makes the header non-empty
  (`Headers.EmptyOnlyForDefaults`).
- `PrefixRouting.StrangersAreDispatched`: with any service registered, the v2 middleware also dispatches urls
  whose first part merely begins with that service's name.
- Asserts are taken as enabled, except where the code goes on to handle the failure the assert denies (the
  serialization results in ClientHelpers.hpp and Operation.hpp); those are taken as handled.
- A std::string is a sequence of characters below 256, one for each byte (`Statuses.Bytes`). Names in a
  protobuf file consist of letters, digits and underscores, packages of such names and dots.

## Model

| member | source | states |
|---|---|---|
| Rendezvous.LevelStep | src/fabric_rpc2/include/fabricrpc/basic_item_queue.hpp:32-75 | a push raises items-minus-waiters by one, a pop lowers it, a cancel raises it exactly when its event is at the tail |
| Rendezvous.ExactMatching | src/fabric_rpc2/include/fabricrpc/basic_item_queue.hpp:32-60 | in any run push i is delivered to pop j if and only if the later of the two is the first step that brings the level back to what it was before the earlier one |
| Rendezvous.MatchSpan | src/fabric_rpc2/include/fabricrpc/basic_item_queue.hpp:32-60 | between the two ends of a match the level stays strictly on one side and ends where it began |
| Rendezvous.OneToOne | src/fabric_rpc2/include/fabricrpc/basic_item_queue.hpp:32-60 | no item is delivered twice and no popper is served twice |
| Rendezvous.NonCrossing | src/fabric_rpc2/include/fabricrpc/basic_item_queue.hpp:32-60 | matches nest: an operation matched inside another match has its partner inside too |
| Rendezvous.PushFate | src/fabric_rpc2/include/fabricrpc/basic_item_queue.hpp:32-44 | every pushed item is either still stored or delivered, never both, never lost |
| Rendezvous.PopFate | src/fabric_rpc2/include/fabricrpc/basic_item_queue.hpp:46-75 | every popper was served, is still parked, or was removed by a cancel that names its own event |
| Rendezvous.ServedAtOnce | src/fabric_rpc2/include/fabricrpc/basic_item_queue.hpp:48-60 | a pop that finds items is served |
| Rendezvous.CancelledByName | src/fabric_rpc2/include/fabricrpc/basic_item_queue.hpp:64-75 | a cancel that ends a wait carries that waiter's event |
| Rendezvous.LevelIsBalance | src/fabric_rpc2/include/fabricrpc/basic_item_queue.hpp:32-60 | without cancels the level is pushes minus pops |
| Rendezvous.RecordsApply | src/fabric_rpc2/include/fabricrpc/basic_item_queue.hpp:32-75 | the queue treats items as it treats their push numbers, so the results about numbers are about items |
| Rendezvous.ContentsRecorded | src/fabric_rpc2/include/fabricrpc/basic_item_queue.hpp:32-75 | the queue after a run holds exactly the items and poppers the replay of the run holds |
| ItemQueues.ItemQueue.Push | src/fabric_rpc2/include/fabricrpc/basic_item_queue.hpp:32-44 | stores the item, or fills the newest waiter's slot and sets its event; the run is extended by this push |
| ItemQueues.ItemQueue.AsyncPop | src/fabric_rpc2/include/fabricrpc/basic_item_queue.hpp:46-60 | parks the popper leaving event and slot alone, or fills the slot with the newest item and sets the event |
| ItemQueues.ItemQueue.Cancel | src/fabric_rpc2/include/fabricrpc/basic_item_queue.hpp:64-75 | removes the newest waiter if it waits on this event, and nothing else |
| ConnectionManagers.ConnectionManager.AddConn | src/fabric_rpc2/include/fabricrpc/basic_connection_manager.hpp:33-48 | adds an entry with its own empty queue, live under its id unless the id is live already, and pushes it to the acceptor |
| ConnectionManagers.ConnectionManager.AsyncPop | src/fabric_rpc2/include/fabricrpc/basic_connection_manager.hpp:52-55 | pops the newest pending entry into the caller's slot or parks the caller; the live map is untouched |
| ConnectionManagers.ConnectionManager.Disconnect | src/fabric_rpc2/include/fabricrpc/basic_connection_manager.hpp:60-71 | forgets the id and leaves every queue as it is |
| ConnectionManagers.ConnectionManager.PostRequest | src/fabric_rpc2/include/fabricrpc/basic_connection_manager.hpp:75-79 | pushes to the queue of the entry live under the request's id and changes no other queue |
| ConnectionManagers.ConnectionManager.Cancel | src/fabric_rpc2/include/fabricrpc/basic_connection_manager.hpp:82-84 | cancels on the queue of pending connections only |
| Endpoints.ServerConnection.SetQueue | src/fabric_rpc2/include/fabricrpc/basic_server_connection.hpp:89-93 | sets a queue that was not set before |
| Endpoints.ServerConnection.Clear | src/fabric_rpc2/include/fabricrpc/basic_server_connection.hpp:74-77 | both asserts required; the event is reset and nothing else |
| Endpoints.ServerConnection.Initiate | src/fabric_rpc2/include/fabricrpc/basic_server_connection.hpp:36-37 | the queue pops with this connection's event and slot; the endpoint is the step system's |
| Endpoints.ServerConnection.Complete | src/fabric_rpc2/include/fabricrpc/basic_server_connection.hpp:39-43 | moves the payload out and leaves the slot empty |
| Endpoints.ServerConnection.Destroy | src/fabric_rpc2/include/fabricrpc/basic_server_connection.hpp:61-65 | cancels this connection's event on its queue, if it has one, and destroys the request still in the slot, which the result names |
| Endpoints.Acceptor.Clear | src/fabric_rpc2/include/fabricrpc/basic_acceptor.hpp:141-143 | event reset and holder emptied |
| Endpoints.Acceptor.Initiate | src/fabric_rpc2/include/fabricrpc/basic_acceptor.hpp:42-43 | the manager pops with the acceptor's event and holder |
| Endpoints.Acceptor.Complete | src/fabric_rpc2/include/fabricrpc/basic_acceptor.hpp:45-54 | a new server connection gets the held entry's queue |
| Endpoints.Acceptor.Close | src/fabric_rpc2/include/fabricrpc/basic_acceptor.hpp:119-121 | cancels the acceptor's parked pop |
| Endpoints.Acceptor.ProcessConnect | src/fabric_rpc2/include/fabricrpc/basic_connection_handler.hpp:23-30 | the manager adds the connection, and a parked acceptor is handed it |
| PipelineTheorems.ExactlyOnePlace | src/fabric_rpc2/include/fabricrpc/basic_connection_manager.hpp:33-79 | in every run each posted request is in exactly one place, and that place belongs to the entry its id named when it was posted |
| PipelineTheorems.NothingInvented | src/fabric_rpc2/include/fabricrpc/basic_connection_manager.hpp:73-79 | nothing is queued or yielded that was not posted, and nothing twice |
| PipelineTheorems.EntriesHandedOnce | src/fabric_rpc2/include/fabricrpc/basic_connection_manager.hpp:33-55 | every connection ever added is pending, held by the acceptor, or with one server connection, and only one of these |
| PipelineTheorems.AcceptorNeverSleepsOnWork | src/fabric_rpc2/include/fabricrpc/basic_acceptor.hpp:34-55 | a waiting acceptor is signalled exactly when its holder is full; unsignalled it is parked and nothing is pending; a completed wait finds an entry |
| PipelineTheorems.ConnNeverSleepsOnWork | src/fabric_rpc2/include/fabricrpc/basic_server_connection.hpp:30-44 | the same for every server connection and its queue, and both asserts of async_accept hold |
| PipelineTheorems.PostWakes | src/fabric_rpc2/include/fabricrpc/basic_item_queue.hpp:37-43 | a request posted to a parked connection wakes it with that very request |
| PipelineTheorems.NoDeadPopper | src/fabric_rpc2/include/fabricrpc/basic_server_connection.hpp:61-65 | every parked popper, the acceptor's included, belongs to a live endpoint waiting unsignalled, so tail-only cancel is enough |
| PipelineTheorems.DestroyedStaysEmpty | src/fabric_rpc2/include/fabricrpc/basic_server_connection.hpp:61-65 | no step changes a destroyed connection's event or slot |
| PipelineTheorems.DroppedExactlyWhenDestroyedReady | src/fabric_rpc2/include/fabricrpc/basic_server_connection.hpp:61-65 | a request is dropped from a slot exactly when its server connection is destroyed after the request reached the slot and before the handler took it |
| PipelineFates.HandledUnlessLost | src/fabric_rpc2/include/fabricrpc/basic_connection_manager.hpp:52-84 | some continuation of the run hands a posted request to a handler if and only if it was not dropped from a slot and does not wait in the queue of a closed connection or of a pending one behind a closed acceptor |
| PipelineFates.LostForGood | src/fabric_rpc2/include/fabricrpc/basic_connection_manager.hpp:58-71 | in every continuation of the run a lost request stays lost |
| PipelineFates.QueueHandled | src/fabric_rpc2/include/fabricrpc/basic_server_connection.hpp:30-44 | an open connection that goes on accepting reaches every request in its queue, those above it first |
| PipelineFates.PendingHandled | src/fabric_rpc2/include/fabricrpc/basic_acceptor.hpp:34-55 | an open acceptor that goes on accepting reaches every pending connection, and the requests that wait there |
| PipelineFates.PostedBehindClosed | src/fabric_rpc2/include/fabricrpc/basic_connection_manager.hpp:75-79 | a request posted after its server connection was destroyed is lost although it was never in a slot |
| PipelineFates.PostedUnaccepted | src/fabric_rpc2/include/fabricrpc/basic_acceptor.hpp:119-121 | a request of a connection that a closed acceptor left pending is lost |
| PipelineTheorems.LiveIsHistory | src/fabric_rpc2/include/fabricrpc/basic_connection_manager.hpp:33-71 | an id is live exactly when some connect of it was not followed by a disconnect, and it names the entry that connect created |
| PipelineTheorems.OwnGeneration | src/fabric_rpc2/include/fabricrpc/basic_connection_manager.hpp:75-79 | a request belongs to the session of its id that was open when it was posted |
| PipelineTheorems.GenerationsNeverMix | src/fabric_rpc2/include/fabricrpc/basic_connection_manager.hpp:60-79 | requests of one id with a disconnect between them never share an entry, a queue or a server connection |
| PipelineTheorems.QueueIsItsOwnRun | src/fabric_rpc2/include/fabricrpc/basic_connection_manager.hpp:43-47 | whatever interleaves, each entry's queue is the result of the operations on that entry alone |
| PipelineMatching.ReceivedByMatching | src/fabric_rpc2/src/ex_server.cpp:31-63 | what a server connection received are the matches of its queue's run |
| PipelineMatching.KthReceivedMatchesKthPop | src/fabric_rpc2/src/ex_server.cpp:41-58 | the k-th request a connection receives is the push matched with the k-th pop of its entry |
| AcceptorMatching.AcceptedByMatching | src/fabric_rpc2/src/ex_server.cpp:31-63 | the accepted connections are the matches of the run of the queue of pending connections |
| AcceptorMatching.KthAcceptedMatchesKthPop | src/fabric_rpc2/src/ex_server.cpp:33-37 | the k-th connection accepted is the push matched with the acceptor's k-th pop |
| Servers.Server.constructor | src/fabric_rpc2/include/fabricrpc/basic_acceptor.hpp:66-90 | the objects of a new server show the start of the step system |
| Servers.Server.Connect | src/fabric_rpc2/include/fabricrpc/basic_connection_handler.hpp:23-30 | the objects then show the run with this connect |
| Servers.Server.Post | src/fabric_rpc2/include/fabricrpc/basic_connection_manager.hpp:75-79 | the objects then show the run with this post, the request numbered last |
| Servers.Server.Disconnect | src/fabric_rpc2/include/fabricrpc/basic_connection_manager.hpp:60-71 | the objects then show the run with this disconnect |
| Servers.Server.ClearAcceptor | src/fabric_rpc2/include/fabricrpc/basic_acceptor.hpp:141-143 | the objects then show the run with the acceptor cleared |
| Servers.Server.PopEntry | src/fabric_rpc2/include/fabricrpc/basic_acceptor.hpp:42-43 | the objects then show the run with the acceptor's pop |
| Servers.Server.TakeConn | src/fabric_rpc2/include/fabricrpc/basic_acceptor.hpp:45-54 | the assert on the holder holds, and the objects with the new server connection show the run with this accept |
| Servers.Server.CloseAcceptor | src/fabric_rpc2/include/fabricrpc/basic_acceptor.hpp:119-121 | the objects then show the run with the acceptor closed |
| Servers.Server.ClearConn | src/fabric_rpc2/include/fabricrpc/basic_server_connection.hpp:74-77 | both asserts hold, and the objects then show the run with this connection cleared |
| Servers.Server.PopRequest | src/fabric_rpc2/include/fabricrpc/basic_server_connection.hpp:36-37 | the objects then show the run with this connection's pop |
| Servers.Server.TakeRequest | src/fabric_rpc2/include/fabricrpc/basic_server_connection.hpp:39-43 | a completed wait yields a request, the one the run records as taken |
| Servers.Server.DestroyConn | src/fabric_rpc2/include/fabricrpc/basic_server_connection.hpp:61-65 | the objects then show the run with this connection destroyed, and what it takes along is what the run records as dropped |
| Servers.Server.ObjectsNeverSleepOnWork | src/fabric_rpc2/include/fabricrpc/basic_server_connection.hpp:30-44 | of the objects after any calls: a waiting connection's event is set exactly when its slot is full, and while it is unset its queue is empty and parks only this connection |
| BeginEnd.RaceSafe | src/fabric_rpc/src/FRPCRequestHandler.cpp:132-219 | with an honest user every interleaving passes all asserts, fires the transport's callback at most once and exactly once when complete, and from then on End reads what the request alone determines |
| BeginEnd.FiresOnceExactlyWhenHonest | src/fabric_rpc/src/FRPCRequestHandler.cpp:100-110 | a complete run passes its asserts and fires once if and only if the user kept the contract |
| BeginEnd.CompleteMeansStuck | src/fabric_rpc/src/FRPCRequestHandler.cpp:132-219 | a run is complete exactly when no step is possible, so nothing waits for the other side |
| BeginEnd.EveryRunEnds | src/fabric_rpc/src/FRPCRequestHandler.cpp:132-219 | no run is longer than six steps and four for every invocation, whatever the user does |
| BeginEnd.EveryRunCompletes | src/fabric_rpc/src/FRPCRequestHandler.cpp:132-219 | every run can be continued to a complete one |
| RequestHandlers.Session.SetInnerCtx | src/fabric_rpc/src/FRPCRequestHandler.cpp:60-68 | sets the context once and tolerates the same one again; its assert is required |
| RequestHandlers.Session.SetAndFire | src/fabric_rpc/src/FRPCRequestHandler.cpp:100-106 | the code of Invoke is a run of the protocol: its asserts hold and the callback fires once |
| RequestHandlers.Session.ReleaseWrapper | src/fabric_rpc/src/FRPCRequestHandler.cpp:107-110 | the callback gives up the wrapper context |
| RequestHandlers.Session.FailAndInvoke | src/fabric_rpc/src/FRPCRequestHandler.cpp:206-218 | on failure the status is stored before the callback fires, once, with the dummy context |
| RequestHandlers.Session.BeginProcessRequest | src/fabric_rpc/src/FRPCRequestHandler.cpp:164-219 | Begin is a run of the protocol, with the user's invocation inside the user's begin or not yet made |
| RequestHandlers.Session.EndProcessRequest | src/fabric_rpc/src/FRPCRequestHandler.cpp:236-248 | once the callback has fired End's asserts hold and it reads the error or the operation and context of this request |
| Ownership.CountsAreReferences | src/fabric_rpc/src/FRPCRequestHandler.cpp:87-110 | at every step each reference count equals the number of references, and a referenced object is alive |
| Ownership.UsesAreLive | src/fabric_rpc/src/FRPCRequestHandler.cpp:100-110 | Begin and every running invocation only use objects that are alive |
| Ownership.EndFindsItsContext | src/fabric_rpc/src/FRPCRequestHandler.cpp:225-248 | until Begin has returned, and then as long as the transport holds it, the wrapper is alive and so is the context kept in it |
| Ownership.CycleStaysBroken | src/fabric_rpc/src/FRPCRequestHandler.cpp:107-109 | after the callback's release the cycle is gone and no step, not even Begin's late setting of the context, closes it again |
| Ownership.CycleKeepsItself | src/fabric_rpc/src/FRPCRequestHandler.cpp:107-108 | while the cycle is closed none of its objects can be freed |
| Ownership.NothingLeaks | src/fabric_rpc/include/fabricrpc/exp/AsyncAnyContext.hpp:27-32 | when everybody has let go, something can be freed until nothing is left |
| Ownership.EveryoneLetsGo | src/fabric_rpc/src/FRPCRequestHandler.cpp:211-219 | after a complete run user and transport can always drop what they hold |
| Ownership.EverythingIsFreed | src/fabric_rpc/src/FRPCRequestHandler.cpp:164-169 | from there a run of frees leaves no object alive |
| Headers.FieldsRoundTrip | protos/fabricrpc.proto:10-16 | any sequence of encodable fields is read back as written |
| Headers.RequestRoundTrip | src/fabric_rpc/include/fabricrpc/FRPCHeader.hpp:63-91 | a url that serializes is deserialized as itself if it is UTF-8 and refused otherwise |
| Headers.ReplyRoundTrip | src/fabric_rpc/include/fabricrpc/FRPCHeader.hpp:72-103 | every int32 code, negative ones included, comes back with its message if that is UTF-8; otherwise the header is refused |
| Headers.WrittenButRefused | src/fabric_rpc/include/fabricrpc/FRPCHeader.hpp:72-103 | a message of the one byte 255 is serialized, and the bytes do not deserialize |
| Headers.EmptyOnlyForDefaults | src/fabric_rpc/include/fabricrpc/FRPCHeader.hpp:63-80 | header bytes are empty only for the empty url, and for code 0 with the empty message |
| Headers.WireBytes | protos/fabricrpc.proto:10-16 | the field numbers and wire types on the wire |
| Headers.NegativeCodeLength | protos/fabricrpc.proto:15-15 | a negative int32 is written as ten bytes |
| Transports.FabricMessage.GetBody | src/fabric_rpc/src/FRPCTransportMessage.cpp:28-44 | the loop returns the concatenation of all chunks |
| Transports.FabricMessage.CopyMsg | src/fabric_rpc/src/FRPCTransportMessage.cpp:60-64 | the copy has one chunk and is the same message |
| RpcV1.ReplyIsScheduleFree | src/fabric_rpc/src/FRPCRequestHandler.cpp:221-269 | End's reply does not depend on the interleaving |
| RpcV1.ErrorsArrive | src/fabric_rpc/include/fabricrpc/ClientHelpers.hpp:90-103 | a failing status with a UTF-8 message travels with an empty body, its code and message arrive, the response object is not touched |
| RpcV1.ResponsesArrive | src/fabric_rpc/include/fabricrpc/ClientHelpers.hpp:104-109 | the response of a successful call arrives |
| RpcV1.RequestArrives | src/fabric_rpc/include/fabricrpc/ClientHelpers.hpp:30-52 | the handler gets the url, the request and the operation the client meant, for every url that is UTF-8 and not empty |
| RpcV1.RequestRefused | src/fabric_rpc/src/FRPCRequestHandler.cpp:171-177 | for any other url the handler refuses the header and no operation is reached |
| RpcV1.Transparent | src/fabric_rpc/include/fabricrpc/ClientHelpers.hpp:18-110 | in every complete interleaving the callback fires once without a failed assert; for a url that arrives the client is told exactly what calling the user's two operations directly tells, if and only if the outcome can be sent; for any other url it is told that the header was refused |
| RpcV1.UnaddressableRejected | src/fabric_rpc/src/FRPCRequestHandler.cpp:171-177 | the empty url and a url that is not UTF-8 end in INVALID_ARGUMENT with the matching message at the client |
| RpcV1.UnroutedRejected | src/fabric_rpc/src/FRPCRequestHandler.cpp:27-40 | a url that arrives and is served by nobody ends in NOT_FOUND with the url at the client |
| RpcV1.SilentEndFails | src/fabric_rpc/src/FRPCRequestHandler.cpp:246-253 | an end status without a message leaves no reply |
| RpcV1.BeginTells | src/fabric_rpc/include/fabricrpc/ClientHelpers.hpp:35-70 | begin reports success exactly when header and request serialize and BeginRequest does not fail, and otherwise the stage that failed |
| RpcV1.EndIsStricter | src/fabric_rpc/include/fabricrpc/ClientHelpers.hpp:65-83 | a transport result that is a success but not S_OK passes at begin and fails at end |
| Routes.FullNameDecodes | src/generator/gen.hpp:271-281 | full names determine package and service |
| Routes.UrlDecodes | src/generator/gen.hpp:241-241 | a url determines package, service and method |
| Routes.ChainFinds | src/generator/gen.hpp:233-261 | the generated chain finds arm i if and only if the url is the i-th method's |
| Routes.RouteIsExact | src/fabric_rpc/src/FRPCRequestHandler.cpp:27-40 | the router reaches a method if and only if the url is the one its stub sends |
| Routes.UnknownUrlNotFound | src/fabric_rpc/src/FRPCRequestHandler.cpp:37-39 | every other url gets NOT_FOUND and the url |
| Routes.OrderIrrelevant | src/fabric_rpc/src/FRPCRequestHandler.cpp:24-40 | any list with the same services leads a url to the same method |
| Routes.Router.AddSvc | src/fabric_rpc/src/FRPCRequestHandler.cpp:25-25 | appends the service |
| Routes.Router.Route | src/fabric_rpc/src/FRPCRequestHandler.cpp:27-40 | the loop returns the route characterised by RouteIsExact |
| Stubs.IndexDecodes | src/generator/gen.hpp:233-258 | different methods of different services have different operations |
| Stubs.StubReachesItsMethod | src/generator/gen.hpp:416-460 | the url in a client stub is served by the user's pair for exactly that method |
| Stubs.UrlAddressable | src/generator/gen.hpp:445-447 | the url of a stub is never empty and always UTF-8 |
| Stubs.GeneratedCallIsTransparent | src/generator/gen.hpp:437-447 | a call through a generated stub is transparent in the sense of RpcV1.Transparent |
| Timeouts.StageExact | src/fabric_rpc/src/FRPCRequestHandler.cpp:186-193 | neither the cast to DWORD nor the subtraction wraps |
| Timeouts.ChainExact | src/fabric_rpc/include/fabricrpc/Operation.hpp:35-54 | chained stages take off the sum of their floored milliseconds and stop at zero |
| Timeouts.Budget | src/fabric_rpc/include/fabricrpc/ClientHelpers.hpp:27-65 | n stages leave at least what the floored total leaves and at most n - 1 milliseconds more |
| Timeouts.UpperBoundReached | src/fabric_rpc/include/fabricrpc/ClientHelpers.hpp:54-62 | that upper bound is reached |
| Timeouts.Remaining | src/fabric_rpc/include/fabricrpc/Operation.hpp:45-53 | one stage's code computes the bounded difference |
| Substitution.PassIsExact | src/generator2/printer.hpp:38-42 | one replace-all fills exactly the placeholders of its name if and only if no text between two placeholders clashes with it |
| Substitution.SweepIsPass | src/generator2/printer.hpp:38-42 | one replace-all as a rewriting of placeholders, clashes included: what is filled, and which placeholders grow together |
| Substitution.RenderInjective | src/generator2/printer.hpp:34-44 | the text of a well-formed template determines it |
| SubstitutionPasses.PassesAreExact | src/generator2/printer.hpp:34-44 | every pass is exact if and only if no pass meets a clash |
| SubstitutionPasses.SubstitutionIsSimultaneous | src/generator2/printer.hpp:34-44 | without clashes repeated replacement is one simultaneous substitution; unknown placeholders stay |
| SubstitutionOrder.NeverClashes | src/generator2/printer.hpp:38-42 | the passes meet no clash in any order of the variables if and only if the template is unambiguous |
| SubstitutionOrder.AnyOrderSubstitutes | src/generator2/printer.hpp:34-44 | an unambiguous template gives the simultaneous substitution in any order |
| SubstitutionOrder.ApartIsUnambiguous | src/generator2/printer.hpp:34-44 | a template is unambiguous if no fully expanded text between two placeholders is a key |
| SubstitutionGaps.FindGap | src/generator2/printer.hpp:38-42 | every ambiguous template has a first misread gap: left of it nothing is misread, and no shorter gap ends with it |
| SubstitutionRuns.AmbiguousGoesWrong | src/generator2/printer.hpp:34-44 | from every ambiguous template some order of the variables prints a wrong text |
| SubstitutionRuns.OrderNeverMatters | src/generator2/printer.hpp:34-44 | the printed text is the simultaneous substitution in every order of the variables if and only if the template is unambiguous |
| SubstitutionOrder.LiteralTakenForName | src/generator2/printer.hpp:38-42 | for all names: a literal between two placeholders that is a key is replaced with its neighbours' dollars |
| SubstitutionOneOrder.OneOrderExact | src/generator2/printer.hpp:38-42 | in any one order of the variables the printed text is the simultaneous substitution if and only if no pass meets a clash, when no variable's name extends a placeholder's |
| SubstitutionOneOrder.AccidentallyRight | src/generator2/printer.hpp:38-42 | otherwise a later variable called like the eaten text can make the text right after a clash, in ascending order too |
| Printers.PrintTwice | src/generator2/printer.hpp:11-30 | printing at level n what was printed at level m is printing at level n + m |
| Printers.PrintAppend | src/generator2/printer.hpp:20-32 | printing x, newline, y is printing x, then y; a trailing newline changes nothing |
| Printers.PrintKeepsLines | src/generator2/printer.hpp:20-30 | removing the indent from the output gives back the non-empty input lines |
| Printers.Printer.Add | src/generator2/printer.hpp:11-30 | appends exactly the printed form of the lines |
| Printers.Printer.AddLn | src/generator2/printer.hpp:32-32 | is Add |
| Printers.Printer.AddVars | src/generator2/printer.hpp:34-44 | appends the printed form of the substituted lines |
| Printers.Printer.AddLnVars | src/generator2/printer.hpp:46-49 | substitutes in the line with its newline |
| Generator.TemplateIsWritten | src/generator/gen.hpp:55-65 | a template whose placeholders are separated by text no name has prints as the text it stands for |
| Generator.UrlIsWritten | src/generator/gen.hpp:241-241 | wherever a template spells the url, the printed url is that of package, service and method |
| Generator.PrintChain | src/generator/gen.hpp:233-258 | the loop appends the printed arms of all methods, in order; GeneratedText.ServiceReadsBack reads them back |
| Generator.PrintCCService | src/generator/gen.hpp:222-266 | appends the printed Route function of the service, whose literals GeneratedText.ServiceReadsBack characterises |
| Generator.PrintStubs | src/generator/gen.hpp:429-461 | the loop appends a stub pair for every method, in order; GeneratedText.ClientReadsBack reads their urls back |
| Generator.PrintCCClientService | src/generator/gen.hpp:416-462 | appends the printed client of the service, whose literals GeneratedText.ClientReadsBack characterises |
| GeneratedText.ServiceReadsBack | src/generator/gen.hpp:222-266 | the string literals of a printed service are the urls of its methods, in order, and the complaint that ends the chain |
| GeneratedText.ClientReadsBack | src/generator/gen.hpp:416-462 | the string literals of a printed client are the same urls in the same order |
| GeneratedText.PrintedStubsReachPrintedArms | src/generator/gen.hpp:233-258 | comparing the j-th url of the printed client with the printed tests one after the other stops at the j-th arm |
| GeneratorWording.OwnFits | src/generator/gen.hpp:228-265 | every template of gen.hpp's chain and client separates its placeholders and quotes nothing but the urls and the complaint |
| GeneratorWording.GeneratedFileReadsBack | src/generator/gen.hpp:228-454 | the two read-back results for gen.hpp's own wording |
| GeneratorWording.Generate | src/generator/gen.hpp:222-462 | running the generator on a service prints texts with exactly these literals |
| PrefixRouting.DispatchedIffNoEarlierPrefix | src/fabric_rpc2/include/fabricrpc/middleware.hpp:56-64 | "/N/M" goes to the service registered as N if and only if no earlier registered name is a prefix of N |
| PrefixRouting.DispatchIsLookupIff | src/fabric_rpc2/include/fabricrpc/middleware.hpp:56-65 | for any first part the dispatch is the exact lookup if and only if no name before the exact one, or none at all, is a prefix |
| PrefixRouting.PrefixFreeIsExact | src/fabric_rpc2/include/fabricrpc/middleware.hpp:56-64 | with prefix-free names every service is reached by its own urls |
| PrefixRouting.StrangersAreDispatched | src/fabric_rpc2/include/fabricrpc/middleware.hpp:54-58 | an unregistered first part that extends a registered name is dispatched all the same |
| PrefixRouting.OrderIrrelevantIff | src/fabric_rpc2/include/fabricrpc/middleware.hpp:18-64 | distinct names are served alike in every order of registration if and only if none is a prefix of another |
| Middlewares.Middleware.AddService | src/fabric_rpc2/include/fabricrpc/middleware.hpp:18-18 | appends the service |
| Middlewares.Middleware.TryServices | src/fabric_rpc2/include/fabricrpc/middleware.hpp:56-65 | the loop calls the first service whose name starts the path, or answers unimplemented |
| Middlewares.Middleware.ExecuteInner | src/fabric_rpc2/include/fabricrpc/middleware.hpp:36-66 | status and body of any request, malformed ones included |
| Middlewares.Middleware.Execute | src/fabric_rpc2/include/fabricrpc/middleware.hpp:20-33 | the reply carries that status in its header and that body |
| Parsing.StatusRoundTrip | src/fabric_rpc2/src/parse.cpp:8-34 | the client reads back a status if and only if its code is in the accepted range and its message is UTF-8; otherwise a parse failure or a complaint naming the code |
| RpcV2.Handle | src/fabric_rpc2/include/fabricrpc/parse.hpp:29-46 | a body is written only with an ok status |
| RpcV2.RequestArrives | src/fabric_rpc2/include/fabricrpc/basic_rpc_client.hpp:31-37 | for a url that arrives the handler of that url runs on the request as the client meant it, or, if that does not serialize, on what empty bytes parse to |
| RpcV2.RefusalsArrive | src/fabric_rpc2/include/fabricrpc/middleware.hpp:40-65 | the client is told which of the four refusals its url met: unreadable, empty or too long, without leading slash, or unknown |
| RpcV2.ReplyArrives | src/fabric_rpc2/include/fabricrpc/basic_rpc_client.hpp:49-57 | what the client reads for every status and response of the handler, UTF-8 or not |
| RpcV2.FailuresTravelEmpty | src/fabric_rpc2/include/fabricrpc/middleware.hpp:20-33 | a status other than ok always travels with an empty body |
| RpcV2.Transparent | src/fabric_rpc2/include/fabricrpc/basic_rpc_client.hpp:25-59 | for a url that arrives and a request that parses the client is told what calling the handler directly on that request tells, if and only if that outcome can be sent; otherwise it is told of the parse failure, or of the refusal of its url |
| Completion.FiresOnce | src/fabric_rpc2/include/fabricrpc/any_context.hpp:28-35 | after any completions of any requests each callback has fired once if its request was completed at all and never otherwise; the last result is kept |
| Completion.FiresAtFirstCall | src/fabric_rpc2/include/fabricrpc/any_context.hpp:28-35 | it fires in the first completion of that request and in no other call |
| Completion.EndAfterCallback | src/fabric_rpc2/include/fabricrpc/basic_msg_handler.hpp:56-74 | whenever End runs after the callback its assert holds and S_OK comes with a reply |
| Completion.RpcErrorArrives | src/fabric_rpc2/src/request.cpp:38-47 | an error completed this way reaches the client if and only if its header serializes, its message is UTF-8 and its code is at most 20 and not negative; an unknown code arrives as a complaint naming it, a message that is not UTF-8 as a parse failure, and a header that does not serialize reads as success |
| Completion.Context.Complete | src/fabric_rpc2/include/fabricrpc/any_context.hpp:28-35 | the guarded call of the callback |
| Completion.Request.Complete | src/fabric_rpc2/src/request.cpp:20-36 | overwrites the result and fires the callback the first time |
| Completion.Request.CompleteRpcError | src/fabric_rpc2/src/request.cpp:38-47 | completes with S_OK and a message whose header is the status |
| MessageHandlers.MessageHandler.BeginProcessRequest | src/fabric_rpc2/include/fabricrpc/basic_msg_handler.hpp:29-54 | a new request with the client's id, the message and a context nobody completed yet is posted to the queue that id names, or handed to who waits there |
| MessageHandlers.MessageHandler.EndProcessRequest | src/fabric_rpc2/include/fabricrpc/basic_msg_handler.hpp:56-74 | returns the latest completion's result, its assert proved |

## Left out

- FabricTransport itself, COM queries, handles, asio executors and coroutines: the transport delivers messages and calls Begin and End, an event is a boolean.
- Protocol Buffers beyond the two header messages: user messages are a codec, assumed lossless where a theorem needs it. Groups (wire types 3 and 4) are rejected, also inside unknown fields.
- Draining on disconnect (an open TODO in the source) and the destructor asserts on empty queues and maps.
- Moving a server connection while it waits, and running the wait handler of a destroyed connection.
- FIFO order and fairness: the code has neither.
- Which completion wins in v2: the source overwrites the result before its guard, so only the callback count and the validity of the result are stated. Concurrent completions of one request are not modelled; the flag is not atomic.
- A v1 client with a v2 server: the v2 ok reply has an empty header, which the v1 client rejects.
- src/generator2/code_generator.hpp, which hard-codes one service's names; the v1 generator is modelled instead.
- Services without methods or with streaming methods, for which the v1 generator's chain is not valid code.
- The meaning of the generated C++ beyond its string literals and their order: the chain is a list of arms, and what an arm binds is printed but not interpreted.
- One-way messages, endpoint settings, tests and examples.
- Ownership.CountsAreReferences: does not count the transport's own callback object, which the callback holds for its whole life and which is on no cycle.
- RequestHandlers.Session.BeginProcessRequest: runs on one thread with the user's invocation inside the user's begin or after Begin; the other interleavings are covered by BeginEnd.RaceSafe.
- RpcV1.Transparent: the transport error code of a status made on the server is not sent, so the comparison is of code, message and response.
- Printers.Printer.AddVars: takes the variables as a listing; the order of a std::map is one such listing.
- Generator.PrintCCService: the assignments to the variable map are shown as the resulting listing, and the wording is a parameter that GeneratorWording.Generate sets to gen.hpp's.
