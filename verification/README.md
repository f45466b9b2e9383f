# A verified model of the transport-go bus and STOMP broker

transport-go is an in-process message bus with a STOMP broker in front of it. This
project models its four stateful cores and proves properties of every run of them:

* **Broker** (`Routing`, `HeartBeat`, `Subscriptions`, `Connection`, `Server`,
  `Endpoint`, `Broker`, `Traffic`). Every connection keeps its own subscription table and tells the
  server about it through a FIFO queue; the server loop folds the queue into an index and
  fires callbacks; the fabric endpoint turns the callbacks into reference-counted bus
  channels. The same subscriptions live in three places with messages in flight between
  them. `Broker` runs all of it as one state machine and glues the three together;
  `Traffic` follows messages through every run of it, from SEND to MESSAGE.
* **Transactions** (`Messages`, `Transaction`, `TransactionRuns`). A commit, complete or
  abort machine driven by asynchronous replies. Nothing in `onTransactionError` refuses a
  completed transaction; that it never happens follows only from the once-guards of the
  listeners.
* **Stores and replication** (`Store`, `StoreStreams`, `Replication`, `SyncService`). A
  versioned store announces its changes from goroutines; a client replica starts from a
  snapshot that may overlap the updates; the sync service indexes clients and stores from
  both sides.
* **Dispatch** (`Channel`, `Dispatch`). Fan-out to goroutines counted by a wait group,
  run-once handlers, nested sends, and deletion in place from the handler slice.

## How it is built

Each object of the source that updates its own fields is a class whose methods follow the
source statement by statement and are proved against a function on values (`Model()`,
`State()`, `Indexed()` give the value of an object). The concurrent protocols are state
machines over those same functions: an action is one turn of one goroutine (one frame, one
event, one locked region), a run is any sequence of actions, and an action that cannot
happen leaves the state alone. A theorem about `Run(actions)` for all `actions` therefore
covers every interleaving.

What the model takes from outside:

* Frames arrive parsed (`accept-version` split at its commas, heart-beat headers of at most
  nine digits, as go-stomp accepts them). Whether a write to the socket succeeds is an
  input of each step.
* Connection ids are unique and contain no `#`; they are UUIDs.
* Map iteration order is arbitrary: it is chosen by the loop in a method and carried by the
  action in a run.
* Request bodies parse and payloads marshal; value conversion is the identity. Go's nil is
  kept as a value of its own.
* Go channels are unbounded queues, and runs stop before the server is shut down. Until
  then a connection is closed by its own goroutine only.
* One subscribe, one unsubscribe and one request callback are registered with the server:
  those of the fabric endpoint.
* A handler goroutine of the endpoint may reach the server at any time after the bus message
  was sent, also when the mapping has gone by then. A store request may reach the object of
  a client that has left at any time too; the runs do not ask whether one has.
* Whether a transaction's channel or store exists is a parameter of the step that asks. In
  the broker the channel table is part of the state, and a send to a missing channel is lost.
* A message is caused by the callback that sends it before it returns; what a goroutine
  started by a callback sends counts as sent from outside.
* One callback of the endpoint is one step: nobody else creates or destroys a channel in
  the middle of it.
* A change notification counts as run when the sync listener reads its set of channels for
  it, or when it found the listener's stream not yet subscribed; one client and one store
  stand for all, since each is served independently.

## Results worth knowing about

Some promises of the code hold only under a condition; the exact condition is proved.

* The write time-out the server keeps equals the one a client derives from CONNECTED unless
  the configured heart-beat overflows 64 bits, wraps to something that is not a whole
  number of milliseconds, and replaces the client's value (`HeartBeatAgreement`,
  `WrappedMinimumDisagrees`).
* `Channel.Send` deletes exactly the spent run-once handlers if and only if at most one is
  spent (`SendDeletesSpentIff`, `SendCanDeleteTheWrongHandler`). The bus itself never
  subscribes with that flag.
* Whatever the order in which notifications run and updates arrive, the replica holds for
  each key what the server held after the last change that arrived about it, or at the
  snapshot (`ReplicaShowsPast`). A settled replica therefore equals its server if and only
  if no key is outdated without having come back to the same value, and no key replayed by
  an update holds nil (`SettledReplica`); where no nil is put and values do not come back,
  if and only if no key is outdated (`ConvergesIffCurrent`). The code does not guarantee that: the
  notification goroutines may run in any order (`DelayedNotificationDiverges`). Order
  within each key is enough, and then exactly the keys whose last change overtook the
  snapshot are outdated (`OutdatedIffOvertook`, `ReplicaConverges`); order across keys
  is not needed (`KeysMayPassEachOther`).
* A request to a bus channel that does not exist is dropped without a trace: `bridgeMessage`
  ignores the error. A SEND reaches the bus if and only if its channel exists at the moment
  the server handles it, and a client's private requests all reach the bus, once and in
  order, if and only if that holds for each of them (`AcceptedSendIsRouted`,
  `PrivateRequestIsTagged`, `SendIsLost`).
* `Fire` waits for the wait group of its own channel. Deliveries caused by sends that stay on
  it are all done when it returns (`FireWaitsForAllItCaused`). Everything the request caused
  is done, for good, if and only if the deliveries caused by way of another channel are
  (`FireWaitsForEverythingIff`); otherwise one on the fired channel can still follow
  (`FireCanReturnTooEarly`).
* Others may create and destroy bus channels at any time. A name is disturbed exactly when
  they do so while the endpoint has it auto-created: created, their channel goes with the
  last subscription; destroyed, the mapping outlives its channel until the last
  subscription leaves (`ForeignCreation`, `ForeignDestruction`). Over whole runs the channel
  table is conserved if and only if no name stands like that (`ChannelsConserved`).
* A store request handled for a client object that is no longer registered breaks the
  symmetry of the sync service if and only if it opens a store the registered client does
  not hold, or closes one it does hold (`StaleOpenRequest`, `StaleCloseRequest`). Over whole
  runs the two indexes disagree on a client and a store if and only if such a request was
  the last to settle that pair (`IndexesAgree`).
* Subscribe and Unsubscribe of a store stream let go of the stream's lock before they take
  the store's. A removal that runs before its entry is there is lost, and the entry stays;
  a Reset drops entries of streams that keep their handler. The stream is listed exactly
  while it has a handler if and only if these are equally many (`ListedWhileHandled`), and
  any number of left-over entries can occur (`LeftoversHappen`).

The receipt header of a SUBSCRIBE is never answered, although STOMP 1.2 (section
"Standard Headers", "Header receipt") asks for it; `ReceiptsAnswered` says exactly which receipts are.

Code and comment differ in one place: the comment at bus/fabric_endpoint.go:144-145 speaks
of clients sending messages to internal channels, while the test guards subscriptions only;
`bridgeMessage` has none. The model follows the code.

## Model

| member | source | states |
|---|---|---|
| `Routing.StompConfig.constructor` | stompserver/config.go:19-33 | every stored prefix starts with the given one and ends in a slash, being the given one iff that ends in a slash; an empty one stays empty |
| `Routing.StompConfig.IsAppRequestDestination` | stompserver/config.go:43-50 | true exactly when some non-empty stored prefix starts the destination |
| `Routing.NormalisedPrefixes` | bus/fabric_endpoint.go:75-91 | each prefix of the endpoint is the given one, ending in a slash unless it is empty |
| `Routing.RawPrefixesResolve` | bus/fabric_endpoint.go:258-297 | for every configuration as given, prefix, slash and channel resolve or route to that channel, whether or not the slash was given, the queue prefix first |
| `Routing.NormalisingTwice` | bus/fabric_endpoint.go:75-91 | normalisation is idempotent, so the server's second normalisation stores exactly the endpoint's own prefixes |
| `Routing.FilterAgreesWithRouter` | bus/fabric_endpoint.go:258-269 | for every configuration and destination, the connection's SEND filter accepts it iff the endpoint's router extracts a channel |
| `Routing.RouteSplitsDestination` | bus/fabric_endpoint.go:262-269 | the destination is prefix plus channel; the request is private iff the queue prefix matches, also when both match |
| `Routing.ResolvesExactly` | bus/fabric_endpoint.go:288-297 | a destination resolves to a channel iff it is topic prefix plus channel, or else user-queue prefix plus channel |
| `Routing.RoutesExactly` | bus/fabric_endpoint.go:262-269 | a destination routes to a channel, privately or not, iff it is that prefix plus the channel, the queue prefix first |
| `Routing.UserQueueResolves` | bus/fabric_endpoint.go:288-297 | a user-queue destination resolves back to its channel iff the topic prefix does not capture it or is the same prefix |
| `HeartBeat.HeartBeatAgreement` | stompserver/stomp_connection.go:212-243 | for every int64 setting and in-range header the client's STOMP 1.2 derivation equals the read time-out, equals the write time-out iff the wrapped minimum does not cut in between milliseconds, and neither exceeds 999999999 ms |
| `HeartBeat.FittingProductAgrees` | stompserver/stomp_connection.go:218-243 | whenever the millisecond product fits int64 both sides agree |
| `HeartBeat.KeptInterval` | stompserver/stomp_connection.go:218-243 | what is kept and written is 0 if the client or the configuration says 0, else the larger of the client's interval and the minimum; a configured 0 switches both directions off |
| `HeartBeat.MinimumIsConfigured` | stompserver/stomp_connection.go:218-221 | a fitting configured value is the minimum, up to the largest a header can say |
| `HeartBeat.WrappedMinimumDisagrees` | stompserver/stomp_connection.go:218-237 | a concrete setting on which they do not |
| `Connection.StompConn.constructor` | stompserver/stomp_connection.go:57-73 | a new connection: connecting, no subscriptions, nothing written or told; it satisfies the connection invariant |
| `Connection.StompConn.SendFrameToSubscription` | stompserver/stomp_connection.go:75-78 | the frame is queued last, under that subscription |
| `Connection.StompConn.CloseConn` | stompserver/stomp_connection.go:80-91 | closes and tells the server once; later calls change nothing |
| `Connection.StompConn.SendReceiptResponse` | stompserver/stomp_connection.go:388-394 | a receipt is written iff asked for; the error is that of the write |
| `Connection.StompConn.Connect` | stompserver/stomp_connection.go:192-259 | the new state and error of CONNECT in every phase, with every header and write outcome |
| `Connection.StompConn.Disconnect` | stompserver/stomp_connection.go:261-270 | receipt, then close; refused while connecting |
| `Connection.StompConn.Subscribe` | stompserver/stomp_connection.go:272-310 | adds and tells a new id once; a known id changes nothing; the error cases |
| `Connection.StompConn.Unsubscribe` | stompserver/stomp_connection.go:312-345 | removes and tells the id with the destination it was held on; the receipt comes first and its failure is ignored |
| `Connection.StompConn.Send` | stompserver/stomp_connection.go:347-386 | tells the message only for an accepted destination and after a successful receipt |
| `Connection.StompConn.HandleIncomingFrame` | stompserver/stomp_connection.go:159-179 | dispatch on the command; other commands are an error |
| `Connection.StompConn.RunInFrame` | stompserver/stomp_connection.go:135-143 | an error is written to the client and ends the connection; the object keeps both trace languages and tells the server exactly what changed in its table |
| `Connection.StompConn.RunOutFrame` | stompserver/stomp_connection.go:115-133 | MESSAGE frames get the next uint64 id; a failed write or an ERROR ends the connection; the invariant is kept |
| `Connection.StompConn.RunTimer` | stompserver/stomp_connection.go:145-154 | a heart-beat, or the end of the connection when it cannot be written; the invariant is kept |
| `Connection.InFrameKeeps` | stompserver/stomp_connection.go:159-394 | any frame with any write outcome keeps the frame and event languages, adds at most one event, and that event is legal for the old table and turns it into the new one |
| `Connection.OutFrameKeeps` | stompserver/stomp_connection.go:115-133 | the same for outgoing frames, with message ids staying consecutive |
| `Connection.TimerKeeps` | stompserver/stomp_connection.go:145-154 | the same for heart-beats |
| `Connection.ConnectedFrameIsKept` | stompserver/stomp_connection.go:202-243 | CONNECTED carries the highest common version, never 1.0, and heart-beats that agree with the time-outs the connection keeps |
| `Connection.SubscriptionTakesEffect` | stompserver/stomp_connection.go:290-342 | SUBSCRIBE adds exactly a new id; UNSUBSCRIBE, with or without a destination header, takes exactly a held id away and tells the destination it was held on; the server is told iff they do |
| `Connection.RefusedFramesEnd` | stompserver/stomp_connection.go:135-143 | exactly the refused frames, listed by command, phase, headers and write outcome, are answered with an ERROR naming a true reason and end the connection; of the others exactly DISCONNECT ends it |
| `Connection.AcceptedConnect` | stompserver/stomp_connection.go:192-259 | a CONNECT offering 1.2 or 1.1 that is not refused writes one CONNECTED with the higher one and tells Established |
| `Connection.AcceptedFramesTell` | stompserver/stomp_connection.go:250-383 | an accepted SEND, with or without a receipt, tells exactly its message with destination and body; DISCONNECT tells the end; only CONNECT changes version and intervals |
| `Connection.OutFrameTakesEffect` | stompserver/stomp_connection.go:115-133 | the first waiting MESSAGE is written with its own destination, subscription, body and the next id and the connection stays open; exactly a failed write or an ERROR ends it |
| `Connection.TimerTakesEffect` | stompserver/stomp_connection.go:145-154 | the timer writes a heart-beat and changes nothing else, or ends the connection |
| `Connection.ReceiptsAnswered` | stompserver/stomp_connection.go:261-394 | a receipt is written, alone, exactly for DISCONNECT, UNSUBSCRIBE with an id and an accepted SEND outside a transaction, while connected and if the write succeeds; never for SUBSCRIBE |
| `Connection.TrafficOnWire` | stompserver/stomp_connection.go:459-468 | one more frame keeps a session a session, and the n-th MESSAGE of it carries id n, as a uint64 |
| `Subscriptions.DrainAppend` | stompserver/server.go:242-243 | queueing an event is applying it to the drained index |
| `Subscriptions.EventKeepsBalance` | stompserver/server.go:260-313 | handling one legal event keeps callbacks alternating and one of them open exactly per indexed subscription, bulk removal included |
| `Server.StompServer.constructor` | stompserver/server.go:101-116 | an empty index, no callbacks, nothing sent |
| `Server.StompServer.OnSubscribe` | stompserver/server.go:277-294 | exactly one triple is added to the index and one subscribe callback fires |
| `Server.StompServer.OnUnsubscribe` | stompserver/server.go:299-314 | exactly that triple goes; the callback fires iff it was there |
| `Server.StompServer.AnnounceDrops` | stompserver/server.go:266-270 | one unsubscribe callback per subscription of the connection at a destination, each once |
| `Server.StompServer.DropFrom` | stompserver/server.go:262-272 | one destination loses the connection and announces what it held |
| `Server.StompServer.CloseTurn` | stompserver/server.go:262-272 | one turn of the close loop: what left the nested maps is exactly what was announced |
| `Server.StompServer.OnClosed` | stompserver/server.go:260-272 | every triple of the connection leaves the index and is announced exactly once |
| `Server.StompServer.HandleConnectionEvent` | stompserver/server.go:248-330 | on the nested maps, one event does to the flat index, the callbacks and the requests exactly what its kind demands |
| `Server.StompServer.SendToSubscriptions` | stompserver/server.go:336-338 | one frame per subscription of one connection |
| `Server.StompServer.SendFrame` | stompserver/server.go:332-341 | one frame to each indexed subscription on the destination and to no other |
| `Server.StompServer.SendFrameToClient` | stompserver/server.go:343-353 | the same restricted to one connection |
| `Endpoint.ChannelManager.CreateChannel` | bus/channel_manager.go:43-55 | the name is in the table, nothing else changes |
| `Endpoint.ChannelManager.DestroyChannel` | bus/channel_manager.go:58-64 | the name is gone, nothing else changes |
| `Endpoint.ChannelManager.CheckChannelExists` | bus/channel_manager.go:84-89 | true exactly for a name in the table |
| `Endpoint.ChannelManager.ListenStream` | bus/eventbus.go:235-242 | succeeds exactly on an existing channel |
| `Endpoint.FabricEndpoint.constructor` | bus/fabric_endpoint.go:82-102 | every prefix is stored with its slash, and nothing is mapped |
| `Endpoint.FabricEndpoint.AddSubscription` | bus/fabric_endpoint.go:136-195 | the mappings and the channel table after a subscribe callback, auto-creation included |
| `Endpoint.FabricEndpoint.RemoveSubscription` | bus/fabric_endpoint.go:229-256 | the same after an unsubscribe callback; the last key takes the mapping and an auto-created channel with it |
| `Endpoint.FabricEndpoint.BridgeMessage` | bus/fabric_endpoint.go:258-286 | the request the prefixes name is sent iff its channel is in the table; otherwise nothing is |
| `Endpoint.KeyInjective` | bus/fabric_endpoint.go:193 | `conId#subId` determines both parts when connection ids contain no `#` |
| `Endpoint.ProtectedUnmapped` | bus/fabric_endpoint.go:146-148 | a protected channel is never mapped, so removal needs no test |
| `Endpoint.EventAgrees` | bus/fabric_endpoint.go:136-256 | the callbacks of any one legal event keep the mappings equal to the index |
| `Endpoint.EventStands` | bus/fabric_endpoint.go:136-256 | the callbacks of any event leave every channel name conserved or disturbed as it was, except that a name others destroyed is in order again once unmapped |
| `Endpoint.ForeignCreation` | bus/fabric_endpoint.go:242-252 | another party creating a name keeps the table conserved iff the name was not auto-created; if it was, their channel is gone once all subscriptions have left |
| `Endpoint.ForeignDestruction` | bus/fabric_endpoint.go:242-252 | another party destroying a name keeps the table conserved iff the name was not auto-created; once all subscriptions have left it is what others hold either way |
| `Broker.ConnectionActs` | stompserver/stomp_connection.go:97-157 | a connection's own action is one turn of its loop, its events are queued and nobody else is touched |
| `Broker.RunKeeps` | stompserver/server.go:223-246 | every run, with others creating and destroying any channel, keeps the gluing invariant of connections, queue, index, callbacks and mappings |
| `Broker.DrainedIndexIsLive` | stompserver/stomp_connection.go:272-345 | in every run, draining the queue into the index gives exactly the subscriptions of the connections that are not closed |
| `Broker.MappingsFollowIndex` | bus/fabric_endpoint.go:136-195 | in every run a channel is mapped iff an unprotected indexed subscription resolves to it, under exactly their keys, never empty |
| `Broker.ChannelsConserved` | bus/fabric_endpoint.go:153-192 | in every run the table is the external names plus the mapped auto-created ones, disjointly, iff no name is disturbed, and a name left alone while auto-created never is; once all clients have gone the table is the external names less exactly those created while auto-created |
| `Broker.CallbacksAlternate` | stompserver/server.go:260-313 | in every run the callbacks about one subscription alternate, subscribe first, and one is open iff it is indexed |
| `Broker.ConnectionTraces` | stompserver/stomp_connection.go:97-157 | in every run what reached a client is in `ERROR?` or `CONNECTED (MESSAGE, RECEIPT, heart-beat)* ERROR?`, numbered, and what the connection told is an optional Established, session events, and Closed last iff closed |
| `Traffic.FramesEnumerate` | stompserver/server.go:332-353 | in whatever order a send iterates, a connection gets one frame per addressed subscription of its own |
| `Traffic.DeliveryIsExact` | stompserver/server.go:332-353 | in every run a broadcast appends to each connection one frame per subscription on the destination, a private send the same to one connection and nothing to others |
| `Traffic.PrivateRequestIsTagged` | bus/fabric_endpoint.go:258-286 | in every run, those on the bus and then those still queued are all the private requests a client sent, once each and in order, iff each was handled while its channel existed |
| `Traffic.PrivateRequestHasSender` | bus/fabric_endpoint.go:278-285 | in every run a tagged request on the bus was sent by the very client it is tagged with, on a channel that existed |
| `Traffic.SendIsLost` | bus/fabric_endpoint.go:285 | a run in which an accepted and handled SEND never reaches the bus |
| `Traffic.PrivateResponseIsForwarded` | bus/fabric_endpoint.go:166-180 | in every run a tagged response puts exactly one private send to the tagged connection under way iff an unprotected subscription resolves to the channel and its mapping is attached, nothing otherwise; a user-queue subscription resolves iff the channel is unprotected and no other topic prefix captures it |
| `Traffic.ApiInOrder` | stompserver/server.go:223-246 | in every run API events are handled first in, first out |
| `Traffic.PrivateRoundTrip` | bus/fabric_endpoint.go:166-286 | in every run, from a client's SEND to an existing channel over the service's answer with the copied broker destination to the server: the requester gets exactly one frame per subscription on its user queue and nobody else gets any, whatever happens in between |
| `Traffic.RoundTripHappens` | bus/fabric_endpoint.go:258-286 | such a run exists: a client connects, subscribes to its user queue and sends one private request |
| `Traffic.AcceptedSendIsRouted` | bus/eventbus.go:205-214 | in every run handled and queued events of a connection are all it told, in order; the requests on the bus are the handled SENDs whose channel existed at that moment, one each and in order, split at the prefix and tagged with the sender iff the queue prefix matches; the others are lost |
| `Traffic.TableAtThatMoment` | bus/eventbus.go:205-209 | the table a handled event is judged by is the channel table of the run at the moment it was handled |
| `Traffic.PublicMessagesStayOnChannel` | bus/fabric_endpoint.go:166-183 | in every run an untagged response or an error on a mapped channel puts one broadcast under way, to a destination that only subscriptions to that channel can have |
| `Traffic.BroadcastReaches` | stompserver/server.go:332-341 | whenever the server comes to that broadcast, a connection gets exactly one frame per subscription it then has indexed on the destination, all of them to that channel |
| `Traffic.ErrorsGoToFirst` | bus/fabric_endpoint.go:181-183 | in every run errors of a channel go to the destination of the subscription that made its present mapping |
| `Traffic.MappingHistory` | bus/fabric_endpoint.go:153-192 | in every run a mapping was made by the first subscription while the channel was unmapped, errors go where that one pointed, and it listens on the live channel iff nobody has destroyed the channel since |
| `Traffic.MappedChannelsListen` | bus/fabric_endpoint.go:155-166 | in every run in which nobody destroyed the channel, a mapped channel is listened on, auto-created or not |
| `Traffic.InternalChannelsAreClosed` | bus/fabric_endpoint.go:144-148 | in every run no channel whose name starts with _transportInternal/ is mapped, and every other one a subscription resolves to is |
| `Traffic.MessagesAreDeserved` | stompserver/server.go:332-353 | in every run each MESSAGE queued for or written to a client names a subscription id and destination that client subscribed itself |
| `Traffic.ClientsReadWhatIsSent` | stompserver/stomp_connection.go:75-133 | in every run the MESSAGE frames a client has read, followed by those waiting, are exactly the frames sent to it in order; a closed connection has read a prefix |
| `Messages.MessageHandler.constructor` | bus/eventbus.go:502-511 | no callback run yet, subscribed |
| `Messages.MessageHandler.Invoke` | bus/eventbus.go:513-544 | a run-once handler runs one callback in all and unsubscribes with it; the run count counts the callbacks |
| `Messages.ReachesExactly` | bus/eventbus.go:546-570 | an error reaches the error callback of every listener that has one, whatever its id and direction; any other message reaches success iff all traffic is taken, or direction matches and the id is ignored or equal |
| `Messages.MessageHandler.HandlerWrapper` | bus/eventbus.go:546-570 | the callback so selected runs if the once-guard is still armed, an error's in particular |
| `Transaction.BusTransaction.constructor` | bus/transaction.go:66-78 | an uncommitted, empty transaction |
| `Transaction.BusTransaction.SendRequest` | bus/transaction.go:87-102 | appended with its own index, refused after commit |
| `Transaction.BusTransaction.WaitForStoreReady` | bus/transaction.go:104-122 | the same for an existing store |
| `Transaction.BusTransaction.OnComplete` | bus/transaction.go:124-134 | registered last, refused after commit |
| `Transaction.BusTransaction.OnError` | bus/transaction.go:136-146 | registered last, refused after commit |
| `Transaction.BusTransaction.Commit` | bus/transaction.go:148-190 | succeeds iff uncommitted and not empty; empty slots for all requests; all are executed in order, or the first |
| `Transaction.BusTransaction.OnTransactionError` | bus/transaction.go:210-222 | unless aborted already, aborts and starts every error handler once, in order |
| `Transaction.BusTransaction.OnTransactionRequestSuccess` | bus/transaction.go:238-268 | fills the slot and counts it, completes and starts every complete handler at the last one, else issues the next request if sync |
| `TransactionRuns.RunKeeps` | bus/transaction.go:148-268 | every run of executions, dispatches, deliveries and callbacks keeps the invariant |
| `TransactionRuns.OneOutcome` | bus/transaction.go:210-262 | no run starts complete and error handlers both, and what starts, starts once per handler |
| `TransactionRuns.CompletedIsFinal` | bus/transaction.go:210-222 | no action changes a completed transaction |
| `TransactionRuns.AbortedIsFinal` | bus/transaction.go:242-245 | no action changes an aborted transaction |
| `TransactionRuns.ErrorAborts` | bus/transaction.go:201-222 | in every run an error delivered to a listening request aborts a committed transaction when its callback runs and starts each error handler with its text |
| `TransactionRuns.AbortHasCause` | bus/transaction.go:192-236 | in every aborted run some missing channel or store or some error callback aborted it, and the error handlers got that very error |
| `TransactionRuns.ReplyFills` | bus/transaction.go:201-253 | in every run a response addressed to a listening request fills its slot and counts when its callback runs |
| `TransactionRuns.StoreFills` | bus/transaction.go:224-253 | in every run a ready store's content fills its request's slot when the callback runs |
| `TransactionRuns.GuardAloneWouldAbort` | bus/transaction.go:214-221 | the guard by itself would let a completed transaction abort and start both kinds of handlers |
| `TransactionRuns.CompleteWhenAllFilled` | bus/transaction.go:247-253 | the counter is the number of filled slots, and an unaborted transaction is complete iff all are filled, in any order of arrival |
| `TransactionRuns.SlotsHoldOwnReplies` | bus/transaction.go:192-236 | slot i holds a response that was dispatched to request i under its id, which is no other request's, or what the request's very store held at the moment of the run at which it had become ready |
| `TransactionRuns.SyncInOrder` | bus/transaction.go:264-267 | a sync transaction fills a prefix and never has two requests outstanding |
| `TransactionRuns.SyncGoesOn` | bus/transaction.go:264-267 | a committed sync transaction has exactly one request outstanding, the one after those filled |
| `TransactionRuns.AsyncStartsAll` | bus/transaction.go:186-190 | a committed async transaction has exactly its unfilled requests outstanding |
| `TransactionRuns.ExecuteTakesEffect` | bus/transaction.go:178-236 | in every run an executed request waits for its store, or listens under a new id with its message sent, or aborts when channel or store is missing |
| `TransactionRuns.RequestsAreSent` | bus/transaction.go:192-208 | in every run each request that listens has sent exactly one message on its own channel, with its payload and under its id, and no other message was sent |
| `Channel.Channel.constructor` | bus/channel.go:29-41 | no handlers, counter zero |
| `Channel.Channel.SubscribeHandler` | bus/channel.go:104-108 | the handler is appended |
| `Channel.Channel.ShiftDown` | bus/channel.go:134 | the tail moves one place down, the head stays |
| `Channel.Channel.RemoveEventHandler` | bus/channel.go:124-137 | the shift in place deletes exactly that position; a position past the end deletes nothing |
| `Channel.Channel.UnsubscribeHandler` | bus/channel.go:110-121 | deletes the first handler with the uuid, or reports that there is none |
| `Channel.Channel.CopyHandlers` | bus/channel.go:78-79 | a copy of the handlers in order |
| `Channel.Channel.DispatchOrDrop` | bus/channel.go:80-87 | one turn of the send loop |
| `Channel.Channel.Send` | bus/channel.go:71-89 | dispatches to every handler that is not spent, in order, counting each; the slice is left as the sweep by copied positions leaves it |
| `Channel.Channel.FinishDelivery` | bus/channel.go:97-101 | the run count goes up and the counter down by one |
| `Channel.FreshIsFilter` | bus/channel.go:80-87 | a message is dispatched to exactly the handlers that are not run-once ones already run, in their order |
| `Channel.UnsubscribeKeepsOthers` | bus/channel.go:110-137 | with distinct uuids, unsubscribing equals filtering: the others remain in their order |
| `Channel.SendDeletesSpentIff` | bus/channel.go:80-83 | the sweep leaves exactly the unspent handlers iff at most one is spent |
| `Channel.SendCanDeleteTheWrongHandler` | bus/channel.go:80-83 | three handlers on which a live one is deleted and a spent one stays |
| `Dispatch.RunKeeps` | bus/channel.go:71-101 | every run over any number of channels keeps the invariant of deliveries, once-guards and counters |
| `Dispatch.WaitGroupCounts` | bus/channel.go:85-100 | in every run each channel's counter is the number of its dispatched, unfinished deliveries |
| `Dispatch.FireWaitsForAllItCaused` | bus/message_handler.go:70-78 | after Fire returned, every delivery its request caused by sends that stayed on the fired channel, nested ones included, is done and no further one ever appears |
| `Dispatch.FireWaitsForEverythingIff` | bus/message_handler.go:70-78 | after Fire returned, everything its request caused on any channel is done and nothing more ever comes iff the deliveries caused by way of another channel are done by then |
| `Dispatch.FireCanReturnTooEarly` | bus/message_handler.go:73-74 | a run in which a delivery on the fired channel, caused by the request over another channel, appears after Fire returned |
| `Dispatch.RunOnceRunsOnce` | bus/eventbus.go:509-570 | in every run a run-once listener's callbacks run at most once, and exactly once when a matching delivery got past it |
| `Dispatch.SendReachesAll` | bus/channel.go:71-89 | in every run a send dispatches its message once to each listener subscribed on the channel then, in order, and to no other |
| `Dispatch.ListenerRunsForEveryMatch` | bus/eventbus.go:528-543 | in every run a listener that is not run-once has run exactly once for each matching delivery that started |
| `Dispatch.SpentListenerUnsubscribes` | bus/eventbus.go:513-537 | in every run the return of a run-once listener's call unsubscribes it |
| `Dispatch.UnsubscribedForGood` | bus/message_handler.go:55-60 | in every run a listener once unsubscribed stays so |
| `Store.BusStore.constructor` | bus/store.go:93-119 | empty, version 1, not ready |
| `Store.BusStore.PutInternal` | bus/store.go:312-326 | stores the item, raises the version unless galactic, announces the change with it; the change log stays exact |
| `Store.BusStore.RemoveInternal` | bus/store.go:366-387 | the same for a present item; nothing happens for an absent one |
| `Store.BusStore.Populate` | bus/store.go:263-280 | takes over all items without a version; refused on a galactic or non-empty store |
| `Store.BusStore.Reset` | bus/store.go:466-481 | back to an empty store at version 1 |
| `Store.BusStore.AllValuesAndVersion` | bus/store.go:415-426 | a copy of all items with the version they have |
| `Store.BusStore.UpdateVersionFromResponse` | bus/store.go:194-205 | the version on the wire, or 1 if unreadable |
| `Store.BusStore.HandleContentResponse` | bus/store.go:150-167 | the replica becomes the snapshot |
| `Store.BusStore.HandleUpdateResponse` | bus/store.go:168-186 | the version is taken over; nil removes, anything else puts |
| `Store.DoKeepsLog` | bus/store.go:312-387 | an effective operation changes exactly its item, raises the version by exactly one and logs it; any other changes nothing |
| `Store.ChangeIsAnnounced` | bus/store.go:312-387 | the change announced carries the operation's own item and state, the value put or removed, and the new version |
| `Store.WireTakesEffect` | bus/store.go:150-205 | a response makes the replica hold its content or its update, nil removing, takes the version over or 1, and is announced as update or removal |
| `Store.SnapshotPlusNewerChanges` | bus/store.go:415-426 | for every sequence of operations, replaying the changes newer than a snapshot's version onto it rebuilds the items |
| `StoreStreams.Match` | bus/store_stream.go:27-41 | true exactly when the item matches and the state is unrestricted or listed |
| `StoreStreams.StreamSeesChange` | bus/store_stream.go:27-41 | a stream sees a put or removal exactly by its item and the state it was made with |
| `StoreStreams.StoreStream.constructor` | bus/store_stream.go:50-55 | a stream without a handler |
| `StoreStreams.StreamTable.OnStreamSubscribe` | bus/store.go:504-509 | the stream is appended |
| `StoreStreams.StreamTable.OnStreamUnsubscribe` | bus/store.go:518-535 | the first occurrence is replaced by the last element and the slice shortened |
| `StoreStreams.StreamTable.Announce` | bus/store.go:450-457 | a change starts the handler of every listed stream that has one and wants the change, once per listing |
| `StoreStreams.StreamTable.Clear` | bus/store.go:466-476 | a Reset empties the slice |
| `StoreStreams.StreamTable.Subscribe` | bus/store_stream.go:57-72 | a stream stays listed once iff it has a handler; other streams are untouched; the error cases |
| `StoreStreams.StreamTable.Unsubscribe` | bus/store_stream.go:74-85 | the same for unsubscribing |
| `StoreStreams.DeletedRemovesOne` | bus/store.go:518-535 | as a multiset, swap-delete removes exactly one occurrence of the stream |
| `StoreStreams.ListedWhileHandled` | bus/store_stream.go:57-85 | over every interleaving of the locked regions and of Resets, a stream's listings are its handler plus lost removals minus wiped entries, so it is listed exactly while handled iff those are equally many |
| `StoreStreams.NothingWiped` | bus/store_stream.go:57-85 | without a Reset a stream is never listed less often than it has a handler |
| `StoreStreams.LeftoversHappen` | bus/store_stream.go:57-85 | every number of left-over entries is reached by some interleaving, with and without a handler |
| `Replication.LastChangeWins` | bus/store.go:168-186 | after a replay each key holds what its last change left, on the server and on the wire |
| `Replication.RunKeeps` | bus/store_sync_service.go:148-165 | every run keeps the invariant: what the listener missed is in the snapshot, what it heard is under way or delivered once |
| `Replication.ReplicaShowsPast` | bus/store.go:149-186 | at any time of any run after the snapshot arrived, in any order of arrival, each key holds what the server held after the last change that arrived about it, or at the snapshot, nil from an update being absent; it is the arrivals replayed over the snapshot |
| `Replication.SettledReplica` | bus/store_sync_service.go:259-272 | any settled run, any order: items equal the server's iff every outdated key came back to the same value and no other key holds nil from an update; versions agree iff the last arrival is the newest change or a current snapshot |
| `Replication.ConvergesIffCurrent` | bus/store_sync_service.go:259-272 | without nil and without values that come back, a settled replica equals the server iff for every key the last arrival about it is not older than its last change |
| `Replication.OutdatedIffOvertook` | bus/store_sync_service.go:148-165 | when changes of one key keep their order, a key is outdated iff its last change is newer than the snapshot and arrived before it |
| `Replication.ReplicaConverges` | bus/store_sync_service.go:148-165 | if each key keeps its order and no newer update overtook the snapshot, items agree iff no replayed key holds nil, even when updates in the snapshot are replayed after it; in version order the versions agree too |
| `Replication.VersionInOrder` | bus/store.go:194-205 | in version order the versions agree iff an update followed the snapshot or the snapshot is current |
| `Replication.DelayedNotificationDiverges` | bus/store.go:325 | a run, settled and not overtaken, whose replica differs because a notification ran late |
| `Replication.KeysMayPassEachOther` | bus/store.go:325 | a run out of version order whose replica equals the server |
| `SyncService.StoreSyncService.constructor` | bus/store_sync_service.go:40-48 | no clients, no listeners |
| `SyncService.StoreSyncService.OpenNewClientSyncChannel` | bus/store_sync_service.go:68-106 | a new client without open stores; a known one is left alone |
| `SyncService.StoreSyncService.ReleaseListener` | bus/store_sync_service.go:182-189 | the channel leaves the listener; an empty listener goes with its stream |
| `SyncService.StoreSyncService.AddToListener` | bus/store_sync_service.go:153-158 | the channel joins the listener, which is made with a stream if missing |
| `SyncService.StoreSyncService.CloseClientSyncChannel` | bus/store_sync_service.go:108-130 | every open store of the client is released once, then the client is gone; the invariant is kept |
| `SyncService.StoreSyncService.OpenStore` | bus/store_sync_service.go:132-166 | for any client object, registered or not: it and the listener record the store; the error replies; the invariant survives iff the client is registered or the registered one holds the store |
| `SyncService.StoreSyncService.CloseStoreRequest` | bus/store_sync_service.go:168-190 | for any client object: both forget the store; the error reply; the invariant survives iff the client is registered or the registered one does not hold the store |
| `SyncService.JoinRegisters` | bus/store_sync_service.go:68-106 | joining registers a new client without open stores and touches no other |
| `SyncService.RequestsTakeEffect` | bus/store_sync_service.go:108-190 | a registered client's open is on both sides, its close off both, and after leaving nothing serves it |
| `SyncService.AttachServes` | bus/store_sync_service.go:153-158 | opening adds exactly the pair of store and channel to what listeners serve |
| `SyncService.DetachServes` | bus/store_sync_service.go:182-189 | closing takes exactly that pair away |
| `SyncService.RequestKeepsIff` | bus/store_sync_service.go:132-190 | from a symmetric state exactly the stale opens of a store not held and the stale closes of a store held break the symmetry |
| `SyncService.IndexesAgree` | bus/store_sync_service.go:68-190 | in every run, stale requests included, a client has a store open iff the store's listener serves it, unless a misplaced stale request was the last to settle that pair; no listener is empty, and the subscribed streams are exactly the listeners' |
| `SyncService.TimelyRunsAgree` | bus/store_sync_service.go:68-190 | in every run without such a request both indexes agree everywhere and only registered clients are served |
| `SyncService.NothingLeaks` | bus/store_sync_service.go:108-130 | with no client left, listeners and streams are left iff a misplaced stale request was the last to settle some pair |
| `SyncService.StaleOpenRequest` | bus/store_sync_service.go:132-158 | an open for a client no longer registered keeps the symmetry iff the registered client of that name had the store open |
| `SyncService.StaleCloseRequest` | bus/store_sync_service.go:168-190 | a close for a client no longer registered keeps the symmetry iff the registered client of that name did not have the store open |

## Left out

- Sockets, WebSocket and TCP listeners, TLS and the go-stomp codec: foreign code and I/O.
- Server shutdown (`closeServer`), bounded Go channels and every liveness question.
- `connectionsMap` beyond its updates: a connection's goroutine may close it before its Starting event is queued.
- Several callbacks of one kind on the server, and the per-event callbacks that only post session notices.
- `MarkChannelAsGalactic`, `MarkChannelAsLocal` and broker subscriptions of a channel.
- `Commit` when a channel or store is missing: the source takes its own lock again there; the runs let such a request fail as the later ones do.
- Mutation streams, `OnChange` notification order, store manager, monitor listeners.
- A client that opens the same store again, as after its own Reset: one snapshot per run.
- `putGalactic`, `removeGalactic` and `updateStore`: to the server store they are the Put and Remove of the runs.
- The bridge, plank, services, logging and REST: plumbing.
- Store versions as int64 and their passage through JSON numbers: they are unbounded here.
- Store.BusStore.Reset: leaves the streams to `StreamTable.Clear` and does not send the open request of a galactic store.
- StoreStreams.StreamTable.Subscribe: speaks of a call that runs without others in between; `ListedWhileHandled` covers the interleavings and Resets.
- StoreStreams.StreamTable.Unsubscribe: the same.
