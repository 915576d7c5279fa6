# Verification of the Solana dashboard's pipeline

A Dafny model of the pipeline behind the dashboard, from the transaction parser to the browser, with proofs of what each stage keeps. The modules, in the order in which an event travels:

- `FieldCodec`, `EventBytes`, `Wire`, `Utf8`, `EventRecords`: program events as bytes, their decoders and the reader they share, the format byte by byte, and the events by the names of their fields.
- `EventQueues`, `ParseView`, `ParseOrder`, `Walk`, `OneEvent`, `Decimals`, `EventId`: the walk over one transaction and what it covers, the queues of collected events, the order of what comes out, which instruction takes which event, and event ids.
- `Ingest`, `TopicFeed`: inserting an event once and publishing it when it is new, and what each topic gets.
- `HubModel`, `HubHistory`, `Hub`: the publish/subscribe hub, first as a state machine whose steps are its lock sections, with what it has done told from the steps, then as the objects of the program.
- `LogOrder`, `Handover`, `Delivery`, `Completion`, `Reconnect`, `HubHandover`, `TopicStream`, `ClientTopics`, `ClientHistory`: from the event log to one client: replay, buffering, flush, live events, overflow and reconnect, what exactly is sent and what is not, that an open subscription can always complete the stream, where a reconnect asks from, and the client's topics and cursors.
- `Arithmetic`, `Ring`, `SecondWindow`, `MinuteWindow`, `LongWindow`, `RecordFigures`: the rolling windows of the statistics against the trade history, and the figures of a record.
- `Upserts`, `ReadModel`, `Replay`, `WriteBatch`, `Projector`, `Runner`, `RunnerProtocol`, `CatchUp`, `TradeTables`, `EventRows`, `MarketRows`, `InterruptedReplay`: the event-sourced read model: conflict rules, projections, batches, the checkpointed loop, the process with failures at any point and its way to the end of the log, what the tables tell of each event and together, and replays that stop halfway.
- `Pagination`, `Candles`, `Resolutions`, `Amount`: keyset pages, incremental candles and the seconds they are of, decimal text.
- `Options`: optional values and results.

Code that changes things step by step is a class or a method with loops, proved against a function; protocols between goroutines or processes are state machines whose theorems speak about every run. Where a property a reader would expect does not hold, one lemma gives a case and another says exactly when it does:

- exactly-once delivery: `Delivery.SentTwice`, `Delivery.SentTwiceIff`
- delivered or connection closed: `Delivery.SilentAfterOverflow`, `Delivery.LostWhileHeldBack`, `Delivery.UndeliveredAndOpenIff`
- every stored event is published: `Ingest.LostAnswer`, `Ingest.PublishesTheLog`
- replaying the log changes nothing: `Runner.EarlyMigrationIsNotReplayable`, `Replay.ReplayUnchangedIff`
- a page walk returns every row: `Pagination.FractionsLoseARow`, `Pagination.WalkCompleteIff`
- long windows count every trade once: `LongWindow.MissedAndCountedTwice`, `LongWindow.CountedAsWantedIff`
- nothing stays subscribed without a user: `ClientTopics.LeftBehind`, `ClientTopics.DisconnectLeavesBehindIff`
- an invocation never costs the next one its event: `ParseOrder.OpenBuyLoses`, `ParseOrder.OpenCreateLoses`, `ParseOrder.ContestedIff`

Reading notes:

- In `Handover` the client's `base` is its initial cursor, raised when a page sets the cursor from a snapshot; a subscription without a position starts at what had been published when it was made. Every non-blocking send may fail at any time, so the theorems hold for every buffer size and every amount of other traffic; the runs of `Delivery` that show a promise broken are held to the real capacities, where a send fails only on a full channel.
- In the second ring a trade is in time when it is less than 300 seconds older than the latest one so far; the window theorems need `now` at or after the latest trade and a window that does not reach below second zero.
- `LongWindow` groups rows by the start of their minute. When `now` is on a full minute the merged figure counts a trade exactly at `now - W` and misses one exactly at `now - 300`; otherwise it misses the trades after `now - W` in its minute and counts twice those after `now - 300` in its minute.
- A market's `ended_at` is the one column of the read model that replay can change; every other conflict rule is associative and idempotent.
- Automatic induction is switched off for every lemma: each proof by induction is the one that is written.
- An entry that cannot be decoded or projected stops the projector for good; this is what `RunnerProtocol.NeverPastPoison` states. A pool of two mints other than SOL whose event names no mint is such an entry, although it is published to a token topic: `Ingest.TopicIsTrackedMintIff`.

## Model

| member | source | states |
|---|---|---|
| `Handover.NoGapOnEveryRun` | backend/internal/httpapi/ws.go:95-162 | in every run of insert, publish, subscribe, replay, flush, live, overflow, disconnect, restart and reconnect steps the client has received every event of its mint with id in (base, cursor], so resuming from the largest id seen is safe |
| `Handover.NoGapFromInitialCursor` | frontend/context/WebSocketContext.tsx:106-125 | with a positive initial cursor that afterwards only received messages move, the stream is complete from that initial cursor on |
| `Completion.QuietMeansComplete` | backend/internal/httpapi/ws.go:101-162 | whenever nothing is under way on an open subscription, the client has every event of its mint above its base |
| `Completion.CompletionIsReachable` | backend/internal/httpapi/ws.go:101-162 | and from every reachable state of an open subscription whose goroutine and replay have not given up, steps that go through lead there, with nothing added to the log |
| `Reconnect.CursorIsLargestKnown` | frontend/context/WebSocketContext.tsx:106-125 | in every run the client's cursor is the largest of the position it began with, the ids it has received and the positions the page has set |
| `Reconnect.ReplaySendsNothingReceived` | frontend/context/WebSocketContext.tsx:92-103 | after any run a reconnect asks from that largest position, and as long as the connection lasts its replay sends only ids above it, so none of those the client had received when it asked |
| `Delivery.TimesSentExactly` | backend/internal/httpapi/ws.go:134-159 | exactly which ids each of the two goroutines has sent, each once and ascending: replay those above the requested position up to its last; the topic goroutine those of the buffered stretch that replay has not, and of the live stretch all |
| `Delivery.SentTwiceIff` | backend/internal/httpapi/ws.go:137-159 | exactly-once fails exactly here: an id is sent twice if and only if replay has sent it and the topic goroutine handled it after the hand-over, whenever it was published; never more often |
| `Delivery.SentTwice` | backend/internal/httpapi/ws.go:148-159 | the case: a run within the channels' capacities in which one event was sent by replay and by the live path |
| `Delivery.UndeliveredIff` | backend/internal/httpapi/ws.go:100-160 | unless replay has given up, a published event above the subscription's start is neither sent nor waiting nor still to be replayed if and only if replay reads the log no more and the event is above the position it leads to and at or past the index the goroutine stopped at, or else the one the closed hub channel missed first |
| `Delivery.UndeliveredAndOpenIff` | backend/internal/httpapi/ws.go:100-160 | "delivered or connection closed" fails exactly here, in every phase of a subscription: the server has not begun to close, a message of whatever kind did not fit the hub channel, replay reads the log no more, and the event lies above the position and was published at or after that message, or at any time since the subscription if the goroutine saw the channel closed while it still held events back |
| `Delivery.SilentAfterOverflow` | backend/internal/httpapi/ws.go:148-151 | the case: 64 unconsumed events fill the hub channel, the next is refused, the goroutine drains the channel, sees it closed and returns; that event and a later one are never sent and the connection stays open |
| `Delivery.LostWhileHeldBack` | backend/internal/httpapi/ws.go:110-155 | the other case: the goroutine sees the closed channel before the result of its replay, returns and drops what it held back; all 64 events published before the refused message are lost and the connection stays open |
| `Delivery.SilenceLasts` | backend/internal/httpapi/ws.go:148-151 | such a subscription, its replay's result taken or not, sends nothing more as long as the connection lasts, whatever happens |
| `HubHandover.ChannelIsTheHubs` | backend/internal/realtime/hub.go:65-76 | with any amount of other traffic on the topic and any capacity: from the moment it is made and as long as the connection lasts, what the hub's own operations make of a new subscription holds exactly the events the hand-over has queued and is open exactly as long, and the hand-over runs as it does alone |
| `HubHandover.MoveShows` | backend/internal/realtime/hub.go:121-154 | move by move: a publish offers its message, of whatever kind, to an open subscription and cuts it off when it does not fit, the goroutine takes the head, and nothing else touches the channel |
| `HubHandover.DrainedAndQueued` | backend/internal/realtime/hub.go:129-153 | in every run what the topic goroutine has drained, whether or not it has returned, and what is queued are together the contiguous stretch of the log from the first event published to the subscription on, cut at the first event that did not get through |
| `Delivery.StepKeepsDelivery` | backend/internal/httpapi/ws.go:86-162 | the history of every subscription, the exact stretches its two goroutines have sent, is kept by every single step |
| `Handover.StepKeepsInv` | backend/internal/httpapi/ws.go:86-162 | the inductive invariant of the protocol is kept by every single step |
| `Handover.ForwardKeepsStream` | backend/internal/httpapi/ws.go:134-147 | putting the next id of the log, or one already passed, into the outgoing channel keeps the stream without gaps |
| `LogOrder.PageFollows` | backend/internal/store/service_event.go:103-128 | a page of the log after an id continues the log from that id without leaving one out, and a short page reaches the end |
| `LogOrder.FollowsExactly` | backend/internal/httpapi/ws.go:220-244 | a stream that follows the log holds exactly the ids in between, ascending, each once |
| `TopicStream.TopicLoop.constructor` | backend/internal/httpapi/ws.go:96-110 | a subscription waits for a replay exactly when a token topic was asked for from a positive position |
| `TopicStream.TopicLoop.OnReplayDone` | backend/internal/httpapi/ws.go:134-147 | the flush forwards the buffered events above the replayed position, in order, as far as they fit, and stops the goroutine exactly when they do not all fit |
| `TopicStream.TopicLoop.OnEvent` | backend/internal/httpapi/ws.go:148-160 | an event is held back during replay and forwarded, whatever its id, afterwards |
| `TopicStream.Outgoing.TryPut` | backend/internal/httpapi/ws.go:199-208 | a message is queued exactly when there is room |
| `TopicStream.SendBatch` | backend/internal/httpapi/ws.go:231-239 | a batch goes out as far as it fits, and the position ends at the last event, or at the one that did not fit |
| `TopicStream.ReplayTopic` | backend/internal/httpapi/ws.go:210-245 | for any batch size: everything of the log above the position is sent in order as far as it fits; success exactly when all of it fits; nothing happens for other topics |
| `TopicStream.AboveKeepsExactly` | backend/internal/httpapi/ws.go:137-141 | the cut keeps every id above it as often as it was buffered, and no other |
| `TopicStream.AboveKeepsOrder` | backend/internal/httpapi/ws.go:137-141 | the cut keeps ascending ids ascending |
| `TopicStream.FlushForwardsAll` | backend/internal/httpapi/ws.go:134-147 | the flush steps of the interleaved model, all going through, are exactly the flush of the goroutine |
| `ClientTopics.Provider.SubscribeTo` | frontend/context/WebSocketContext.tsx:221-252 | subscribing cancels a pending end, raises the cursor, counts the user and tells the server only for the first user |
| `ClientTopics.Provider.UnsubscribeFrom` | frontend/context/WebSocketContext.tsx:254-283 | the last user leaving starts the timer instead of ending the subscription |
| `ClientTopics.Provider.OnTimer` | frontend/context/WebSocketContext.tsx:262-274 | the timer ends the subscription, forgets the cursor and tells the server, unless there is a user again |
| `ClientTopics.Provider.OnOpen` | frontend/context/WebSocketContext.tsx:87-104 | a new connection subscribes every topic again, each from its cursor |
| `ClientTopics.Provider.OnMessage` | frontend/context/WebSocketContext.tsx:106-125 | a message moves the cursor of its token topic up, never down; `ClientHistory.StateIsHistory` says to what, in every run |
| `ClientTopics.Provider.SetTopicCursor` | frontend/context/WebSocketContext.tsx:286-293 | a page raises the cursor of a topic with a positive id, never lowers it |
| `ClientTopics.Provider.Disconnect` | frontend/context/WebSocketContext.tsx:167-191 | taking the provider down closes the connection and cancels every timer |
| `ClientTopics.ServerFollowsClient` | frontend/context/WebSocketContext.tsx:87-104 | in every run the server of an open connection listens to exactly the topics the client holds; with no timer pending and the provider never taken down, to exactly those with a user |
| `ClientTopics.DisconnectLeavesBehindIff` | frontend/context/WebSocketContext.tsx:167-191 | taking the provider down leaves a topic subscribed without user or timer exactly when it cancels the timer of a subscribed topic |
| `ClientTopics.LeftBehind` | frontend/context/WebSocketContext.tsx:167-191 | the case: a run after which the next connection subscribes to a topic that nobody uses and no timer will end |
| `ClientTopics.CursorNeverGoesBack` | frontend/context/WebSocketContext.tsx:115-119 | no step lowers a cursor; only the timer of a topic without a user forgets it |
| `ClientTopics.ResubscriptionsCarryCursors` | frontend/context/WebSocketContext.tsx:92-103 | the i-th command of a reconnect is the subscription of the i-th topic from its cursor of that moment |
| `ClientTopics.StepKeepsInv` | frontend/context/WebSocketContext.tsx:221-283 | counts stay positive, a topic with a user is subscribed and has no timer, and the server listens to the client's topics |
| `ClientHistory.StateIsHistory` | frontend/context/WebSocketContext.tsx:106-284 | told from the steps of a run alone: a topic has the users the steps leave it with, its cursor is the largest of the positions given for it and the ids received for its mint since it last ended, it is subscribed while it has not ended since somebody subscribed, and its timer runs from the last user leaving until somebody comes, it fires or the provider is taken down |
| `ClientHistory.ReconnectAsksFromTheLargest` | frontend/context/WebSocketContext.tsx:92-103 | a reconnect subscribes each held topic exactly once, from that largest position, so from no earlier than any id received for it |
| `ClientHistory.CommandsAre` | frontend/context/WebSocketContext.tsx:221-274 | on an open connection the first user of a topic subscribes it from its largest position, a timer that ends a topic unsubscribes it, and nothing else is sent |
| `Ingest.Service.HandleDecodedEvent` | backend/internal/ingest/service.go:39-80 | an event is stored unless its id is there, and only one whose insert answers that it is new is published, to the topic of its token and to the global one; which token that is, and what each topic gets in every run, is stated without the code's own choice in `TopicFeed.TopicsGetTheirEvents`; an unknown payload, one that does not encode and a failed insert are reported and publish nothing |
| `Ingest.PublishesTheLog` | backend/internal/ingest/service.go:58-77 | with ascending database ids the global topic gets the log in order, each id once, without exactly the new rows whose insert was reported as failed, so all of it if and only if there is none; every topic gets ascending ids, however often events are delivered again |
| `Ingest.LostAnswer` | backend/internal/ingest/service.go:61-79 | the case: an insert that takes effect while its answer is lost leaves an event in the log that no redelivery ever publishes |
| `Ingest.RedeliveryIsSilent` | backend/internal/ingest/service.go:58-77 | delivering a stored event again stores and publishes nothing, published or not |
| `Ingest.TopicIsTrackedMintIff` | backend/internal/ingest/service.go:82-115 | a pool event is published under the mint it is projected to exactly when it names its mint, trades against SOL, or names no mint; in every other case it cannot be projected |
| `TopicFeed.TopicsGetTheirEvents` | backend/internal/ingest/service.go:58-115 | in every run of deliveries, whatever fails and however often an event comes, a token's topic gets exactly the ids of the new, stored and answered events about the token, in order: about the token the event names, else a curve event's own mint, else the base mint of the pool unless that is not named or is SOL beside a named quote mint; the global topic gets those of all new events, and the log those of all stored ones |
| `TopicFeed.OtherTopicsAreSilent` | backend/internal/ingest/service.go:71-77 | no topic besides those gets anything |
| `TopicFeed.CurveTopicIsRowMintIff` | backend/internal/ingest/service.go:82-97 | the rows of a curve event are all of its own mint, and its topic is that of the same mint if and only if the event names no other |
| `TopicFeed.PoolTopicIsRowMint` | backend/internal/ingest/service.go:89-115 | the rows of a pool event that can be projected are all of the mint whose topic it is published to |
| `HubModel.ChannelsSafeOnEveryRun` | backend/internal/realtime/hub.go:24-52 | under every interleaving of the lock sections no send hits a closed channel, no channel is closed twice, at most one overflow signal is sent, registered subscriptions are open, no topic maps to an empty set |
| `HubModel.StepKeepsInv` | backend/internal/realtime/hub.go:65-96 | the invariant behind it is kept by every atomic section of Subscribe, Publish and Unsubscribe |
| `HubModel.DeliveryInOrder` | backend/internal/realtime/hub.go:121-154 | with any number of publishers at once each subscriber has each publisher's messages in order without a gap from its subscription on; a registered one that is owed nothing has them all |
| `HubModel.SinglePublisherSegment` | backend/internal/realtime/hub.go:129-137 | with one publisher on the topic, drained plus queued is a contiguous segment of the publish sequence that starts at the subscription |
| `HubModel.CutAtFirstThatDidNotFit` | backend/internal/realtime/hub.go:143-153 | an overflow cuts the publisher's stream exactly before the message that did not fit |
| `HubModel.NothingAfterTheCut` | backend/internal/realtime/hub.go:24-38 | after its Events channel is closed a subscription receives nothing more in any run |
| `HubHistory.StateIsHistory` | backend/internal/realtime/hub.go:24-154 | told from the steps of a run alone, under every interleaving: the published messages are those of the Publish calls in order; a subscription has the topic and buffer it was asked for and starts after what had been published until then; it is registered until a goroutine takes it out or a message does not fit; Overflow is closed exactly when the goroutine that took it out has gone on to close it, and Events exactly then or when a message did not fit |
| `HubHistory.UnsubscribedIsClosed` | backend/internal/realtime/hub.go:79-96 | once every Unsubscribe call has returned, whoever was unsubscribed is out of the registry and has both channels closed |
| `Hub.Subscription.TryPush` | backend/internal/realtime/hub.go:131-135 | a non-blocking send puts the event last when it fits and leaves the channel alone otherwise |
| `Hub.Subscription.MarkOverflowed` | backend/internal/realtime/hub.go:24-38 | the first mark on an open subscription signals once and closes Events; any other changes nothing |
| `Hub.Subscription.Close` | backend/internal/realtime/hub.go:40-52 | the first close closes Overflow, and Events unless an overflow did; any other changes nothing |
| `Hub.Hub.Subscribe` | backend/internal/realtime/hub.go:65-76 | the new subscription joins its topic and nothing else changes |
| `Hub.Hub.Unsubscribe` | backend/internal/realtime/hub.go:79-96 | the subscription is taken out of every topic, emptied topics go, and it is closed |
| `Hub.Hub.Publish` | backend/internal/realtime/hub.go:121-154 | every subscriber of the topic is offered the event; exactly those it does not fit are cut off and removed; nobody else is touched |
| `Hub.OfferedOrCut` | backend/internal/realtime/hub.go:129-153 | offered an event, an open subscription either has it last and stays open, or was full, is told and closed with its queue unchanged |
| `SecondWindow.TokenWindowState.AppendSecondBucket` | backend/internal/broadcaster/stats.go:442-474 | the ring becomes the ring after one more trade; last price, times and log id follow |
| `SecondWindow.TokenWindowState.SummarizeSecondBuckets` | backend/internal/broadcaster/stats.go:476-498 | the loop computes the summary of the ring over (now - back, now] |
| `SecondWindow.WindowIsFilterAndSum` | backend/internal/broadcaster/stats.go:442-498 | with no trade 300 or more seconds late and positive prices: counts and volumes are the sums over the trades with now - W < ts <= now, and the anchor is the price of the first-arrived trade of the earliest such second |
| `SecondWindow.WindowMatchesHistory` | backend/internal/broadcaster/stats.go:476-498 | the same over all prices: the seconds whose last price is not zero count |
| `Ring.BucketsAreSummaries` | backend/internal/broadcaster/stats.go:453-473 | every bucket is the exact summary of the slot it was last used for, or untouched |
| `Ring.RecentSlot` | backend/internal/broadcaster/stats.go:476-490 | looking up any of the last n slots finds exactly its trades, or a bucket that does not pass for it |
| `Ring.IndexIsMod` | backend/internal/broadcaster/stats.go:450-453 | the corrected remainder is the index modulo the ring, for negative times too |
| `Ring.SlotsAreTrades` | backend/internal/broadcaster/stats.go:476-490 | with positive prices, summing slot by slot is summing trade by trade |
| `MinuteWindow.LegacyWindow.AppendLegacyTrade` | backend/internal/broadcaster/stats.go:940-972 | the minute ring becomes the ring after one more trade |
| `MinuteWindow.LegacyWindow.SummarizeLegacyMinuteBuckets` | backend/internal/broadcaster/stats.go:1015-1063 | both loops compute the totals and the anchor of the last minutes of the ring |
| `MinuteWindow.WindowIsFilterAndSum` | backend/internal/broadcaster/stats.go:1015-1042 | with trades in time order, none later than the current minute, and positive prices: the totals are the sums over the trades of the last m minutes |
| `MinuteWindow.WindowAnchor` | backend/internal/broadcaster/stats.go:1038-1063 | the anchor is the close of the latest traded minute before the window inside the day, else the open of the earliest inside the window, else the first price, else the last |
| `MinuteWindow.LatestMinuteIs` | backend/internal/broadcaster/stats.go:1044-1055 | the minute meant is the latest one with a positive close |
| `MinuteWindow.WindowMatchesHistory` | backend/internal/broadcaster/stats.go:1015-1063 | the same over all prices, for any history in which no trade is a day late |
| `LongWindow.BuildCurrentRecord` | backend/internal/broadcaster/stats.go:515-601 | a record exists exactly for a positive last price and time, and its five figures are the two short summaries and the three merges; what they count is `RecordFigures.RecordTells` |
| `LongWindow.MergedParts` | backend/internal/broadcaster/stats.go:500-513 | for any prices a merged figure sums the stored trades of the long part and those heard in the seconds of the last five minutes whose last price is not zero; with positive prices, all heard in them |
| `LongWindow.CountedAsWantedIff` | backend/internal/store/read_model.go:1051-1069 | a trade is counted as often as it should be exactly when it is in neither failing set, both inside the two minutes that contain now - W and now - 300 |
| `LongWindow.MissedAndCountedTwice` | backend/internal/store/read_model.go:1051-1069 | the cases: a second of the last hour that is counted in neither part, and one that is counted in both |
| `LongWindow.MergedAccount` | backend/internal/broadcaster/stats.go:500-555 | for every history and any prices, shown plus hidden plus missed equals wanted plus extra; so the figure is right exactly when hidden and missed trades sum to the same as the extra ones, and with positive prices nothing is hidden |
| `LongWindow.ExactAwayFromTheEdges` | backend/internal/broadcaster/stats.go:500-555 | with no trade in the two boundary minutes the merged figure is exactly that of (now - W, now] if and only if no trade is hidden, as with positive prices |
| `LongWindow.MergedAnchor` | backend/internal/broadcaster/stats.go:500-513 | with trades in time order the merged anchor is the price of the first trade of the long part, else the first price that is not zero among the trades the tail shows; with positive prices, that of the first trade counted |
| `LongWindow.MinutesAreTrades` | backend/internal/store/read_model.go:1024-1081 | summing the one-minute rows the query picks is summing over the trades of those minutes |
| `RecordFigures.RecordTells` | backend/internal/broadcaster/stats.go:515-601 | the transactions, buys, sells and volumes of the five figures count and sum trades, for any prices: for one and five minutes those heard in seconds whose last price is not zero; for one, four and 24 hours those of the last five minutes and the stored ones of the long part |
| `RecordFigures.RecordAnchors` | backend/internal/broadcaster/stats.go:500-555 | with trades in time order a short figure starts from the first price that is not zero among the trades it shows, a long one from the first price of its long part, or else as the five-minute one |
| `ReadModel.ReadModelStore.WriteToken` | backend/internal/store/read_model.go:1638-1666 | the statement takes effect as the token upsert, or fails and leaves the tables alone |
| `ReadModel.ReadModelStore.WriteMarket` | backend/internal/store/read_model.go:1695-1727 | the same for the market upsert |
| `ReadModel.ReadModelStore.CloseTokenMarket` | backend/internal/store/read_model.go:1729-1737 | the same for closing a market, which needs its row |
| `ReadModel.ReadModelStore.WriteTrade` | backend/internal/store/read_model.go:1739-1765 | the same for a trade, inserted once per key |
| `ReadModel.TokenColumns` | backend/internal/store/read_model.go:35-46 | of all rows offered to a token each column is the last value given, the first one given (creating event), the least (first seen) or the last offered (stage) |
| `ReadModel.MetadataColumns` | backend/internal/store/read_model.go:68-83 | every metadata column is the last value given |
| `ReadModel.MarketColumns` | backend/internal/store/read_model.go:105-118 | every market column but the ending is the last value given, the last offered, the least start, or the first creating event |
| `ReadModel.UnitsAreToldApart` | backend/internal/store/read_model.go:1620-1636 | an instant given in seconds, milli-, micro- or nanoseconds means the same exactly from the second 1,000,000,000 on |
| `Upserts.FoldTwice` | backend/internal/store/read_model.go:35-46 | upserting the same rows again changes nothing, for every associative and idempotent conflict rule |
| `Upserts.InsertTwice` | backend/internal/store/read_model.go:152-152 | inserting the same keyed rows again changes nothing |
| `Upserts.InsertsKeepTheTable` | backend/internal/store/read_model.go:180-180 | inserts keep the old rows in place, keep keys distinct and invent no row |
| `Upserts.FirstOfAKeyWins` | backend/internal/store/read_model.go:152-152 | of several rows with one key the first offered is the one in the table |
| `Replay.ReplayUnchangedIff` | backend/internal/store/read_model.go:121-127 | replaying statements over a database that has them changes nothing if and only if no market without a row before them is ended only ahead of its first upsert |
| `Replay.ReplaySuffix` | backend/internal/projector/runner.go:71-84 | replaying any suffix of a log whose closes all come after their market's first upsert leaves the whole state as it was |
| `Replay.EndingTwice` | backend/internal/store/read_model.go:117-127 | the exact effect of replay on one market's ending |
| `Replay.AllButEndingsTwice` | backend/internal/store/read_model.go:35-118 | whatever the statements, replay can change nothing but endings |
| `Replay.BatchingKeepsMeaning` | backend/internal/projector/batch_writer.go:73-102 | state statements first, then trades, then activities gives the same tables, row for row, as the order of the events |
| `WriteBatch.Batch.Flush` | backend/internal/projector/batch_writer.go:73-102 | a flush that succeeds has the effect of writing every queued statement directly in the order of the calls; without a fault it succeeds |
| `WriteBatch.Batch.WriteState` | backend/internal/projector/batch_writer.go:38-61 | a statement on a row is queued after those before it |
| `Projector.Project` | backend/internal/projector/projector.go:47-80 | the handlers check first and then write statement by statement: an event that can be projected writes exactly its statements in order, one that cannot writes none, and one of no known kind writes none without an error; what the statements record is `EventRows.EventsAreRecorded` and the three lemmas of `MarketRows`, and what is refused `EventRows.RefusedIff` |
| `Projector.CreationIsConsistent` | backend/internal/projector/projector.go:82-153 | over any database a creation gives the token its row, its metadata and the market it names; they agree on curve, active market and quote, and on creator, program and decimals where the event gives them; earlier rows keep their first event, earliest time, ending and what the event leaves open; without earlier rows all agree |
| `Projector.MigrationHandsOver` | backend/internal/projector/projector.go:197-253 | a migration ends the curve market, if it has a row, when the pool market starts, and makes the pool the active market |
| `Projector.ProjectionKeepsActiveMarkets` | backend/internal/projector/projector.go:82-325 | at every event boundary each token's active market id names an existing market row |
| `MarketRows.CreationTells` | backend/internal/projector/projector.go:82-137 | over any database, column by column, a creation leaves token, metadata and the market of the curve as the event tells, keeping what it leaves open |
| `MarketRows.MigrationTells` | backend/internal/projector/projector.go:197-235 | the same for the token and the pool market of a migration: the pool trades the token against SOL, and the metadata stay |
| `MarketRows.PoolCreationTells` | backend/internal/projector/projector.go:255-300 | the same for a new pool of two mints: the metadata have the decimals of the very mint that is the token and of the other one, whichever side it is on, and the market keeps base and quote as the pool has them |
| `TradeTables.TablesAreOfferedRows` | backend/internal/store/read_model.go:152-180 | for a log of distinct event ids the trade and activity tables are exactly the rows of its events, in the order of the log |
| `TradeTables.TradesHaveActivities` | backend/internal/projector/projector.go:155-195 | in every committed state of every run each trade row has exactly one activity with its key, and that tells the same mint, market, user, side and amounts; each activity of type "trade" belongs to exactly one trade row, unless a deposit or withdrawal goes by that name |
| `TradeTables.SwapsAreRecorded` | backend/internal/projector/projector.go:421-505 | in every committed state each swap of two mints that the checkpoint has passed has exactly one trade row, a buy exactly when the token flowed out of the pool to the user, with the amounts that flowed |
| `TradeTables.CurveTradesAreRecorded` | backend/internal/projector/projector.go:155-172 | and each trade on the curve has the row the same trade in a pool of the token against SOL would have, but for the market |
| `TradeTables.MirroringKeepsTables` | backend/internal/projector/projector.go:255-505 | whichever pools of a log have base and quote exchanged, the tokens, metadata, trades and activities it is projected to stay the same |
| `EventRows.EventsAreRecorded` | backend/internal/projector/projector.go:139-419 | in every committed state each passed event of a known kind has exactly one activity: its kind, market, user and token, and for an event between two mints the amount paid in, taken out or exchanged of that very mint and of the other one, whichever side of the pool it is on; a trade has exactly one trade row that tells the same, a buy exactly when the token flows to the user, and any other event none |
| `EventRows.RefusedIff` | backend/internal/projector/projector.go:421-505 | an event is refused exactly because its pool's token is not known, the side of its swap is not, or an amount that flows is missing, the token's before the other; curve events never are |
| `EventRows.TokenUnknownIff` | backend/internal/projector/projector.go:507-520 | the token of a pool is not known exactly when the event names none and neither side is SOL with the other named |
| `EventRows.ForeignMintIff` | backend/internal/projector/projector.go:522-560 | a deposit or withdrawal has no quote mint exactly when the event names a mint its pool does not trade; its row then has the amounts of base and quote although it is of that mint |
| `Runner.ProjectionRunner.ReplayBatch` | backend/internal/projector/runner.go:86-145 | a batch is in the tables whole with the checkpoint at its last entry, or neither has moved; without a database fault it fails exactly on an entry that cannot be projected |
| `Runner.ProjectionRunner.RunLoop` | backend/internal/projector/runner.go:45-69 | the loop brings exactly the entries it moves the checkpoint over into the tables, so it keeps them the projection of the log up to the checkpoint; without a fault or an unprojectable entry enough rounds end at the end of the log |
| `Runner.ProjectionRunner.ReplayFromStart` | backend/internal/projector/runner.go:71-84 | wherever a replay from the start ends, the entries up to the id it returns have been run over the tables and that id is saved; success means the whole log, and without a database fault only an entry that cannot be projected stops it |
| `Runner.PageIsNext` | backend/internal/store/service_event.go:40-64 | a page moves the position of the log to its own end |
| `Runner.ReplayedSuffixIff` | backend/internal/projector/runner.go:71-84 | the exact condition for replay, for any cut of the log |
| `Runner.EarlyMigrationIsNotReplayable` | backend/internal/projector/projector.go:197-253 | the condition is needed: a migration in the log ahead of the creation of its token ends no market at first and, replayed, ends the curve's |
| `InterruptedReplay.InStepInBetweenIff` | backend/internal/projector/runner.go:71-84 | while a replay from the start has run the first part of the log over the tables of the whole, the checkpoint describes the tables if and only if the rest of the log records nothing and no market of the first part is ended only too early |
| `InterruptedReplay.RestartCompletesIff` | backend/internal/projector/runner.go:71-84 | carrying on with the rest leads back to the tables of the whole log if and only if no market is ended only ahead of its first upsert |
| `InterruptedReplay.ReplayThenLoopIff` | backend/internal/projector/runner.go:45-84 | so a stopped `ReplayFromStart` followed by a `RunLoop` to the end restores the tables under exactly that condition |
| `RunnerProtocol.CommittedIsProjection` | backend/internal/projector/runner.go:86-145 | in every run, with batches of any size, the log growing, and a failure or lost commit answer at any point, every committed database is the projection of exactly the entries up to the saved checkpoint |
| `RunnerProtocol.RunsAgree` | backend/internal/projector/runner.go:45-69 | two runs over one log at one checkpoint have the same tables, however their batches were cut |
| `RunnerProtocol.NeverPastPoison` | backend/internal/projector/runner.go:112-133 | the checkpoint never passes an entry that cannot be projected |
| `RunnerProtocol.ActiveMarketsOnEveryRun` | backend/internal/projector/projector.go:82-325 | in every committed state of every run each active market id names an existing row |
| `RunnerProtocol.UncommittedDangles` | backend/internal/projector/projector.go:91-137 | inside an open transaction it need not: a run that has written the first statement of a creation |
| `RunnerProtocol.CheckpointAscends` | backend/internal/store/service_event.go:211-217 | no step moves the checkpoint back |
| `RunnerProtocol.StepKeepsInv` | backend/internal/projector/runner.go:86-145 | the invariant is kept by every statement, commit, failure and append |
| `CatchUp.CatchUpIsReachable` | backend/internal/projector/runner.go:45-145 | from every reachable state over a log that can be projected, restarting and working undisturbed, with batches of any size, commits the projection of the whole log |
| `CatchUp.PassPage` | backend/internal/projector/runner.go:86-145 | a waiting process can commit the page that follows its checkpoint, with the checkpoint at its last entry |
| `EventQueues.EventQueue.PushUnique` | parser/src/unified_parser.rs:84-91 | an event is queued last unless an equal one was seen before |
| `EventQueues.EventQueue.RemoveFirstMatch` | parser/src/unified_parser.rs:93-103 | the first pending event that matches is taken, the others keep their order; nothing happens when none matches |
| `EventQueues.TakeConserves` | parser/src/unified_parser.rs:93-103 | taking moves one event from pending to taken and keeps every distinct event accounted for |
| `ParseView.Parser.ParseView` | parser/src/unified_parser.rs:120-155 | from the raw log lines and instructions, the walk with its queues, group map and leftover groups executes the schedule of the decoded transaction |
| `ParseView.CarriedEventsAreFound` | parser/src/unified_parser.rs:157-169 | a log line that carries an event yields it; so does an instruction of ours that carries it after eight other bytes, and it yields nothing else exactly when the whole is no event as well |
| `ParseView.Parser.ScanInnerGroup` | parser/src/unified_parser.rs:196-216 | a group is scanned for events in order and yields its invocations in order |
| `ParseView.Parser.ProcessInvocation` | parser/src/unified_parser.rs:264-371 | an invocation takes the first pending event of its family that matches it; that the events that match are those whose fields repeat its arguments is `OneEvent.TakesWhatBelongs` |
| `ParseView.Parser.DrainGroups` | parser/src/unified_parser.rs:146-152 | the groups no outer instruction claimed are processed in ascending order of their index |
| `OneEvent.TakesWhatBelongs` | parser/src/unified_parser.rs:279-371 | for every form of instruction and every record of every kind, by the names of the fields: the instruction can take the event exactly when the fields repeat its accounts and arguments, the name of a trade or buy included, an argument left open fitting any |
| `OneEvent.LoggedEventIsTakenIff` | parser/src/pumpfun/trade.rs:31-51 | a raw transaction that logs an encoded record and has one instruction, of whatever form and arguments, yields exactly the entry of the two when they belong together, and nothing otherwise |
| `OneEvent.InnerEventIsTakenIff` | parser/src/unified_parser.rs:120-155 | the same when the record is carried by an inner instruction of that outer one: its group is searched first |
| `OneEvent.UnclaimedInstructionTakesIff` | parser/src/unified_parser.rs:146-152 | the same when the instruction stands in a group that no outer instruction claims, at any index |
| `OneEvent.WholeEventIsFound` | parser/src/unified_parser.rs:218-262 | an instruction of ours that is an encoded record by itself yields it first, and one of another program yields no event and no invocation |
| `Walk.LogsAreCollectedInOrder` | parser/src/unified_parser.rs:157-169 | after the logs each family's queue holds the events of its kinds, each once, in the order of the lines that told them first |
| `Walk.WalkCoversAll` | parser/src/unified_parser.rs:120-155 | then the walk visits every instruction, outer or inner, claimed or not, once and in order, collects every event the groups carry, and does nothing else |
| `Walk.LastGroupStays` | parser/src/unified_parser.rs:120-130 | of two groups with one outer index the later stays |
| `Walk.GroupsCame` | parser/src/unified_parser.rs:120-130 | and every group the walk uses is one that came |
| `ParseOrder.ParsedInOrder` | parser/src/unified_parser.rs:120-155 | parsed events come out strictly increasing in (outer index, outer before inner, inner index), leftover groups included |
| `ParseOrder.EventsAreConserved` | parser/src/unified_parser.rs:83-103 | at every moment the distinct events collected in a family are those pending and those taken, each once |
| `ParseOrder.RecollectingAddsNothing` | parser/src/unified_parser.rs:84-87 | collecting a consumed event again changes nothing |
| `ParseOrder.ViewIsFifo` | parser/src/unified_parser.rs:264-371 | first in, first out for every form of instruction: what is parsed for an uncontested one has the first distinct events that match it, in the order of collection, and the others are pending |
| `ParseOrder.UnrivalledHasNoRival` | parser/src/pumpfun/trade.rs:31-51 | trades, migrations, sales, new pools, deposits and withdrawals are uncontested in every transaction |
| `ParseOrder.DefiniteAreNoRivals` | parser/src/unified_parser.rs:264-371 | so are all others whose optional arguments are given throughout |
| `ParseOrder.ViewIsMaximal` | parser/src/unified_parser.rs:279-296 | when all events of its family come from the logs, the j-th invocation of an uncontested instruction gets the j-th distinct event that matches it, and there are as many entries as invocations or events, whichever is less |
| `ParseOrder.ContestedIff` | parser/src/unified_parser.rs:93-103 | whatever was parsed and collected before, of any two invocations of one family, of whatever forms, the first costs an entry that the opposite order would have yielded exactly when the first pending event that matches it is the only one for the second and not the only one for itself |
| `ParseOrder.OpenBuyLoses` | parser/src/unified_parser.rs:264-371 | the case: a transaction as it comes, with two log lines that decode to encoded buys and two buy instructions, the first of which leaves the volume flag open, yields one entry, and two with the instructions in the other order |
| `ParseOrder.OpenBuyHappens` | parser/src/pumpamm/events.rs:61-113 | such a transaction can be written down for every pool, user, amounts and other fields that fit the layout |
| `ParseOrder.OpenCreateLoses` | parser/src/unified_parser.rs:264-371 | the same with a creation of the newer form, its optional accounts missing, ahead of a plain one |
| `ParseOrder.OpenCreateHappens` | parser/src/pumpfun/events.rs:58-94 | and such a transaction can be written down as well |
| `EventId.IdIsInjective` | parser/src/service_event/model.rs:86-117 | the id is injective in protocol, type, signature and path for signatures without a colon |
| `EventId.IdsAreDistinct` | parser/src/service_event/model.rs:86-117 | no two parsed events of a transaction get the same id |
| `EventId.IdReads` | parser/src/service_event/model.rs:86-117 | split at its colons the id is the chain, the protocol, the type, the signature, the place, the outer index and, for an inner instruction, the inner index |
| `EventBytes.ByteReader.ReadBytes` | parser/src/pumpamm/events.rs:23-27 | the next bytes are returned and passed when there are enough, and nothing moves otherwise |
| `EventBytes.ByteReader.Next` | parser/src/pumpfun/events.rs:18-56 | one field is read from the offset on |
| `EventBytes.ParseEventBytes` | parser/src/pumpamm/events.rs:61-113 | the decoder of a kind reads its fields in order and, for the AMM, insists on the end |
| `EventBytes.EventRoundTrip` | parser/src/pumpfun/events.rs:58-94 | decoding inverts the field-by-field encoding, for every schema and every value |
| `EventBytes.CollectsWhatWasEncoded` | parser/src/unified_parser.rs:373-432 | every encoded event of every kind is collected as exactly that event, under either name where a kind has two |
| `EventBytes.DiscriminatorsDiffer` | parser/src/unified_parser.rs:373-432 | no eight bytes name two kinds |
| `EventBytes.Extensions` | parser/src/pumpamm/events.rs:108-113 | on every extension of an accepted input the AMM decoders refuse and the curve decoders return the same event |
| `EventBytes.Truncations` | parser/src/pumpamm/events.rs:23-27 | cut short of the bytes it needs an accepted input is refused; cut later it gives the same event |
| `EventBytes.RewritesIff` | parser/src/pumpamm/events.rs:39-41 | an input an AMM decoder accepts is the encoding of its event exactly when its flag bytes are zero or one |
| `EventRecords.LayoutIsDecoders` | parser/src/pumpamm/events.rs:61-258 | each of the eight decoders reads the fields of its kind by name, in their order and with their widths |
| `EventRecords.DecodersAreNamed` | parser/src/unified_parser.rs:373-432 | each goes by the eight bytes of its kind, two for a creation, and exactly those of the pool program insist on the end |
| `Wire.ReadsExactly` | parser/src/pumpfun/events.rs:12-56 | a field is read exactly where its bytes stand: little-endian numbers, two's complement, a flag set by any byte but zero, 32 bytes of a key, a text after its length in four bytes |
| `Wire.WritesWhatStands` | parser/src/pumpfun/events.rs:12-56 | and the encoding of a value stands for it |
| `Utf8.TextsAreEncodings` | parser/src/pumpfun/events.rs:51-55 | a text is accepted if and only if its bytes encode a sequence of Unicode scalar values |
| `FieldCodec.AllRoundTrip` | parser/src/pumpamm/events.rs:61-105 | field by field round trips make a whole record round trip |
| `Pagination.ListActivityEventsPage` | backend/internal/store/read_model.go:1971-2021 | the page is the next rows under the cursor, with the extra row fetched to see whether there is more |
| `Pagination.WalkCompleteIff` | backend/internal/store/read_model.go:561-589 | following the next cursor returns every row once, newest first, for every page size, if and only if the rounded keys descend with the rows |
| `Pagination.KeysDescendIff` | backend/internal/store/read_model.go:578-589 | they do exactly when within one rounded second the rows descend by slot and insertion |
| `Pagination.WholeSecondsWalk` | backend/internal/store/read_model.go:561-589 | with event times in whole seconds every walk is complete and ends |
| `Pagination.FractionsLoseARow` | backend/internal/store/read_model.go:578-584 | with fractions of seconds a row can be lost: two events whose times were given in milliseconds |
| `Pagination.GrowthAboveIsHarmless` | backend/internal/store/read_model.go:561-589 | rows inserted above the cursor between pages neither repeat nor drop any later row: the walk returns what it would have returned on the table at its start |
| `Pagination.StartTableIsReturned` | backend/internal/store/read_model.go:561-589 | so with descending keys it returns exactly the table at its start |
| `Pagination.GrowthLosesNothing` | backend/internal/store/read_model.go:561-589 | and wherever rows are inserted, a walk that finishes returns every row of the table at its start, and no row twice |
| `Pagination.ClampLimit` | backend/internal/query/token.go:921-926 | the page size of a request is the one it names exactly when that is positive, and never zero |
| `Pagination.EpochIsNearest` | backend/internal/store/read_model.go:561-589 | the cursor's time is the nearest whole second, and of two as near the one farther from zero |
| `Candles.ApplyTradePatchToCandles` | frontend/utils/tokenRealtime.ts:597-655 | one patch updates, appends or asks for a reload; an unknown resolution asks for a reload; which seconds a candle is of is `Resolutions.ResolutionDraws` |
| `Candles.FoldIsBatch` | frontend/utils/tokenRealtime.ts:597-655 | folding time-ordered patches gives one candle per bucket, ascending, each the batch candle of its bucket |
| `Candles.AnyOrder` | frontend/utils/tokenRealtime.ts:627-629 | in any order of arrival the candles are the batch candles of the patches that were not late, and a reload is asked for exactly when one was |
| `Candles.OpensAtPreviousClose` | frontend/utils/tokenRealtime.ts:643-652 | the first candle opens at the first price and every other where the one before it closed |
| `Candles.Extremes` | frontend/utils/tokenRealtime.ts:631-640 | high and low are the extremes of the opening price and the prices of the bucket |
| `Candles.VolumeIsKept` | frontend/utils/tokenRealtime.ts:631-652 | the total volume is the sum of the patches |
| `Candles.BatchIsAligned` | frontend/utils/tokenRealtime.ts:607-607 | candles start on multiples of the bucket size |
| `Candles.TimeOrderIsBucketOrder` | frontend/utils/tokenRealtime.ts:607-607 | patches in the order of their times are in the order of their buckets |
| `Resolutions.BucketContains` | frontend/utils/tokenRealtime.ts:607-607 | a second lies in its bucket: from its start on and before its end |
| `Resolutions.ResolutionDraws` | frontend/utils/tokenRealtime.ts:35-42 | at each of the six resolutions, 60 seconds to a day, patches in time order draw ascending aligned candles, one for every patch, each that of exactly the patches with time <= ts < time + size: its opening, extremes, close and volume |
| `Resolutions.AnyOrderDraws` | frontend/utils/tokenRealtime.ts:597-655 | in any order of arrival they draw the candles of the patches that do not lie before the candle of the last one kept |
| `Resolutions.OtherResolutionsDrawNothing` | frontend/utils/tokenRealtime.ts:602-605 | any other resolution draws nothing and asks for a reload every time |
| `Amount.FormatIsExact` | backend/internal/query/token.go:821-856 | the text reads back as exactly the amount, for every integer and every positive scale |
| `Amount.FormatIsInjective` | backend/internal/query/token.go:821-856 | two amounts never share a text |
| `Amount.TextIs` | backend/internal/query/token.go:839-853 | the text is a minus for a negative amount and then the canonical parts; the fallback for an empty text is never used |
| `Amount.PartsAreCanonical` | backend/internal/query/token.go:839-850 | digits only, no trailing zero after the point, no redundant leading zero |
| `Amount.FormatAmountIs` | backend/internal/query/token.go:821-833 | a raw amount is formatted when there is a positive scale and it is a number, and returned as it is otherwise |
| `Amount.ReadsExactly` | backend/internal/query/token.go:829-833 | a raw amount is read as a number exactly from digits with at most one sign before them |

## Left out

- Log ids are taken to become visible, and to be published, in ascending order: one ingest loop. `Ingest.PublishesTheLog` proves the publishing order for one loop; a second loop, or the internal HTTP entry used at the same time, is outside the model.
- Events of the hand-over carry `refs.mint`, and a connection has one goroutine per topic at a time; a topic given up and taken again on one connection is modelled as a new subscription.
- The outgoing channel of a connection and the network behind it are one queue; the message that is being written when the connection drops counts as lost.
- A hub channel has a buffer; a channel without one, which needs a waiting receiver, is not modelled.
- Delivery.SentTwiceIff: counts for one subscription; across reconnects the client drops no duplicates by itself and neither does the model.
- ClientTopics.CursorNeverGoesBack: speaks of one provider with one socket at a time; a close event of an old socket that arrives after a new one was opened is not modelled.
- Window seeding and sweeping read a table that is projected asynchronously, so live trades can already be in the seed; agreement with the history is claimed only for rings filled by trades alone.
- LongWindow.MergedAccount: takes the table and the ring to have the same trades; `LongWindow.MergedParts` keeps them apart. The scaling of raw amounts by decimals, and rows without a token amount, which the aggregate skips, are not modelled.
- Handover.NoGapOnEveryRun: takes every row of the log to be published in the end, or the process to restart; a new row whose insert is reported as failed is published by nobody, and `Ingest.PublishesTheLog` says exactly when that happens.
- Amounts, prices and volumes are exact numbers; floating-point rounding is not modelled.
- Whether a trade is a buy is taken from the event as it is given to the windows.
- Statements are atomic and either take effect or fail; which rows the database locks, its isolation level, and conversions of amount text to numbers are not modelled.
- Times in tables are exact fractions of seconds; the database's rounding to microseconds is not modelled. The columns `updated_at`, `image_uri` and `insert_seq` are not columns of the model; insertion order is the order of the rows.
- Runner.ProjectionRunner.ReplayFromStart: saves smaller checkpoints over a state that is ahead of them, so the checkpoint invariant is claimed for the loop that starts at the checkpoint; when it holds in between, and when a stopped replay followed by the loop restores the tables, is given exactly in `InterruptedReplay`.
- One projector process per name is assumed; two at once are not modelled.
- EventRows.EventsAreRecorded: states the two amounts for events between two different mints that name none or one of them; a deposit or withdrawal that names another mint is `EventRows.ForeignMintIff`, and of a pool of one mint with itself only the other columns are stated.
- MarketRows.MigrationTells: takes the pool and the curve to be two accounts.
- Resolutions.ResolutionDraws: starts from an empty chart; candles a chart was loaded with are not part of the run.
- Decoding a logged payload from JSON is a field of the log entry: it succeeds with a payload or it does not.
- A failed batch reports how far it got; only its effect on the tables and the checkpoint is stated.
- Decoding base64 and parsing instruction bytes with their accounts are two functions the walk is given; parsing instructions and base58 are not modelled, and public keys are their 32 bytes.
- ParseOrder.ViewIsMaximal: speaks of uncontested instructions; of contested ones `ParseOrder.ContestedIff` gives the exact outcome for two in a row, after any others, and for the number of entries of longer contested runs conservation and first match are stated.
- Copying payload fields into service events, the Protobuf form, and the parser's own token tracker are not modelled.
- The metadata image fetcher and the tracker write to rows of the same tables from outside the log.
- Pagination.WalkCompleteIff: takes the rows of one mint in the order of the query as the table; `Pagination.GrowthLosesNothing` speaks of the rows of the table at the start, and whether a row that appears during a walk is returned depends on where it appears.
- NATS, Redis, gRPC, HTTP and WebSocket framing, metrics, configuration, the container monitor, pages, charts and themes, and the older stores that nothing calls.
