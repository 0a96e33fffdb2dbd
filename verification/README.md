# Verified models of the agent and device gateways

The two gateways of this repository keep clients and devices supplied over WebSocket connections that come and go. This
project models their hardest parts and proves what they promise, for all inputs and all interleavings:

* the event log of an agent operation: numbering, the trimmed replay buffer, the bounded hub queue, open LLM attempts and
  replay (`EventLog`, and the object that implements it, `Operation`);
* the v2 delivery protocol around it: subscriptions that are parked, replayed and served live by one drainer while any
  number of connections, completions and lifecycle passes interleave (`Subscription`, `HubConnection`, `Delivery`,
  `DeliveryInvariant`, `DeliverySteps`, `Continuity`, `DeliveryTheorems`, `Routes`, `OwnersOnly`, `Contents`, `Losses`,
  `SequentialClients`, `Progress`, and the runs in `GapReports` and `Overlaps`);
* the inactivity watchdog (`Watchdog`) and the owner recheck of v1 connections (`Ownership`);
* the device metric store, as a class checked against everything that was ever accepted (`Timelines`, `Metrics`);
* the device hub: devices and dispatch targets (`DeviceHub`), pending requests (`Pending`) and tool-call retransmission
  (`ToolCalls`);
* the WebSocket frame codec (`Frames`; the two copies of ws.go share this code).

`Sorting` specifies Go's stable sort, `Wrappers` holds `Option`.

## How the models are built

Objects that the code updates in place are classes. Their methods are the code's sections under a lock and its loops, and
each is proved against a function on values. Protocols are labelled transition systems over those functions: a step is one
section under one lock, or one socket write made outside any lock, and a run is any sequence of enabled steps. Socket
writes succeed or fail as the environment likes, timers and callbacks come when they like, and maps are walked in any
order. Times are a logical clock. Fields marked as history record what has happened; no decision reads them.

What holds only with a condition, and where the code differs from its documentation:

* Completions report gaps one by one, but skips happen to subscriptions. A subscription parked before init can have two
  completions, its own and one started by init's lifecycle pass, and the one that reports `gap:false` may flush after one
  that moved the client past trimmed events (`GapReports` gives the run). A completion with `gap:false` skips nothing
  itself (`Losses.NoGapSkipsNothing`), and `Losses.SkippedExactly` says for every run exactly what a client is moved past
  without being sent it. That includes events that a flush gives up without moving the position: they are passed only
  when a later event is delivered.
* A re-subscribe that overlaps a running completion may be flushed by the older one (`Overlaps.OlderCompletionSkips`).
  `ForeignExact` says exactly at which step. A client that does not subscribe while a completion of its connection is
  running is safe from it, and the guarantees hold for it unconditionally (`SequentialClients`).
* A negative resume id always reports a gap (`EventLog.GapExact`).
* The verdict of an expired tool call and the end of its retries are two sections. A write between them can deliver a
  call that is reported offline (`ToolCalls.OfflineYetDelivered`); `ToolCalls.OfflineDeliveredExactly` says exactly when.
* A request whose key is reused while it is live is forgotten together with its waiter (`Pending.OverwrittenIsForgotten`).
* The agent gateway's README.md says that every backend activity refreshes the watchdog window. Confirmation and input
  requests and a session end do not; the model follows the code.

## Model

| member | source | states |
|---|---|---|
| EventLog.RingShape | agent-gateway-go/internal/gateway/operation.go:432-438 | Whatever the number n of issued events, the buffer is exactly the last L(n) of the log, with L(n) = n up to 1000 and 500 + (n - 1001) mod 501 after that: never more than 1000, never fewer than the smaller of n and 500 |
| EventLog.ReplayFacts | agent-gateway-go/internal/gateway/operation.go:339-366 | A replay has strictly increasing ids and consists of exactly the retained replayable events after the resume id and the open LLM attempts after it |
| EventLog.GapExact | agent-gateway-go/internal/gateway/operation.go:361-364 | A gap is reported exactly if an event after the resume id has been trimmed, or the resume id is negative |
| EventLog.NoGapReplaysLog | agent-gateway-go/internal/gateway/operation.go:339-366 | Without a gap the replay from the trimmed buffer equals the same filter over the entire unbounded log |
| EventLog.ApplyWf | agent-gateway-go/internal/gateway/operation.go:147-232 | Every section that publishes, ends, prunes, opens or closes keeps the log numbered from 1, the buffer and the queue suffixes of it, and every open attempt a logged event of its own call, and only ever extends the log |
| EventLog.RunWf | agent-gateway-go/internal/gateway/operation.go:147-232 | The same over any sequence of sections |
| EventLog.AttemptSurvival | agent-gateway-go/internal/gateway/llm.go:46-61 | Over any sequence of sections, however much is trimmed, an attempt stays open exactly if none of them cancels, closes or replaces it or prunes it after its deadline or after the operation ended |
| EventLog.OpenAttemptReplayed | agent-gateway-go/internal/gateway/operation.go:350-360 | Such an attempt with an id after the resume id is in the replay at one place, and no id occurs twice |
| EventLog.ReplayedAttemptIsOpen | agent-gateway-go/internal/gateway/llm.go:46-61 | Every llm_execute replayed belongs to a call that is open and unexpired while the operation is not over |
| EventLog.ClosedNeverReplayed | agent-gateway-go/internal/gateway/llm.go:119-130 | Once cancelled or closed, a call is not replayed again unless it is executed again, even while its attempt is still buffered |
| EventLog.DroppedForGood | agent-gateway-go/internal/gateway/llm.go:119-146 | An attempt that has been dropped never comes back: a later attempt for the same call is another event |
| Operation.Operation.constructor | agent-gateway-go/internal/gateway/operation.go:60-77 | A new operation is the initial value of the event log, with an empty status and no timers |
| Operation.Operation.BufferLocked | agent-gateway-go/internal/gateway/operation.go:432-438 | The buffer object is trimmed as the ring specification says |
| Operation.Operation.DiscardQueue | agent-gateway-go/internal/gateway/operation.go:389-393 | Every dropped event is answered once on its result channel and the queue is empty |
| Operation.Operation.QueueHubEvent | agent-gateway-go/internal/gateway/operation.go:374-402 | The whole new state of queue, overflow flag, drainer flag and answers; a goroutine is started exactly if none was running |
| Operation.Operation.PublishLocked | agent-gateway-go/internal/gateway/operation.go:142-158 | The event appended to the log has the next id and exactly the given kind and body, and it is the last of the buffer and of the hub queue; the rest of the new state is that of one Publish step |
| Operation.Operation.PushEvent | agent-gateway-go/internal/gateway/operation.go:147-166 | The pushed event itself, under the next id, is the one added to log, buffer and hub queue, and the push counts as activity at that time |
| Operation.Operation.HandleSessionEnd | agent-gateway-go/internal/gateway/operation.go:195-208 | The status, the given event published, the stopped watchdog and the armed cleanup |
| Operation.Operation.UpdateStatus | agent-gateway-go/internal/gateway/operation.go:210-232 | The same for a status update, which counts as activity and arms cleanup only for a terminal status |
| Operation.Operation.AskClient | agent-gateway-go/internal/gateway/operation.go:234-247 | A confirmation or input request publishes the given event and leaves the watchdog alone |
| Operation.Operation.InitOp | agent-gateway-go/internal/gateway/operation.go:80-99 | Owner, running status, cleared cleanup, activity and a rescheduled watchdog |
| Operation.Operation.LlmExecute | agent-gateway-go/internal/gateway/llm.go:120-154 | Refused exactly if the operation is over, with nothing changed; otherwise the attempt with the given call, preferred client and body is published, and the open table maps the call to exactly that event with the given expiry |
| Operation.Operation.LlmCancel | agent-gateway-go/internal/gateway/llm.go:126-154 | The call leaves the open table, and the given cancellation is published |
| Operation.Operation.LlmClose | agent-gateway-go/internal/gateway/llm.go:126-130 | The attempt is closed and nothing is published |
| Operation.Operation.PruneLLM | agent-gateway-go/internal/gateway/llm.go:46-52 | The loop over the map of open attempts removes exactly those that are expired or whose operation is over |
| Operation.Operation.CollectReplay | agent-gateway-go/internal/gateway/operation.go:339-366 | The loops over buffer and open attempts, the set of seen ids and the sort return the replay of the log, whatever order the map is walked in, and the gap flag of that replay |
| Operation.Operation.DrainNext | agent-gateway-go/internal/gateway/operation.go:406-427 | The section at the top of the drainer loop clears an overflow, stops, or takes the oldest queued event, and each exactly under its condition |
| Operation.Operation.FireWatchdogCheck | agent-gateway-go/internal/gateway/operation.go:467-481 | First section of the watchdog |
| Operation.Operation.FireWatchdogEnd | agent-gateway-go/internal/gateway/operation.go:493-525 | Second section: ends the operation exactly if it is still live and idle, and publishes the ending |
| Contents.LoggedWasIssued | agent-gateway-go/internal/gateway/operation.go:147-247 | In every run, each event of the log was appended, under the next number, by one command of that run, and has the kind and the body which that command carried |
| Contents.WrittenWasIssued | agent-gateway-go/internal/gateway/v2.go:382-400 | So whatever a client has been written, or has queued for it, is an event that some command issued earlier in the run, with its kind and body |
| Watchdog.AlwaysGuarded | agent-gateway-go/internal/gateway/operation.go:450-528 | Before cleanup, in every run: an ended operation has no watchdog and its cleanup timer armed; a live one with activity has a watchdog due at its last activity plus its window, or one that is firing |
| Watchdog.EndsOnlyIdle | agent-gateway-go/internal/gateway/operation.go:493-527 | The watchdog ends only operations that are not over and have seen no activity for the full window at the ending step |
| Watchdog.AnswerExact | agent-gateway-go/internal/gateway/operation.go:483-528 | An answer of the finalize callback ends the operation exactly if it is live and was idle for the whole window: activity during the callback saves it |
| Watchdog.OnlyEndings | agent-gateway-go/internal/gateway/operation.go:183-232 | Only a runtime end, a terminal status update and the watchdog end an operation |
| Watchdog.WindowOfOperation | agent-gateway-go/internal/gateway/llm.go:39-44 | The window is an hour for an operation of another agent and half an hour otherwise, and only an init that carries metadata changes which it is |
| Watchdog.EndingStatus | agent-gateway-go/internal/gateway/operation.go:183-232 | Which status each way of ending leaves, and that nothing else changes the status |
| Watchdog.EndingArmsCleanup | agent-gateway-go/internal/gateway/operation.go:586-593 | Whatever ends an operation stops its watchdog and arms its cleanup ten minutes ahead |
| Subscription.FlushExact | agent-gateway-go/internal/gateway/v2.go:189-207 | However many of the listed events a flush manages to write, nothing is skipped between the resume position (or what was reported gone) and the new position |
| Subscription.FlushCatchesUp | agent-gateway-go/internal/gateway/v2.go:189-210 | After a complete flush every event that has left the hub queue is written, or is the one in flight |
| Subscription.FlushWritesExactly | agent-gateway-go/internal/gateway/v2.go:176-210 | Exactly which broadcast events a complete flush moves the client past without writing them: those trimmed before its snapshot, unless they were parked and the snapshot lists nothing newer |
| Subscription.FlushLoses | agent-gateway-go/internal/gateway/v2.go:189-207 | However far a flush gets, what it has moved the client past is unwritten exactly if it is recorded as lost |
| Subscription.DeliveredListed | agent-gateway-go/internal/gateway/v2.go:198-202 | Writing a list sends exactly the ids that it reaches before anything newer, duplicates and older ones being dropped |
| Subscription.TargetedExactly | agent-gateway-go/internal/gateway/v2.go:177-187 | The filtered replay has exactly the events that are no llm_execute or for which the connection was chosen, in the order of the replay |
| Subscription.FlushKeeps | agent-gateway-go/internal/gateway/v2.go:189-210 | A complete flush keeps the subscription invariant: order, coverage up to the position, and losses |
| Subscription.FlushFailedKeeps | agent-gateway-go/internal/gateway/v2.go:197-207 | So does a flush that stops at a failed write |
| Subscription.OfferKeeps | agent-gateway-go/internal/gateway/v2.go:276-291 | So does handing an event to a subscription in any state |
| DeliveryInvariant.FlushSubs | agent-gateway-go/internal/gateway/v2.go:189-210 | A flush, complete or cut short, also keeps what every other completion of the connection relies on for the snapshot it holds |
| Subscription.OfferKeepsHold | agent-gateway-go/internal/gateway/v2.go:276-291 | So does handing over an event, for a snapshot held meanwhile |
| HubConnection.HubConnection.Subscribe | agent-gateway-go/internal/gateway/v2.go:126-133 | A subscribe request replaces the entry by a replaying one with the requested executor flag, positioned at the resume id, with nothing queued |
| HubConnection.HubConnection.DropSubscription | agent-gateway-go/internal/gateway/v2.go:402-406 | Exactly the entry of the operation goes |
| HubConnection.HubConnection.Park | agent-gateway-go/internal/gateway/v2.go:146-151 | Parking empties the queue and sets the state, if the entry is there |
| HubConnection.HubConnection.TakeBack | agent-gateway-go/internal/gateway/v2.go:155-160 | Taking back changes a parked entry only, and says whether it did |
| HubConnection.HubConnection.DeliverLocked | agent-gateway-go/internal/gateway/v2.go:382-400 | A duplicate is dropped unwritten; a failed write changes nothing; a successful one moves the position |
| HubConnection.HubConnection.DeliverEvent | agent-gateway-go/internal/gateway/v2.go:276-291 | Park, deliver or ignore by state, and what is counted as delivered |
| HubConnection.HubConnection.WriteAll | agent-gateway-go/internal/gateway/v2.go:197-202 | The write loop stops at the first failure, having written exactly the prefix before it |
| HubConnection.HubConnection.FlushReplay | agent-gateway-go/internal/gateway/v2.go:189-210 | The whole flush section: the entry goes live with everything written, or keeps its state and queue after the first failure |
| HubConnection.HubConnection.Close | agent-gateway-go/internal/gateway/v2.go:444-455 | Only the first close acts, and it empties the table |
| HubConnection.FilterTargets | agent-gateway-go/internal/gateway/v2.go:177-187 | The filtering loop keeps an event exactly if it is no llm_execute or the connection was chosen for it, and keeps the order |
| HubConnection.OperationTargets | agent-gateway-go/internal/gateway/v2.go:295-321 | In whatever order the connections are walked, exactly the right ones of those that are registered for the owner, subscribed and open are chosen: all for a broadcast; the executors for a tool execution, or all if there is none; for an LLM execution those of the preferred client, or, if there is none, the same as for a tool execution |
| HubConnection.ChosenAttempts | agent-gateway-go/internal/gateway/v2.go:177-187 | A connection keeps a replayed attempt exactly if it is such a target of it |
| DeliverySteps.StepInv | agent-gateway-go/internal/gateway/v2.go:126-293 | Every section, of any connection, completion, lifecycle pass or drainer, keeps the delivery invariant |
| DeliverySteps.Reachable | agent-gateway-go/internal/gateway/v2.go:126-481 | Hence every state of every run has it |
| Routes.RightRecipients | agent-gateway-go/internal/gateway/v2.go:271-321 | In every interleaving, when the drainer is done with an event it has taken it to exactly the right connections, by what it found of each when it looked: all subscribers for a broadcast; the executors if there are any for a tool execution, else all; the connections of the preferred client if there are any for an LLM execution, else as for a tool execution |
| Routes.LooksAtAll | agent-gateway-go/internal/gateway/v2.go:296-313 | It looks at every registered connection of the owner it has read, and records of each what is true at that moment: whether it is subscribed and open, its executor flag and its client id |
| Routes.SeenIsTrue | agent-gateway-go/internal/gateway/v2.go:300-313 | So whatever is on record was true of the connection at an earlier step, at which the drainer looked at it for the same event |
| Routes.SubscriptionIsRequested | agent-gateway-go/internal/gateway/v2.go:126-133 | The executor flag and the resume id of a subscription are those that its last subscribe request asked for, and no unsubscribe came between |
| Routes.RecipientGets | agent-gateway-go/internal/gateway/v2.go:275-290 | A connection the event is taken to is a right one and gets it: into its queue while it replays, onto its socket when it is live and not past it, unless that write fails, on which it is closed next |
| Routes.NobodyElseGets | agent-gateway-go/internal/gateway/v2.go:271-293 | No other step of the drainer adds anything to a queue or a socket, and no connection but the one at hand gains anything |
| OwnersOnly.StrangersGetNothing | agent-gateway-go/internal/gateway/v2.go:137-144 | In every interleaving of subscribes, inits, completions and deliveries, a connection of a user other than the owner has never been written an event of the operation, and none is queued for it |
| Contents.FlushSends | agent-gateway-go/internal/gateway/v2.go:176-210 | For events of any kind, in every reachable state: what a complete flush sends above the position is exactly what its snapshot replays, without the llm_execute events the connection was not chosen for, and what is parked and newer than all of that |
| Contents.AttemptSentExactly | agent-gateway-go/internal/gateway/v2.go:177-210 | So a complete flush sends an open attempt of its snapshot exactly if the connection was chosen for it, or the drainer had parked it there and the snapshot sends nothing newer |
| Contents.SnapshotHasAttempts | agent-gateway-go/internal/gateway/v2.go:176-176 | And in every reachable state the snapshot a completion takes contains every open, unexpired attempt after its position, unless the operation is over |
| DeliveryTheorems.NoSilentSkip | agent-gateway-go/internal/gateway/v2.go:137-215 | In every interleaving, for a subscription into which no completion of an earlier one has flushed: as long as none with a gap has flushed into it, it has been written exactly the broadcast events after its resume id up to its position, each once and in order; after a gap, exactly those above what was reported gone |
| Losses.SkippedExactly | agent-gateway-go/internal/gateway/v2.go:137-215 | Under the same condition, at every moment: a broadcast event between resume id and position is unwritten if and only if some flush into the subscription found it trimmed above the position and did not list it before anything newer, and nothing has listed or delivered it above the position since |
| Losses.LossStep | agent-gateway-go/internal/gateway/v2.go:176-210 | The steps at which an event gets lost for a subscription, or is taken up again, by their guards |
| Losses.LostExactly | agent-gateway-go/internal/gateway/v2.go:137-215 | The record of losses of any open subscription is exactly what flushes gave up and nothing took up since |
| Losses.OwnFlushReady | agent-gateway-go/internal/gateway/v2.go:176-189 | Every completion about to flush into its own subscription meets what the theorems on flushes assume, in every reachable state |
| Losses.FlushWrites | agent-gateway-go/internal/gateway/v2.go:176-210 | In every reachable state, a complete flush writes, of the broadcast events it moves the client past, exactly those not trimmed when its snapshot was taken and those parked while the snapshot lists nothing newer |
| Losses.NoGapSkipsNothing | agent-gateway-go/internal/gateway/v2.go:176-214 | A completion that reports gap:false itself moves its subscription past nothing unwritten, even if a write fails |
| Losses.GivenUpIsReported | agent-gateway-go/internal/gateway/v2.go:176-214 | What a completion gives up, it reports as a gap |
| SequentialClients.NeverForeign | agent-gateway-go/internal/gateway/v2.go:126-135 | If every subscribe of a connection happens while none of its completions is running, no completion of an earlier subscription ever flushes into a later one |
| SequentialClients.WrittenToSequentialClient | agent-gateway-go/internal/gateway/v2.go:137-215 | So for such a client the guarantee on what is written needs no further condition |
| SequentialClients.SkippedForSequentialClient | agent-gateway-go/internal/gateway/v2.go:137-215 | Nor does the one on what is skipped, and nothing is skipped unless a gap has been reported to it |
| SequentialClients.NothingForgottenForSequentialClient | agent-gateway-go/internal/gateway/v2.go:271-293 | Nor the one on what is still to come |
| SequentialClients.IdleMeansDeliveredToSequentialClient | agent-gateway-go/internal/gateway/operation.go:404-430 | Nor the one on what has arrived when the hub is idle |
| Overlaps.OlderCompletionSkips | agent-gateway-go/internal/gateway/v2.go:168-208 | A concrete run in which a client subscribes again while a completion is running, and that completion flushes into the new subscription, without a gap and past an event the new one asked for |
| DeliveryTheorems.NothingForgotten | agent-gateway-go/internal/gateway/v2.go:271-293 | Under the condition of NoSilentSkip, every broadcast event beyond that position is in the hub queue, in flight for this connection, parked in the subscription, in a snapshot about to be flushed, or ahead of a snapshot still to be taken |
| DeliveryTheorems.IdleMeansDelivered | agent-gateway-go/internal/gateway/operation.go:404-430 | Under the same condition, when the hub is idle and the connection settled, the client has been written every broadcast event after its resume id |
| DeliveryTheorems.NoLostWakeUp | agent-gateway-go/internal/gateway/v2.go:145-166 | A replaying subscription always has a completion at work; once init has set the owner and its lifecycle pass is over, a parked one of the owner is about to be taken back |
| DeliveryTheorems.SettledIsLive | agent-gateway-go/internal/gateway/v2.go:348-363 | So with the pass over and no completion running, every open subscription of the owner is live |
| Progress.CompletionsEnd | agent-gateway-go/internal/gateway/v2.go:137-215 | Once the owner is named, a completion runs at most nine sections, whatever interleaves with it: what is about to be taken back is taken back |
| Progress.DrainerProgresses | agent-gateway-go/internal/gateway/operation.go:404-430 | Every section of the drainer ends it or lowers, lexicographically, the events, stages and connections ahead of it |
| Progress.WorkIsKept | agent-gateway-go/internal/gateway/operation.go:404-430 | And only new events add to that work |
| Progress.PassProgresses | agent-gateway-go/internal/gateway/v2.go:330-368 | Every section of a lifecycle pass leaves it less to do |
| DeliveryTheorems.OverflowClosesFirst | agent-gateway-go/internal/gateway/operation.go:385-416 | A subscription open when queued events are discarded is closed, dropped or replaced before the drainer takes any event with a higher id, however many overflows follow |
| DeliveryTheorems.DoomBlocksDrainer | agent-gateway-go/internal/gateway/v2.go:465-481 | While such a subscription is still open, an overflow is flagged or a closing pass that still covers it is running |
| DeliveryTheorems.LossDooms | agent-gateway-go/internal/gateway/operation.go:385-417 | Each of the two places where queued events are dropped marks every open subscription |
| DeliveryTheorems.DrainerDiscipline | agent-gateway-go/internal/gateway/operation.go:374-430 | Queued events or a raised overflow flag mean exactly one drainer; the queue is a run of at most 1000 ids up to the newest; no result channel is sent to twice, and every one once when the drainer is gone |
| DeliveryTheorems.ForeignExact | agent-gateway-go/internal/gateway/v2.go:168-208 | A subscription stops having a history of its own exactly when a completion started for an earlier subscription of the same connection flushes into it |
| GapReports.NoGapReportedYetSkipped | agent-gateway-go/internal/gateway/v2.go:348-363 | A concrete run in which one subscription has two completions and the one about to report gap:false leaves the client past an event that was never written |
| Ownership.OperationConnection.Authenticate | agent-gateway-go/internal/gateway/operation.go:673-682 | A mismatch with the stored owner is refused; otherwise the connection is let in and marked for recheck exactly if there is no owner yet |
| Ownership.OperationConnection.VerifyPendingOwner | agent-gateway-go/internal/gateway/operation.go:797-811 | The recheck clears the mark of the owner and rejects anybody else |
| Ownership.NoIntruderAfterInit | agent-gateway-go/internal/gateway/operation.go:80-104 | Once an init has finished its recheck, no registered authenticated v1 connection belongs to another user, whichever of authentication and init came first |
| Ownership.OwnerStays | agent-gateway-go/internal/gateway/operation.go:797-811 | The recheck never removes a connection of the owner |
| Ownership.RefusedExactly | agent-gateway-go/internal/gateway/operation.go:673-682 | In every reachable state an authentication is refused exactly if an owner is stored and it is another user; otherwise the connection is let in under that name |
| Frames.RoundTrip | agent-gateway-go/internal/gateway/ws.go:87-158 | For every opcode below 16, any payload that the reader can allocate and no mask or any mask key, reading what was written returns opcode and payload and leaves whatever follows untouched |
| Frames.StreamRoundTrip | agent-gateway-go/internal/gateway/ws.go:87-158 | Any concatenation of frames parses back to the same list |
| Frames.PrefixIsTruncated | agent-gateway-go/internal/gateway/ws.go:87-124 | An incomplete frame is never taken for a frame |
| Frames.ShortestForm | agent-gateway-go/internal/gateway/ws.go:141-152 | writeFrame uses the shortest form: no unmasked byte string that reads as the same opcode and payload is shorter (section 5.2 of RFC 6455) |
| Frames.HeaderBits | agent-gateway-go/internal/gateway/ws.go:141-152 | Every frame written is marked final, with no reserved bit and its opcode in the first byte, and has the mask bit exactly if there is a key (section 5.2 of RFC 6455) |
| Frames.ServeSkips | agent-gateway-go/internal/gateway/ws.go:70-85 | Frames before a text frame are passed over, and exactly the pings among them are answered, in order |
| Frames.Unmask | agent-gateway-go/internal/gateway/ws.go:118-122 | The in-place loop applies the mask of section 5.3 of RFC 6455 to every byte |
| Frames.WsConn.WriteFrame | agent-gateway-go/internal/gateway/ws.go:137-158 | The header built step by step, followed by the payload, is the encoding of the frame |
| Frames.WsConn.ReadFrame | agent-gateway-go/internal/gateway/ws.go:87-124 | The stepwise reader returns what the parser finds and consumes exactly that, fails at the end of the stream, and panics exactly if the announced length is beyond what can be allocated |
| Frames.WsConn.ReadMessage | agent-gateway-go/internal/gateway/ws.go:70-85 | The read loop returns the first text frame, stops at a close frame or the end of the stream, panics with an oversized frame, and writes exactly the pongs due |
| Timelines.StreamingIsOffline | device-gateway-go/internal/gateway/metrics.go:119-136 | Over any run of batches, expiries and evictions with a clock that never goes back, expiring, merging with the last sample winning and thinning step by step gives the newest n unexpired entries of everything accepted since the last eviction |
| Timelines.NewestOfMerge | device-gateway-go/internal/gateway/metrics.go:120-134 | Thinning before a merge does not change the thinned result of the merge |
| Timelines.CutOfNewest | device-gateway-go/internal/gateway/metrics.go:159-174 | Expiry and thinning commute |
| Timelines.LastIsNewest | device-gateway-go/internal/gateway/metrics.go:132-134 | Keeping the last n samples of a sorted history is keeping its newest n entries |
| Timelines.SinceIsCut | device-gateway-go/internal/gateway/metrics.go:159-174 | Dropping the prefix found by the search is expiry |
| Timelines.SortedIsUnique | device-gateway-go/internal/gateway/metrics.go:127-131 | A sorted history is determined by its entries, so the order in which the merged map is walked does not matter |
| Metrics.Search | device-gateway-go/internal/gateway/metrics.go:152-152 | The binary search finds the first sample at or after the limit |
| Metrics.Decoded | device-gateway-go/internal/gateway/metrics.go:107-115 | The filtering loop keeps exactly the decodable samples of the window, in order |
| Metrics.IncomingMembers | device-gateway-go/internal/gateway/metrics.go:110-115 | Accepted samples are exactly those that decode and lie between 48 hours ago and 10 minutes ahead |
| Metrics.Merge | device-gateway-go/internal/gateway/metrics.go:119-134 | The merged history is non-empty, strictly increasing, at most 3000 long, and the newest entries of old and new samples with the new ones winning |
| Metrics.MetricStore.constructor | device-gateway-go/internal/gateway/metrics.go:49-51 | An empty store satisfies the invariant |
| Metrics.MetricStore.PruneLocked | device-gateway-go/internal/gateway/metrics.go:159-174 | Every history loses exactly its expired prefix, empty ones disappear, and the total stays the sum of lengths |
| Metrics.MetricStore.EvictOldestLocked | device-gateway-go/internal/gateway/metrics.go:177-188 | One history goes, no other has an older newest sample, and the total falls |
| Metrics.MetricStore.MakeRoomLocked | device-gateway-go/internal/gateway/metrics.go:137-139 | The loop ends, with the total as its measure, in a store within both caps; every victim was the oldest left while a cap was exceeded |
| Metrics.EvictionsAreFair | device-gateway-go/internal/gateway/metrics.go:137-139 | No evicted history has a newer newest sample than any survivor, and the last eviction was needed |
| Metrics.MetricStore.Store | device-gateway-go/internal/gateway/metrics.go:106-144 | The count is the number of items among the first 500 that decode and were observed between 48 hours ago and 10 minutes ahead; unless the device is evicted, what is accepted for it gains exactly those items, the last of each time winning, and every other device that is not evicted keeps what it has. Keeps the invariant: histories non-empty, strictly increasing and at most 3000 long, total their sum, both caps, a timer when not empty, and, as long as the clock has not gone back, each history the newest 3000 unexpired entries of everything accepted for its device since its last eviction |
| Metrics.AcceptedExactly | device-gateway-go/internal/gateway/metrics.go:107-115 | What a batch adds to a history, item by item: the last accepted item of each time over what there was, and nothing else |
| Metrics.StoreGains | device-gateway-go/internal/gateway/metrics.go:106-144 | The same for the whole store, where evicted devices are left with nothing |
| Metrics.SurvivesExactly | device-gateway-go/internal/gateway/metrics.go:132-134 | After expiry and thinning an entry is left exactly if it is late enough and fewer than n entries are newer |
| Metrics.StoreThenRead | device-gateway-go/internal/gateway/metrics.go:106-157 | Storing a batch and reading back at the same time returns an accepted item in the range asked for exactly if its device was not evicted and fewer than 3000 newer entries have been accepted for it |
| Metrics.MetricStore.Read | device-gateway-go/internal/gateway/metrics.go:146-157 | Returns in ascending order exactly the part at or after the later of since and 48 hours ago of that reference, and keeps the invariant |
| Metrics.MetricStore.Cleanup | device-gateway-go/internal/gateway/metrics.go:196-202 | Prunes, re-arms the timer exactly if something is left, and keeps the invariant |
| Metrics.MergeRefines | device-gateway-go/internal/gateway/metrics.go:119-136 | Merging a batch of recent samples into a history that refines what was accepted refines what is then accepted |
| DeviceHub.Hub.Register | device-gateway-go/internal/gateway/hub.go:41-50 | The entry is replaced, and another connection object under the same id is returned for closing |
| DeviceHub.Hub.Remove | device-gateway-go/internal/gateway/hub.go:52-56 | Only the registered object itself removes the entry, and every other entry stays |
| DeviceHub.Hub.AuthenticatedConnections | device-gateway-go/internal/gateway/hub.go:82-92 | Each authenticated connection once, in whatever order the map is walked |
| DeviceHub.Hub.DeviceCount | device-gateway-go/internal/gateway/hub.go:94-104 | The number of device ids among authenticated connections |
| DeviceHub.Hub.Devices | device-gateway-go/internal/gateway/hub.go:106-148 | For any order of walking the maps: one entry per device, channels and devices newest first, each device dated by its latest connection and named by one of that date, its channels those of its connections |
| DeviceHub.Partition | device-gateway-go/internal/gateway/hub.go:106-148 | A connection is listed somewhere exactly if it is registered and authenticated, then at one place of one device, with its own channel, connection time and device data |
| DeviceHub.CountAgrees | device-gateway-go/internal/gateway/hub.go:94-148 | devices and deviceCount agree on the number of devices |
| DeviceHub.Hub.Target | device-gateway-go/internal/gateway/hub.go:150-165 | Nothing exactly if no authenticated connection matches; otherwise one that no matching connection is preferred to |
| DeviceHub.FirstIsBest | device-gateway-go/internal/gateway/hub.go:161-164 | The head of the stably sorted candidates is least under the dispatch priority |
| DeviceHub.BestTargetMeans | device-gateway-go/internal/gateway/hub.go:167-193 | No matching connection has a channel that comes before that of the target in the order cli, cli-dev, desktop, desktop-dev, any other, and none of the same channel, or of unknown ones, connected later |
| Pending.OneFate | device-gateway-go/internal/gateway/hub.go:195-243 | At every moment each request is exactly one of: in the table, ended once by response, timeout or clean-up, or overwritten by a later request under its key |
| Pending.ExactlyOnce | device-gateway-go/internal/gateway/hub.go:195-243 | If no key is reused while live, a request has left the table exactly if it has been ended |
| Pending.TimersExpireTheirOwn | device-gateway-go/internal/gateway/hub.go:198-207 | Even when keys are reused, a timer ends at most its own request and leaves every other entry alone |
| Pending.TimeoutsAreReal | device-gateway-go/internal/gateway/hub.go:198-207 | No request times out unless its own timer has run |
| Pending.WaitersAreServed | device-gateway-go/internal/gateway/hub.go:245-259 | No channel is sent to twice, a waiter is told what ended its request, and one that was told nothing is owed a signal, has its timer ahead, has given up by itself, or was overwritten |
| Pending.OverwrittenIsForgotten | device-gateway-go/internal/gateway/hub.go:198-208 | An overwritten request is never ended, so its waiter never hears anything |
| Pending.ResponseEndsItsRequest | device-gateway-go/internal/gateway/hub.go:224-243 | In every reachable state a response ends the live request under its request id if it carries one, else the one under its operation id, and owes its waiter a signal; one without a live request ends nothing; every other request is untouched |
| Pending.SetIsLive | device-gateway-go/internal/gateway/hub.go:195-210 | A request is live under its key from the moment it is set, and only a live one under the same key stops being so |
| Pending.ClearEndsItsRequest | device-gateway-go/internal/gateway/hub.go:212-222 | Clearing ends exactly the live request under the key, and its waiter is owed nothing |
| Pending.Requests.SetPending | device-gateway-go/internal/gateway/hub.go:195-210 | One step of the table model |
| Pending.Requests.Expire | device-gateway-go/internal/gateway/hub.go:198-207 | The timer section times the request out exactly if it is still the one in the table |
| Pending.Requests.ClearPending | device-gateway-go/internal/gateway/hub.go:212-222 | Takes the entry, if any, out of the table |
| Pending.Requests.ResolvePending | device-gateway-go/internal/gateway/hub.go:224-243 | Takes the entry under the request id, or else the operation id, out of the table; an empty key does nothing |
| ToolCalls.Retransmission | device-gateway-go/internal/gateway/hub.go:276-314 | In every interleaving of connects, reconnects, retries, responses and expiry: at most four writes, all to one connection id of one device, that of the first target, which was the best matching authenticated connection of the table it was chosen from |
| ToolCalls.ChoiceWasReal | device-gateway-go/internal/gateway/hub.go:293-308 | That table was the connection table at the step that chose the target |
| ToolCalls.WriteWasChosen | device-gateway-go/internal/gateway/hub.go:293-308 | The same for every write, whichever retry made it: its target was authenticated and registered under its id in the connection table at the step that chose it |
| ToolCalls.SilentAfterFinish | device-gateway-go/internal/gateway/hub.go:284-289 | Nothing is written once finished is set |
| ToolCalls.VerdictExact | device-gateway-go/internal/gateway/hub.go:323-334 | An expired call is a timeout exactly if a write had succeeded when the verdict was read |
| ToolCalls.OfflineDeliveredExactly | device-gateway-go/internal/gateway/hub.go:284-334 | A call reported offline has been delivered all the same if and only if after the verdict a retry got past its guard (not finished, fewer than four attempts, not bound or bound to the same installation), found a target and wrote to it |
| ToolCalls.OfflineAfterFourIsFinal | device-gateway-go/internal/gateway/hub.go:286-291 | A call reported offline after four attempts is never delivered |
| ToolCalls.SpentIsSilent | device-gateway-go/internal/gateway/hub.go:286-291 | Once four attempts are made and none is under way, nothing is written any more |
| ToolCalls.HeardAtVerdict | device-gateway-go/internal/gateway/hub.go:323-334 | The writes the verdict counted are those made when its step ran |
| ToolCalls.RetryExact | device-gateway-go/internal/gateway/hub.go:286-314 | In every reachable state an undisturbed retry makes exactly one write, to the best target or, once bound, to the connection now registered for the bound installation, if the call is not finished, attempts are left, the trigger is of that installation and there is such a connection; otherwise it writes nothing |
| ToolCalls.RetryNeedsPeer | device-gateway-go/internal/gateway/hub.go:295-310 | A bound call is written to nobody while the connection registered under the bound id is absent, not authenticated or of another device |
| ToolCalls.ReconnectResends | device-gateway-go/internal/gateway/hub.go:286-314 | So in every reachable state, with budget left, an authenticated reconnect of the bound installation gets the request written again, to the connection now registered |
| ToolCalls.OfflineYetDelivered | device-gateway-go/internal/gateway/hub.go:284-334 | A concrete run in which a write succeeds between the verdict and finished, so that a delivered call is reported offline |
| ToolCalls.ToolCall.Look | device-gateway-go/internal/gateway/hub.go:294-310 | The first read of the connection table, which binds the call if it is not bound |
| ToolCalls.ToolCall.Rebind | device-gateway-go/internal/gateway/hub.go:295-310 | The second read finds the connection that is registered and authenticated under the bound ids, and finds nobody exactly if there is none |

## Left out

- DeliveryTheorems.NoSilentSkip: stated for each subscription with no flushed gap, not for each completion that reports `gap:false`, because the latter is false (GapReports.NoGapReportedYetSkipped).
- Delivery: one operation with one owner for the whole run; cleanup followed by a new operation under the same id is not modelled.
- Delivery: for which attempts of a replay the connection is chosen is decided in the code by a separate look at the connections, one by one. Here a completion may be chosen for any of them, so every guarantee holds whatever happens between those looks; HubConnection.ChosenAttempts says which ones it is if nothing does.
- DeliveryTheorems: NoSilentSkip, NothingForgotten and what follows from them are about broadcast events. A tool_execute or llm_execute is meant for chosen subscribers only; who those are and what they get is stated in Routes, and for replayed attempts in Contents.
- Delivery: lifecycle passes for statuses other than running appear only through the connections that they close and the subscriptions that they drop. The heartbeat and read errors are arbitrary closes.
- HubConnection: the methods hold one section each; which sections follow one another is modelled in Delivery.
- HubConnection.HubConnection.DeliverLocked: stamping the operation id on a message and dropping a payload that does not decode are left out, since messages here are decoded.
- HubConnection.HubConnection.Close: stopping the heartbeat timer, the close frame and closing the socket are left out; deregistration is a step of Delivery.
- Operation.Operation.DiscardQueue: result channels are modelled by which events have been answered, not by the count (here 0) that is sent.
- Operation.Operation.QueueHubEvent: events that fail to marshal do not exist in the model, and neither does the count sent for them.
- Operation.Operation.PushEvent: the v1 broadcast after the lock is released, and the session end that an agent_runtime_end event then triggers, which is HandleSessionEnd.
- Operation.Operation.HandleSessionEnd: the v1 broadcast and the lifecycle notification after the lock is released; the latter is a pass of Delivery.
- Operation.Operation.UpdateStatus: the same, and that the message is a session_complete for the completed status and a status_change otherwise: bodies are opaque.
- Operation.Operation.AskClient: the table of pending confirmations and inputs with their timers.
- Operation.Operation.InitOp: the creation time, and the list of v1 connections to recheck, which Ownership models.
- Operation.Operation.LlmExecute: malformed LLM data, the deadline arithmetic, v1 recipients and the HTTP answers; the expiry time is a parameter.
- Operation.Operation.LlmCancel: v1 recipients.
- Watchdog: the finalize callback is an arbitrary boolean between its two sections; what follows cleanup is not constrained, and a status may leave the terminal ones again, as in the code.
- Ownership: every init names the same owner; admin connections, heartbeats and authentication itself are not modelled.
- Broadcasts to v1 connections happen after the lock is released and have no order to state.
- Confirmation and input waiters, tool-result forwarding, HTTP routing, service and token authentication, configuration, start-up and shutdown.
- Frames.WsConn.WriteFrame: write errors, deadlines and the write lock; fragmentation, which the reader ignores as well; writeClose.
- Frames.WsConn.ReadFrame: the stream is the bytes that will have arrived; how large a buffer can be allocated is a parameter.
- Frames.RoundTrip: payloads shorter than 2^63 bytes, which is the range of a Go slice length.
- Progress: that every enabled section is run at some time is up to Go's scheduler; what is proved is that each one counts.
- Metrics.MetricStore.Store: samples carry an opaque reading, decoding is a parameter, and times are reals, so neither floating-point rounding nor the millisecond truncation of the clock is modelled.
- Metrics.MetricStore: when the clock goes back, only the part of the invariant that does not speak of the reference is guaranteed.
- DeviceHub.Hub: connections are values with a serial number, so authentication and heartbeats are changes of the table entry rather than of a shared object; closing sockets and stopping timers are left out.
- Pending.Requests: timers are identified with requests; the resolve and timeout callbacks appear as signals owed and sent, without the message they carry.
- ToolCalls.ToolCall: the closure's steps are separate methods because the connection table may change between them; the table's changes are arbitrary in ToolCalls, which includes every change DeviceHub describes.
- HTTP handlers, request payloads and timeouts of the device gateway, message and agent-run dispatch beyond the pending table.
