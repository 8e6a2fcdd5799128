# LiveKit's signalling and subscription protocols, verified

A Dafny model of the stateful protocols of LiveKit's signalling and subscription plane, with proofs of
what they guarantee over whole runs. `dafny verify dfyconfig.toml` checks all of it; each file is one module.

| file | what it models |
|---|---|
| `SignalRelay.dfy` | the batching, retrying sink and the trimming reader between two nodes |
| `JoiningReplay.dfy` | reliable data to a participant that is still joining: cache, first-seen numbers, replay, live sends |
| `MigrationHandoff.dfy` | a publisher's reliable data across two nodes |
| `Subscriptions.dfy` | the subscription manager: desired against actual, limits, counters, who is subscribed to |
| `SubscriptionConvergence.dfy` | that its reconciler comes to rest |
| `ReconcileQueue.dfy` | its bounded wake-up queue with the overflow flag |
| `ParticipantUpdates.dfy` | the order on sessions, the batching queue of participant updates, and what each recipient is sent |
| `ProtoBatch.dfy` | greedy chunking by encoded size |
| `UpdateDelivery.dfy` | participant updates to one recipient: queueing, version checks, writes |
| `PendingTracks.dfy` | tracks waiting for media, queued tracks, released client ids |
| `TrackSettings.dfy` | subscriber settings applied in two phases |
| `TransportFallback.dfy` | the loss register, failure counting and the ICE preference |
| `DataTrackStats.dfy` | loss counting over 16-bit sequence numbers |
| `SubscribePacer.dfy` | token buckets in shadow |
| `UserPacketDeduper.dfy` | nonces in a linked map |
| `OpusFmtp.dfy` | rewriting an Opus fmtp value |
| `Prelude.dfy` | what several modules share |

## How it is modelled

State the program changes in place is a class; each of its methods is one lock-held region, and its
contract equates the new state with a function of the old one. The same functions are the steps of a run:
a run is any sequence of events, so the order of goroutines, clock readings, losses, delays, duplicates and
error results is arbitrary. Where the source releases a lock between two halves of an operation, the halves
are separate events. Code made of loops over values is a method with a loop, proved against a
specification that does not mention the loop.

What is assumed of the environment:

- A closed stream stays closed.
- Version generators are strictly increasing.
- A publisher has one data-channel handler running at a time.
- The room's message cache evicts nothing within the run.
- Adding a subscriber and recording it is one step; a reconcile of one subscription is one step, and so is the handling of one packet.
- Participant states move as the comments at `pkg/rtc/participant.go:632-639` say: a participant that does not migrate becomes active only after it has joined.
- A message object in the update queue is named by a number; nothing depends on the numbers being distinct.
- A participant's migration info comes before the replay.
- For the sink to deliver and to finish draining only (`QuietMeansDelivered`, `DrainCompletes`, `StepDrains`): a send is acknowledged only once the reader has read its frame, so all that was acknowledged when Close came has been read; the channel has room for everything accepted; no stream fails and no deadline is missed.
- For convergence only: every track can be resolved and is permitted, AddSubscriber adds the subscriber it is given, and the limits leave room for all that is desired. Reconciles may be put off, by canReconcile or by pending unsubscribes, but in each round one of each entry is able to go ahead.

## Findings

Properties one might expect that the code does not have. Each has a lemma with a concrete run, and the exact
condition is proved for all inputs.

- **The overflow flag can be stored late.** `queueReconcile` holds no lock: between finding the channel full and storing the flag, the worker can empty the channel and swap the flag (`ReconcileQueue.LateStoreStrands`). The flag will always be seen exactly when no store is late (`FlagSeenIffNoLateStore`), and a late one needs a whole channel of items taken in between. The worker's ticker recovers.
- **Updates can reach a client out of order.** `SendParticipantUpdate` checks versions under a lock and writes after releasing it, so a newer version can be written first (`UpdateDelivery.WritesCanOvertake`). For a participant whose entry is never evicted from the version cache, the order is right exactly when no write is late, that is, when none writes a version older than one written before (`WrittenInOrderIffNoneLate`); which is so whenever batches are written in the order they were checked. After an eviction the cache no longer knows the version, and an older one may follow even within a batch.
- **Session order can be circular.** With `JoinedAtMs` set on some sessions only, `CompareParticipant` is not transitive (`ParticipantUpdates.OlderCanCycle`); `OlderIsTransitiveUnlessCrossed` gives the exact condition. With it set, the order is strict and total.
- **A migrating participant can get a message twice**, once on each node, if the message is being handled on the new node while the replay runs (`JoiningReplay.LateOfferIsWrittenAgain`). The start number is respected exactly when no such message is offered live (`MigratedStartsAfterLastReceived`).
- **`subscribedTo` and live tracks can differ**: when AddSubscriber answers that the participant is subscribed already, or when canSubscribe is revoked while a track is being added (`Subscriptions.ListAndTracksCanDiffer`). Throughout a run the list is that of the live tracks exactly when no subscribe of the run came to either end (`ListedIffLive`).
- **The ICE preference can change twice between resets**, if a reset lands between a decision and its configureICE (`TransportFallback.ResetBetweenAllowsTwo`). After a reset no continuation changes it twice exactly when the decisions the reset caught are for one preference and no other can be decided on (`AtMostOneIffSingle`).
- **A late packet exactly half the number space behind is counted as ahead**, and one that was not missed hides a loss: a second copy of an old packet, or a packet numbered before the first (`DataTrackStats.HalfBehindMiscounts`, `CopyHidesLoss`, `EarlierHidesLoss`). The losses stay exact exactly when none comes half the space behind and none that was not missed comes while something is missing (`LossStaysExactIff`; `AnyArrivalsExactIff` for any arrivals whatever).
- **The temporal layer outlives its settings**: settings without a frame rate leave the temporal layer of the settings before (`TrackSettings.TemporalLayerStays`). It is always the one computed last, and so the latest settings' exactly when they computed one or none was ever set (`LayersAreLastEffective`, `TemporalIsLatestIff`). The comment at `pkg/rtc/subscribedtrack.go:353` says settings are never mutated; `Bound` clears `Disabled` in place at line 216. The second phase reads `Disabled` from the current settings, so the result stands.
- **Turning stereo off keeps the bitrate stereo had set** in an fmtp value (`OpusFmtp.BitrateOutlivesStereo`). Of two rewrites the second decides alone exactly when it does not turn stereo off, or the value had that very bitrate as its last parameter and no other (`LastRewriteDecidesIff`).
- **Migration is not subject to the limit of twenty pending entries** (`PendingTracks.MigrationPassesTwenty`). There are at most twenty throughout a run exactly when no event of it overfills: no track migrates in under a client id that is not pending while twenty are (`AlwaysTwentyIff`). A request never brings them above twenty (`AddIsBounded`).

## Model

| member | source | states |
|---|---|---|
| SignalRelay.AcceptedAreWritten | pkg/routing/signal.go:365-381 | over every run the messages accepted are exactly those written while the stream is open and before the first Close, in order, whether or not a writer is active |
| SignalRelay.AcceptedNext | pkg/routing/signal.go:365-381 | one event more: a write in such a state is appended, and no other event accepts anything |
| SignalRelay.AllAreAccepted | pkg/routing/signal.go:352-381 | every message written is accepted until the stream fails, is closed, or a deadline is missed where that closes it |
| SignalRelay.QuietMeansDelivered | pkg/routing/signal.go:310-363 | with sends acknowledged only once their frame was read, room, and no failing stream or missed deadline, everything written before Close has been delivered whenever no writer is active, however often sends fail and frames arrive again |
| SignalRelay.DeliveredIsPrefixOfAccepted | pkg/routing/signal.go:310-363 | over every run of sends lost, repeated, delayed or misreported, the channel has got a prefix of the accepted messages: in order, once each, without holes |
| SignalRelay.ReaderOutcomeIsHonest | pkg/routing/signal.go:191-252 | a reader stopped by a close frame has everything ever accepted; one that refused a gap or lost its channel is missing something |
| SignalRelay.ArrivalDelivers | pkg/routing/signal.go:199-252 | in every reachable state a frame that arrives with room and without a gap brings exactly what was accepted up to its end, and ends the reader exactly if it is a close frame |
| SignalRelay.NothingStranded | pkg/routing/signal.go:282-363 | with the lock free, the stream open and no writer active, the queue is empty, the sink is not draining and every accepted message has been sent or, past a deadline, skipped |
| SignalRelay.CloseIsFinal | pkg/routing/signal.go:282-304 | after a close frame was read no continuation accepts or delivers anything more |
| SignalRelay.CloseFrameCompletes | pkg/routing/signal.go:191-223 | when the close frame under way arrives, a reader without a gap ends with every accepted message |
| SignalRelay.DrainCompletes | pkg/routing/signal.go:282-363 | once closed with an open stream and all acknowledged frames read, every fair run that acknowledges a send only once its frame was read, with room in the channel and without a failing stream or a missed deadline, ends with the reader stopped on the close frame and everything accepted delivered, however often sends fail and old frames arrive again |
| SignalRelay.StepDrains | pkg/routing/signal.go:310-363 | while draining, on the same assumptions about acknowledgements and room, no step takes the writer further from its close frame being read, and running, returning and arriving bring it nearer |
| SignalRelay.DrainingIffClosed | pkg/routing/signal.go:282-289 | the sink drains exactly from the first Close on |
| SignalRelay.StaysOpen | pkg/routing/signal.go:352-363 | nothing but a failure, Close, or a missed deadline where that closes it ends the stream |
| SignalRelay.RunKeepsInvariants | pkg/routing/signal.go:310-381 | in every reachable state the queue is what was accepted from the base number on, and every frame on the network shows the accepted messages truthfully |
| SignalRelay.StoppedReaderStays | pkg/routing/signal.go:191-223 | once the copy loop has ended, further frames change nothing |
| SignalRelay.SignalMessageSink.WriteMessage | pkg/routing/signal.go:365-381 | accepts exactly while open and not draining, appends, and starts a writer exactly when none is active |
| SignalRelay.SignalMessageSink.Close | pkg/routing/signal.go:282-304 | starts draining, and a writer if there is none to do it |
| SignalRelay.SignalMessageSink.WriteTop | pkg/routing/signal.go:310-330 | ends the writer when there is nothing to send or no stream, otherwise sends the whole queue under its base number |
| SignalRelay.SignalMessageSink.SendReturned | pkg/routing/signal.go:330-363 | drops what was acknowledged, keeps everything for a retry, or past the deadline skips the batch without reusing its numbers |
| SignalRelay.SignalMessageReader.Read | pkg/routing/signal.go:233-252 | refuses a frame that starts beyond the reader, otherwise returns exactly what has not been returned yet |
| SignalRelay.SignalMessageReader.WriteTo | pkg/routing/signal.go:205-216 | the channel gets the messages up to the one that fails |
| SignalRelay.SignalMessageReader.Copy | pkg/routing/signal.go:191-223 | over any frames and any room in the channel, delivers and ends as reading them one by one does |
| JoiningReplay.PublishedIsWrittenOnce | pkg/rtc/participant.go:4244-4305 | from end to end, in every interleaving: each message published for the participant after it had joined, newer than what the old node delivered and no longer in its handler, has been written exactly once after the replay |
| JoiningReplay.ExactlyOnce | pkg/rtc/participant.go:4244-4305 | over every interleaving of caching, offers, migration info and replay: no message is written twice or to a participant it does not address, numbers rise per sender, and after the replay each offered message newer than what the old node delivered has been written once |
| JoiningReplay.CachedIffNext | pkg/rtc/room.go:1282-1297 | a message is cached exactly if no handler is at work for its sender and its number is above all of that sender in the cache |
| JoiningReplay.PublishedIsOffered | pkg/rtc/room.go:1282-1297 | each message cached for a participant that had joined and is addressed is offered to it, or its handler is about to |
| JoiningReplay.MigratedStartsAfterLastReceived | pkg/rtc/participant.go:1517-1521 | a migrating participant is written nothing up to its last received number exactly when nothing up to it is offered live after the replay |
| JoiningReplay.LateOfferIsWrittenAgain | pkg/rtc/participant.go:4282-4305 | the run in which a message the old node delivered is written again |
| JoiningReplay.RawKeptInOrder | pkg/rtc/participant.go:4244-4281 | unsequenced messages taken are written once each in order, or held within the byte limit |
| JoiningReplay.RawTakenIff | pkg/rtc/participant.go:4251-4281 | an unsequenced message is taken exactly if, before the replay, it fits into 100000 bytes with those taken so far, and after it, the participant is active |
| JoiningReplay.RunKeepsInv | pkg/rtc/room.go:1282-1297 | the joint invariant of cache, first-seen numbers, numbers written by the replay and messages in handling, over every run |
| JoiningReplay.ReplayWrites | pkg/rtc/participant.go:4390-4420 | the replay writes exactly the cached messages the participant wants, rising per sender |
| JoiningReplay.ReplaySuppresses | pkg/rtc/participant.go:4390-4420 | after it, the numbers noted tell exactly whether the message in handling was already written |
| JoiningReplay.ReplayCovers | pkg/rtc/room.go:1910-1919 | no offered message is missed by the first-seen numbers, and none the old node delivered is written |
| JoiningReplay.LiveWriteIsNew | pkg/rtc/participant.go:4288-4305 | a live send that is not suppressed is new and the highest of its sender |
| JoiningReplay.ReliableDataInfo.SendSequenced | pkg/rtc/participant.go:4282-4305 | notes the first number while joining; after it writes unless the replay has |
| JoiningReplay.ReliableDataInfo.SendUnsequenced | pkg/rtc/participant.go:4244-4281 | holds within the byte limit while joining, drops beyond it, afterwards writes when active |
| JoiningReplay.ReliableDataInfo.SetMigrateInfo | pkg/rtc/participant.go:1517-1521 | each sender starts one past what was received, in 32 bits, the last entry of a sender winning |
| JoiningReplay.ReliableDataInfo.ReplayJoining | pkg/rtc/participant.go:4390-4420 | writes the wanted cached messages and then the held ones, notes the highest number of each sender and opens the way for live sends |
| MigrationHandoff.HandOffForwardsOnceInOrder | pkg/rtc/participant.go:4636-4641 | wherever the old node is stopped and whatever arrives on either node, numbers forwarded over both rise strictly |
| MigrationHandoff.WaitsIff | pkg/rtc/migrationdatacache.go:41-61 | the node waits exactly until the next number arrives, or one beyond it that brings the cached bytes to four mebibytes or comes after the deadline |
| MigrationHandoff.GapClosed | pkg/rtc/migrationdatacache.go:41-61 | when the gap closes, the first packet forwarded is last+1, then exactly the running maxima of what follows |
| MigrationHandoff.WaitTimedOut | pkg/rtc/participant.go:2516-2573 | on timeout or a full cache exactly the running maxima of everything that arrived, and arrives, are forwarded |
| MigrationHandoff.WaitingHoldsBack | pkg/rtc/migrationdatacache.go:41-61 | while waiting nothing is forwarded and the cache holds, in arrival order, what lies beyond the handed-over number |
| MigrationHandoff.KeptIffMaximum | pkg/rtc/participant.go:2575-2587 | a packet is among the running maxima exactly if it exceeds the base and every packet before it |
| MigrationHandoff.InOrderIsAllForwarded | pkg/rtc/participant.go:2575-2587 | a publisher that resumes in order loses nothing |
| MigrationHandoff.StoppedForwardsNothing | pkg/rtc/participant.go:2516-2535 | a stopped node forwards nothing sequenced any more, whatever happens |
| MigrationHandoff.MigrationDataCache.Add | pkg/rtc/migrationdatacache.go:41-61 | the next state of the cache in each case: old, gap closing, cached, full or expired |
| MigrationHandoff.Publisher.HandleReceivedDataMessage | pkg/rtc/participant.go:2575-2587 | forwards a sequenced packet exactly if it is newer than all before |
| MigrationHandoff.Publisher.OnReceivedDataMessage | pkg/rtc/participant.go:2516-2573 | drops when stopped, else caches, handles all cached packets on timeout, or the packet itself |
| MigrationHandoff.Publisher.GetLastReliableSequence | pkg/rtc/participant.go:4636-4641 | returns the last number and stops the node when migrating out |
| MigrationHandoff.Publisher.SetMigrateStateComplete | pkg/rtc/participant.go:1794-1802 | starts waiting behind the handed-over number, unless there was none |
| Subscriptions.CountersAreExactAndLimited | pkg/rtc/subscriptionmanager.go:789-972 | over every run the video and audio counters are the numbers of live tracks of their kind and never pass a positive limit |
| Subscriptions.BecomesLiveIff | pkg/rtc/subscriptionmanager.go:806-866 | in every run a track becomes live with an event exactly if that reconciles it while desired and without a track, with no unsubscribe to wait for, permission to subscribe and to the track, the track found, room among the live tracks of its kind, and the subscriber added; and a live track stays live but for its close |
| Subscriptions.LiveWasGranted | pkg/rtc/subscriptionmanager.go:806-972 | a live track was made live by an event of the run that had these permissions, found the track and added the subscriber, under its kind and publisher |
| Subscriptions.BoundUntilClosed | pkg/rtc/subscriptionmanager.go:920-937 | a live track is bound from its bind on until its close |
| Subscriptions.DesiredUntilTakenBack | pkg/rtc/subscriptionmanager.go:545-590 | a track is desired from a subscribe request on until an unsubscribe, its source going, a clear, or a reconcile that gives up on a track not found for long; each other error is retried |
| Subscriptions.RemovalsAreThoseStarted | pkg/rtc/subscriptionmanager.go:974-992 | removals in flight are those a reconcile started for a live track not desired, less those that ran; one that runs begins the close |
| Subscriptions.OutcomesAreGranted | pkg/rtc/subscriptionmanager.go:856-972 | in every run a subscribe is recorded, revoked or answered "already subscribed" exactly if it is let in and AddSubscriber answers so |
| Subscriptions.ListedIffLive | pkg/rtc/subscriptionmanager.go:806-972 | throughout a run subscribedTo lists exactly the live tracks, each under its publisher, if and only if no subscribe of the run was answered "already subscribed" and none was revoked under way |
| Subscriptions.PublisherListedIffSubscribed | pkg/rtc/subscriptionmanager.go:1265-1301 | in such a run a publisher is in subscribedTo exactly while some track of theirs is subscribed |
| Subscriptions.AlwaysExactIff | pkg/rtc/subscriptionmanager.go:806-866 | only announced tracks are listed throughout exactly when no subscribe was answered "already subscribed" |
| Subscriptions.AlwaysAnnouncedIff | pkg/rtc/subscriptionmanager.go:898-972 | every live track is announced throughout exactly when no subscribe was revoked under way |
| Subscriptions.ListAndTracksCanDiffer | pkg/rtc/subscriptionmanager.go:806-866 | the two runs in which the list and the live tracks differ |
| Subscriptions.StatusAlternates | pkg/rtc/subscriptionmanager.go:1265-1301 | the status callbacks of each publisher alternate, and the last one tells whether it is listed |
| Subscriptions.OneEntryReplaced | pkg/rtc/subscriptionmanager.go:789-804 | replacing an entry changes the number of live tracks by what that entry was and is |
| Subscriptions.SubscriptionManager.MarkSubscribedTo | pkg/rtc/subscriptionmanager.go:1265-1282 | lists the track and reports only a publisher's first |
| Subscriptions.SubscriptionManager.UnmarkSubscribedTo | pkg/rtc/subscriptionmanager.go:1284-1301 | unlists it and reports only a publisher's last |
| Subscriptions.SubscriptionManager.SubscribeTrack | pkg/rtc/subscriptionmanager.go:806-866 | every refusal in its order and what it leaves of the entry, and what a subscribe that succeeds records |
| Subscriptions.SubscribeGives | pkg/rtc/subscriptionmanager.go:806-866 | what a subscribe leaves: a track exactly if it is let in and added, no error exactly if it is let in and added for good or there already |
| Subscriptions.SubscribeRefuses | pkg/rtc/subscriptionmanager.go:806-866 | each refusal exactly when it is given, and when the kind is noted |
| Subscriptions.SubscriptionManager.AddSubscriber | pkg/rtc/subscriptionmanager.go:898-972 | counts and records a track that was added, and begins to close it if the permission went away meanwhile |
| Subscriptions.SubscriptionManager.UnsubscribeTrack | pkg/rtc/subscriptionmanager.go:974-992 | starts a removal exactly if there is a track |
| Subscriptions.SubscriptionManager.HandleSubscribedTrackClose | pkg/rtc/subscriptionmanager.go:1039-1124 | clears the entry, uncounts and unlists it once, and wakes all subscriptions when a limit is relieved |
| Subscriptions.SubscriptionManager.ReconcileSubscription | pkg/rtc/subscriptionmanager.go:526-633 | the one move an entry needs: wait, subscribe, give up, unsubscribe or clean up |
| Subscriptions.SubscriptionManager.ReconcileSubscriptions | pkg/rtc/subscriptionmanager.go:511-524 | reconciles exactly the entries that need it, in whatever order the map yields them |
| Subscriptions.NoNeedNoChange | pkg/rtc/subscriptionmanager.go:511-524 | an entry passed over would not have been changed by a reconcile |
| Subscriptions.SubscriptionManager.SubscribeToTrack | pkg/rtc/subscriptionmanager.go:188-217 | the entry is desired and its keep-until window dropped |
| Subscriptions.SubscriptionManager.UnsubscribeFromTrack | pkg/rtc/subscriptionmanager.go:219-236 | the entry, if desired, is no longer, and is to be reconciled |
| Subscriptions.SubscriptionManager.UpdateSubscribedTrackSettings | pkg/rtc/subscriptionmanager.go:404-418 | settings that come before the subscribe keep the entry for a while |
| Subscriptions.SubscriptionManager.ClearAllSubscriptions | pkg/rtc/subscriptionmanager.go:272-299 | nothing is desired any more, and everything is to be reconciled |
| SubscriptionConvergence.Converges | pkg/rtc/subscriptionmanager.go:511-633 | after more fair rounds than a measure counts, in any interleaving of reconciles, removals and closes, each entry left is desired and subscribed, or only kept by its keep-until window |
| SubscriptionConvergence.FairRoundProgresses | pkg/rtc/subscriptionmanager.go:526-633 | a round that serves every entry lowers the measure unless everything is at rest |
| SubscriptionConvergence.ExecMeasures | pkg/rtc/subscriptionmanager.go:974-992 | no reconcile, removal or close ever raises the measure |
| SubscriptionConvergence.RestIsKeptForGood | pkg/rtc/subscriptionmanager.go:1660-1682 | once at rest, no further reconcile, removal or close disturbs it |
| SubscriptionConvergence.UnwantedIsHelped | pkg/rtc/subscriptionmanager.go:974-1124 | no round that serves a live track that is not desired is idle: its reconcile starts a removal, that one a close, or the close completes |
| SubscriptionConvergence.StaleIsHelped | pkg/rtc/subscriptionmanager.go:1039-1124 | no round that serves a desired track with a removal left over, or closing, is idle |
| SubscriptionConvergence.DesiredIsHelped | pkg/rtc/subscriptionmanager.go:806-866 | once nothing unwanted is live, no round that serves a desired track without a subscription is idle |
| SubscriptionConvergence.LeftoverIsHelped | pkg/rtc/subscriptionmanager.go:1437-1447 | no round that serves an entry neither desired, live nor kept any more is idle |
| SubscriptionConvergence.RoomForDesired | pkg/rtc/subscriptionmanager.go:789-804 | limits with room for everything desired never refuse a desired track when nothing unwanted is live |
| ReconcileQueue.QuietMeansServed | pkg/rtc/subscriptionmanager.go:728-787 | when the worker waits on an empty channel with the flag clear and no caller mid-call, every request event of the run has been followed by an event that reconciled that track or all |
| ReconcileQueue.UnservedIsUnanswered | pkg/rtc/subscriptionmanager.go:745-787 | in every run what is not served is exactly what has been requested and not been reconciled since, by an item for it or one of no subscription, a sweep or the ticker |
| ReconcileQueue.FlagSeenIffNoLateStore | pkg/rtc/subscriptionmanager.go:728-735 | the flag is always going to be looked at exactly when no caller stores it late |
| ReconcileQueue.LateStoreIsAChannelLate | pkg/rtc/subscriptionmanager.go:728-735 | a late store needs at least a channel's capacity of items taken since the caller found it full |
| ReconcileQueue.LateStoreStrands | pkg/rtc/subscriptionmanager.go:745-787 | the run in which a request is left with the flag set and nothing to wake the worker but its ticker |
| ReconcileQueue.WorkerServesAll | pkg/rtc/subscriptionmanager.go:745-787 | from any state whose flag will be seen the worker alone serves every request and ends quiet |
| ReconcileQueue.StepKeepsCovered | pkg/rtc/subscriptionmanager.go:728-787 | whatever happens, something is still on its way for every request not served |
| ReconcileQueue.WakeUps.TrySend | pkg/rtc/subscriptionmanager.go:728-735 | queues exactly if there is room |
| ReconcileQueue.WakeUps.SwapOverflow | pkg/rtc/subscriptionmanager.go:745-787 | reads and clears the flag at once |
| ParticipantUpdates.AcceptedIsAccountedFor | pkg/rtc/room.go:2264-2317 | over every run, message by message, what was accepted is what was sent, replaced or is queued; replaced only by the same session's no older update; what is sent was accepted |
| ParticipantUpdates.AcceptedIsNews | pkg/rtc/room.go:2264-2317 | over every run exactly those updates are accepted, in order, that were not outdated when they came: by a higher version of the session queued, by another session queued that did not join before, or by the room's own session having joined later |
| ParticipantUpdates.NewsGetsThrough | pkg/rtc/room.go:2264-2317 | and each of them, or one of its session that is no older, is queued or was sent, so the newest is |
| ParticipantUpdates.DroppedIffOutdated | pkg/rtc/room.go:2276-2305 | an update is dropped exactly if it is so outdated |
| ParticipantUpdates.SwitchIsSignalled | pkg/rtc/room.go:2283-2312 | over every run the synthesized disconnects sent are, in order and once each, exactly those of the sessions superseded while queued, each as it was but disconnected and immediately before its successor |
| ParticipantUpdates.OlderIsStrictTotal | pkg/rtc/room.go:2223-2251 | with millisecond join times set the comparison is a strict total order on sessions |
| ParticipantUpdates.CompareTellsLater | pkg/rtc/room.go:2223-2251 | the sign of the comparison tells which session joined later: by seconds, then milliseconds where both have them, then session id |
| ParticipantUpdates.OlderIsTransitiveUnlessCrossed | pkg/rtc/room.go:2232-2248 | the exact condition on any three sessions under which being older is transitive |
| ParticipantUpdates.OlderCanCycle | pkg/rtc/room.go:2232-2248 | three sessions that are older than one another in a circle |
| ParticipantUpdates.CompareIsAntisymmetric | pkg/rtc/room.go:2223-2251 | swapping the arguments negates the answer, and different sessions never compare equal |
| ParticipantUpdates.StringLessTransitive | pkg/rtc/room.go:2242-2248 | the order on session ids is transitive |
| ParticipantUpdates.StringLessTotal | pkg/rtc/room.go:2242-2248 | and total on different ids |
| ParticipantUpdates.StringLessIsLexicographic | pkg/rtc/room.go:2242-2248 | it is the lexicographic order |
| ParticipantUpdates.Room.PushAndDequeueUpdates | pkg/rtc/room.go:2264-2317 | what is queued and what is returned at once, for each of: outdated, replaced, superseded, immediate, queued |
| ParticipantUpdates.Room.Flush | pkg/rtc/room.go:1613-1623 | empties the queue and returns each entry once, in some order |
| ParticipantUpdates.Filter | pkg/rtc/room.go:2324-2341 | in order, everything, or everything but synthesized disconnects and duplicate identities |
| ParticipantUpdates.SendTo | pkg/rtc/room.go:2351-2356 | sends a prefix of the chunks, all of them unless the last one sent failed |
| ParticipantUpdates.SendParticipantUpdates | pkg/rtc/room.go:2319-2358 | each recipient gets, in order and in chunks that fit, the updates of its kind, all of them unless a send to it failed |
| ProtoBatch.ChunkProtoBatch | pkg/rtc/utils.go:181-199 | the chunks concatenate to the batch, none is empty, each fits or is one message, and none has room for the next message |
| ProtoBatch.FewestChunks | pkg/rtc/utils.go:181-199 | no other contiguous partition with fitting chunks has fewer |
| ProtoBatch.FullIsUnique | pkg/rtc/utils.go:181-199 | these properties determine the chunks |
| ProtoBatch.DropFront | pkg/rtc/utils.go:181-199 | what is left of a partition after dropping messages in front needs no more chunks |
| UpdateDelivery.NothingOfferedIsLost | pkg/rtc/participant_signal.go:77-127 | over every run until the participant is gone, each update offered is queued, or on its way from a flush, or in a batch, unless it is about a hidden other participant or a newer version was told or checked |
| UpdateDelivery.OpensFirstLosesNothing | pkg/rtc/participant_signal.go:42-127 | over every run nothing is written before the Join or Reconnect response and no batch twice, and each update offered is queued, on its way from a flush, judged, or dropped |
| UpdateDelivery.NothingStaysQueued | pkg/rtc/participant_signal.go:84-90 | over every run, once the response that opens the connection was sent and the participant is not gone, nothing is queued unless the handshake is pending or the flush that its end calls for has yet to run |
| UpdateDelivery.OnlyTheGoneMiss | pkg/rtc/participant_signal.go:79-82 | only an event after the disconnect drops anything |
| UpdateDelivery.ReadyIffOpen | pkg/rtc/participant.go:629-641 | in every run a participant is ready exactly if it is not gone and its Join response, or where it migrates its ReconnectResponse, was sent |
| UpdateDelivery.HandshakeIs | pkg/rtc/participant_signal.go:84-91 | the handshake is pending exactly if one was begun and has not ended |
| UpdateDelivery.EveryBatchIsWritten | pkg/rtc/participant_signal.go:124-126 | every batch checked is yet to be written, or its write has come |
| UpdateDelivery.BatchIsPart | pkg/rtc/participant_signal.go:92-123 | a batch is part of the updates it was checked from, in their order |
| UpdateDelivery.JoinIsRemembered | pkg/rtc/participant_signal.go:44-53 | the version of each participant the Join response lists is remembered |
| UpdateDelivery.CheckedInOrder | pkg/rtc/participant_signal.go:92-123 | while a participant stays in the cache, versions of its updates never fall in the order they are checked, from the Join response on |
| UpdateDelivery.RunIsFaithful | pkg/rtc/participant_signal.go:92-123 | in every reachable state the cache holds exactly the last version checked or told since the entry was evicted |
| UpdateDelivery.NoHiddenOthers | pkg/rtc/participant_signal.go:110-113 | no batch ever holds an update about another participant who is hidden |
| UpdateDelivery.EveryBatchWasReady | pkg/rtc/participant_signal.go:84-91 | every batch of a run was checked by an event that found the participant ready and its connection open |
| UpdateDelivery.WrittenWasReady | pkg/rtc/participant_signal.go:84-126 | and so nothing is ever written that was not |
| UpdateDelivery.WrittenInOrderIffNoneLate | pkg/rtc/participant_signal.go:124-126 | versions of a participant never evicted from the cache never fall in the order of writes exactly when no write of the run was late: none wrote an older version than one written before |
| UpdateDelivery.WriteKeepsOrderIff | pkg/rtc/participant_signal.go:124-126 | writing a batch keeps the order of the versions of a participant never evicted exactly if it is not late |
| UpdateDelivery.WritesInTurnAreInOrder | pkg/rtc/participant_signal.go:124-126 | versions of a participant never evicted are written in order whenever batches are written in the order they were checked |
| UpdateDelivery.WritesCanOvertake | pkg/rtc/participant_signal.go:124-126 | the run in which a newer version reaches the client first |
| UpdateDelivery.Participant.SendParticipantUpdate | pkg/rtc/participant_signal.go:77-127 | drops, queues, or yields exactly the updates neither outdated nor hidden and remembers their versions; its fields change as the run's step says |
| UpdateDelivery.CheckUpdates | pkg/rtc/participant_signal.go:92-123 | the loop over a batch, with evictions between its look-ups |
| UpdateDelivery.Participant.JoinTellsOf | pkg/rtc/participant_signal.go:44-53 | remembers the versions the Join response tells |
| UpdateDelivery.Participant.JoinResponseWritten | pkg/rtc/participant_signal.go:61-74 | a joining participant has joined, and the whole queue is handed on |
| UpdateDelivery.Participant.FlushQueuedUpdates | pkg/rtc/participant_signal.go:239-252 | the whole queue is handed on, and nothing else changes |
| UpdateDelivery.Participant.ReconnectResponseSentAndFlush | pkg/rtc/participant_signal.go:218-234 | the connection is open, and the whole queue is handed on |
| PendingTracks.EntriesHoldOneToThree | pkg/rtc/participant.go:3327-3384 | in every run each pending entry holds one to three tracks, which is what indexing the first one relies on |
| PendingTracks.AlwaysTwentyIff | pkg/rtc/participant.go:1463-1484 | there are at most twenty entries throughout a run if and only if no track migrates in under a client id not pending while twenty are |
| PendingTracks.StepIsBoundedIff | pkg/rtc/participant.go:3133-3152 | of up to twenty entries, every event but such a migration leaves up to twenty, and such a migration does not |
| PendingTracks.AtMostTwenty | pkg/rtc/participant.go:3133-3152 | without migration there are never more than twenty entries |
| PendingTracks.MigrationPassesTwenty | pkg/rtc/participant.go:1463-1484 | migration brings in any number of entries |
| PendingTracks.AddIsBounded | pkg/rtc/participant.go:3133-3152 | whatever the state, a request adds no entry or leaves at most twenty |
| PendingTracks.ReleasedStandsForNothing | pkg/rtc/participant.go:3014-3080 | from the request that releases it on, each id a track goes by (that of its entry, and those of its codecs, from signalling or SDP) stands for no entry, not even by kind, and media and offers under it change nothing, until a request let in (that one included) names one of them or 32 others have been released |
| PendingTracks.ReleasedByRequest | pkg/rtc/participant.go:3014-3098 | which of a request's timed-out tracks it was, the request leaves all ids the track goes by as one group with only those it released later after it |
| PendingTracks.ReleaseForgets | pkg/rtc/participant.go:3014-3070 | a release of a track that goes by no id changes nothing; else the track is gone from every entry and exactly the ids it went by are the newest group, the oldest of more than 32 gone |
| PendingTracks.GroupOfAreIds | pkg/rtc/participant.go:3014-3034 | the group is that of the keys of entries with the track and both kinds of ids of its codecs, but for the empty one |
| PendingTracks.ReaddingClearsTheGroup | pkg/rtc/participant.go:3086-3098 | a request let in that names one id of a released track makes all of its ids usable |
| PendingTracks.ReleasedAreBounded | pkg/rtc/participant.go:3059-3070 | at most 32 released tracks are remembered, each by ids that are not empty |
| PendingTracks.ReleaseTakesWholeEntries | pkg/rtc/participant.go:3938-3969 | tracks queued under one client id share their id, so a release takes whole entries and leaves the others untouched |
| PendingTracks.RunShares | pkg/rtc/participant.go:3938-3969 | in every run all tracks of an entry have one id |
| PendingTracks.Walk | pkg/rtc/participant.go:3014-3040 | in whatever order the entries are walked: what is left, exactly the ids the track goes by, and whether it was there |
| PendingTracks.PopulateCodecs | pkg/rtc/participant.go:3207-3295 | one codec for the client id, or the first simulcast codec of each mime type |
| PendingTracks.ParticipantTracks.ReleasePendingTrack | pkg/rtc/participant.go:3014-3056 | the track is gone from every entry, and all its ids are remembered as one group if it was there |
| PendingTracks.ParticipantTracks.AddReleasedTrackCids | pkg/rtc/participant.go:3059-3070 | the ids that are not empty become the newest group, the oldest of more than 32 goes |
| PendingTracks.ParticipantTracks.IsReleasedTrackCid | pkg/rtc/participant.go:3073-3080 | whether some group has the id |
| PendingTracks.ParticipantTracks.ClearReleasedTrackCids | pkg/rtc/participant.go:3086-3098 | exactly the groups the request names go, the others keep their order |
| PendingTracks.ParticipantTracks.AddPendingTrack | pkg/rtc/participant.go:3100-3400 | existing, rejected, queued or added, with room made first, and everything each of them leaves behind |
| PendingTracks.AddTrackAdds | pkg/rtc/participant.go:3100-3400 | what a request leaves: with twenty pending the timed-out go first; then it is turned away, or joins as the newest track of its client id, under the id of those before it |
| PendingTracks.CodecsAreFirsts | pkg/rtc/participant.go:3220-3295 | the codecs are exactly the first simulcast codecs of each mime type, in order |
| PendingTracks.ClearGroupsClears | pkg/rtc/participant.go:3086-3098 | exactly the groups go that have an id the request names |
| PendingTracks.ParticipantTracks.GetPendingTrack | pkg/rtc/participant.go:3877-3921 | finds the first track of an entry the id may stand for, and none exactly if there is none or it waits |
| PendingTracks.CandidatesStand | pkg/rtc/participant.go:3877-3921 | the entries an id may stand for: its own, else by a codec of the first track, else by kind, and none if it was released |
| PendingTracks.MediaTakesFirst | pkg/rtc/participant.go:3780-3797 | media takes the first track of an entry its id stands for unless that waits, and a migrated track is published from its own entry; nothing else is taken |
| PendingTracks.ParticipantTracks.AddMediaTrack | pkg/rtc/participant.go:3780-3797 | takes the first track; the entry goes, or the next track waits |
| PendingTracks.ParticipantTracks.PopulateSdpCid | pkg/rtc/participant_sdp.go:51-158 | the first codec of the entry the stream stands for takes its id, if it may |
| PendingTracks.ParticipantTracks.SetTrackMuted | pkg/rtc/participant.go:3441-3457 | exactly the pending infos of the track change, in whatever order the entries are walked |
| PendingTracks.ParticipantTracks.AddMigrated | pkg/rtc/participant.go:1463-1484 | a migrated track replaces what is pending under its client id |
| PendingTracks.ParticipantTracks.OnTrackClosed | pkg/rtc/participant.go:3813-3818 | the next track of the client id goes ahead and is the one announced |
| TrackSettings.LastWriteWins | pkg/rtc/subscribedtrack.go:344-397 | once settings have been followed by an apply and none is under way, the mute flag is theirs and an unmuted video track has the layers of these very settings |
| TrackSettings.SettingsAreLastGiven | pkg/rtc/subscribedtrack.go:212-233 | settings are the last ones given, but for a disabled flag cleared on binding an adaptive stream |
| TrackSettings.LayersAreLastEffective | pkg/rtc/subscribedtrack.go:374-396 | over every run the spatial layer is that of the last apply that took effect unmuted, the temporal layer that of the last one that computed any |
| TrackSettings.TemporalIsLatestIff | pkg/rtc/subscribedtrack.go:390-395 | with everything applied, the temporal layer is that of the latest settings exactly when they computed one or none had ever been set |
| TrackSettings.TemporalLayerStays | pkg/rtc/subscribedtrack.go:390-395 | the run in which the temporal layer of earlier settings stays |
| TrackSettings.RunKeepsInv | pkg/rtc/subscribedtrack.go:344-397 | the latest apply has its layers with it, or has left them on the down track |
| TrackSettings.SubscribedTrack.UpdateSubscriberSettings | pkg/rtc/subscribedtrack.go:319-338 | equal settings are skipped, others stored and applied, at once if the track becomes visible |
| TrackSettings.SubscribedTrack.Bound | pkg/rtc/subscribedtrack.go:193-234 | which settings a video track has after binding, and that they are then applied |
| TrackSettings.SubscribedTrack.ApplySnapshot | pkg/rtc/subscribedtrack.go:344-355 | supersedes every earlier apply, unless there are no settings |
| TrackSettings.SubscribedTrack.ComputeLayers | pkg/rtc/subscribedtrack.go:357-372 | layers of the snapshot, invalid for audio, temporal only for a frame rate |
| TrackSettings.SubscribedTrack.ApplyLayers | pkg/rtc/subscribedtrack.go:374-397 | changes nothing if superseded, else mutes by the current settings and sets the layers of the snapshot |
| TransportFallback.RegisterIsWindow | pkg/rtc/transportmanager.go:1022-1051 | after every run the register is exactly the last 32 reports since it was cleared, and its ones are the unstable ones |
| TransportFallback.EscalationIsEarned | pkg/rtc/transportmanager.go:1022-1051 | the loss path escalates exactly if it is in use, a quarter or more was lost, at least 20 reports of the window, this one included, were unstable, and signalling is recent, faster than the media path and below the threshold |
| TransportFallback.ShiftIsWindow | pkg/rtc/transportmanager.go:1027-1029 | shifting a bit in drops the oldest report of a full window |
| TransportFallback.AtMostOneIffSingle | pkg/rtc/transportmanager.go:824-931 | from a state just after a reset no continuation up to the next reset changes the preference twice, if and only if the decisions the reset caught are for one preference and no other can be decided on |
| TransportFallback.AtMostOneAfterReset | pkg/rtc/transportmanager.go:657-682 | the same after any run and any event that resets: by the decisions on their way when it came and the preference it leaves |
| TransportFallback.SingleWhereAllIsAllowed | pkg/rtc/transportmanager.go:858-889 | where every fallback is allowed: if and only if all of them go back to any type while the preference is TLS |
| TransportFallback.AtMostOneChange | pkg/rtc/transportmanager.go:824-931 | between resets at most one decision, and no more changes than that one and those a reset caught on their way |
| TransportFallback.ResetBetweenAllowsTwo | pkg/rtc/transportmanager.go:657-693 | the run with two automatic changes after a reset |
| TransportFallback.PreferencesAreEqualOrSet | pkg/rtc/transportmanager.go:925-930 | the two preferences differ only as they were last set from outside |
| TransportFallback.DecidesIff | pkg/rtc/transportmanager.go:824-912 | in every run a failure leads to a decision for a preference exactly if fallback is allowed, none was decided on or changed since the last reset, signalling is alive, the connection was short or another failure was counted within a minute, and that is where such a connection falls back to |
| TransportFallback.ReconfiguredIff | pkg/rtc/transportmanager.go:726-739 | the flag is set exactly if the preference was decided on or changed since the last reset |
| TransportFallback.GetNextFallsBack | pkg/rtc/transportmanager.go:850-889 | the one preference a failed connection falls back to, in each case |
| TransportFallback.RttsAreReported | pkg/rtc/transportmanager.go:1053-1077 | the signalling round-trip time is the last reported, the media one is smoothed |
| TransportFallback.SmoothingHalves | pkg/rtc/transportmanager.go:1069-1077 | a new round-trip time halves the distance from the average |
| TransportFallback.FailuresAreCounted | pkg/rtc/transportmanager.go:894-903 | count and time of the last failure are those of the failures since they were cleared |
| TransportFallback.TransportManager.ResetTransportConfigure | pkg/rtc/transportmanager.go:726-731 | failures and loss reports are forgotten |
| TransportFallback.TransportManager.ConfigureIce | pkg/rtc/transportmanager.go:733-764 | forgets failures on a reset or a change, and remembers that a change was automatic |
| TransportFallback.TransportManager.HandleConnectionFailed | pkg/rtc/transportmanager.go:824-912 | for each kind of failure, what is counted and what is decided |
| TransportFallback.TransportManager.ApplyDecision | pkg/rtc/transportmanager.go:925-930 | both preferences become the one decided on |
| TransportFallback.TransportManager.OnMediaLossUpdate | pkg/rtc/transportmanager.go:1022-1051 | shifts the report in, and escalates with a cleared register exactly when loss, round-trip times and signalling call for it |
| DataTrackStats.LossIsExact | pkg/rtc/datatrack_stats.go:60-82 | for packets numbered without wrap-around, each at or after the first, at most once and within half the space of the highest, losses are exactly the numbers missing up to the highest |
| DataTrackStats.LossStaysExactIff | pkg/rtc/datatrack_stats.go:60-82 | for packets never further than half the space from the highest, copies and numbers before the first among them, losses are exact throughout if and only if none comes exactly half the space behind and none that was not missed (a second copy of an older one, or one numbered before the first) comes while something is missing |
| DataTrackStats.AnyArrivalsExactIff | pkg/rtc/datatrack_stats.go:50-87 | any arrivals at all, numbered each nearest to the highest before it, are counted exactly throughout under that very condition |
| DataTrackStats.StepIsExactIff | pkg/rtc/datatrack_stats.go:65-82 | one packet up to half the space from the highest on either side, wherever the first one was, keeps the losses exact exactly if it is neither of these |
| DataTrackStats.SpanIsCovered | pkg/rtc/datatrack_stats.go:50-87 | for any arrivals at all packets and losses together cover the span of their numbers without wrap-around, from the first counted to the highest |
| DataTrackStats.ArrivalsAreNumbered | pkg/rtc/datatrack_stats.go:60-65 | any arrivals have such numbers, each the one nearest to the highest before it |
| DataTrackStats.HalfBehindMiscounts | pkg/rtc/datatrack_stats.go:70-82 | a packet exactly half the space behind passes for one ahead |
| DataTrackStats.CopyHidesLoss | pkg/rtc/datatrack_stats.go:70-75 | a second copy of an old packet passes for a missing one |
| DataTrackStats.EarlierHidesLoss | pkg/rtc/datatrack_stats.go:70-75 | so does a packet numbered before the first |
| DataTrackStats.DataTrackStats.Update | pkg/rtc/datatrack_stats.go:50-87 | every counter after a first, repeated, late or newer packet, and after the end |
| DataTrackStats.DataTrackStats.Close | pkg/rtc/datatrack_stats.go:89-93 | only the end time changes |
| SubscribePacer.LeastSchedule | pkg/rtc/subscribepacer.go:75-94 | the delays give the earliest schedule that keeps the pace: they keep it, and any schedule that does starts every subscribe no earlier, in whatever order the clock reads |
| SubscribePacer.StartsArePaced | pkg/rtc/subscribepacer.go:84-92 | any two starts are as far apart as the tokens between them take, less the burst, and none is early |
| SubscribePacer.WindowBound | pkg/rtc/subscribepacer.go:29-31 | at most (w + burst) / interval + 1 subscribes start in any window of length w |
| SubscribePacer.OneSecondAtOnce | pkg/rtc/subscribepacer.go:29-31 | of subscribes asked for together exactly one second's worth starts at once; the first alone at rates below one a second, all above a billion |
| SubscribePacer.BucketRefillsAtRate | pkg/rtc/subscribepacer.go:54-60 | the interval of a rate's bucket is the one whole number of nanoseconds a token takes at that rate, and its burst the rest of a second |
| SubscribePacer.TokenHeldBy | pkg/rtc/subscribepacer.go:86-91 | what holds a token back is one earlier subscribe and the tokens taken since |
| SubscribePacer.Pacer.Delays | pkg/rtc/subscribepacer.go:75-94 | every bucket loses a token in place, and the delays are those of the buckets under their rates and nothing else |
| SubscribePacer.NewSubscribePacer | pkg/rtc/subscribepacer.go:45-71 | no pacer exactly if no rate is positive, else one bucket for each positive rate, ascending, without repeats |
| SubscribePacer.MakeBuckets | pkg/rtc/subscribepacer.go:49-64 | the loop over the sorted rates yields these buckets |
| UserPacketDeduper.Deduper.IsDuplicate | pkg/rtc/user_packet_deduper.go:41-66 | answers as a window over the hundred ids accepted last, the zero id included, and keeps map, head and tail one chain of distinct ids |
| UserPacketDeduper.NoCycle | pkg/rtc/user_packet_deduper.go:57-64 | from any remembered id the links lead to the newest and never back |
| UserPacketDeduper.FollowsChain | pkg/rtc/user_packet_deduper.go:57-64 | following k links from an id leads to the one accepted k later |
| UserPacketDeduper.SameIdsFarApart | pkg/rtc/user_packet_deduper.go:50-66 | before an id is accepted again, at least a hundred others have been accepted |
| UserPacketDeduper.RefusedUntilPushedOut | pkg/rtc/user_packet_deduper.go:50-66 | whatever comes next, an accepted id is refused until a hundred ids have been accepted after it, and with the hundredth it is forgotten |
| OpusFmtp.RewrittenIs | pkg/rtc/participant_sdp.go:409-431 | the value is the payload type and, in order and as they are, exactly the parameters of another name than usedtx, stereo, none, and for stereo maxaveragebitrate, then what is asked for |
| OpusFmtp.KeyIsName | pkg/rtc/participant_sdp.go:414-415 | a parameter has a name exactly if, up to its first equals sign, it says that name in any case between blanks |
| OpusFmtp.ValueIsItsParts | pkg/rtc/participant_sdp.go:410-413 | the value is its payload type and its parameters between separators that do not occur in them |
| OpusFmtp.Idempotent | pkg/rtc/participant_sdp.go:409-431 | rewriting again with the same flags is the identity |
| OpusFmtp.LastRewriteDecidesIff | pkg/rtc/participant_sdp.go:409-431 | of two rewrites the second decides alone if and only if it does not turn stereo off, or the value had the bitrate of stereo as its last parameter and no other |
| OpusFmtp.BitrateOutlivesStereo | pkg/rtc/participant_sdp.go:417-421 | what is left when it does |
| OpusFmtp.OthersStay | pkg/rtc/participant_sdp.go:413-424 | all other parameters keep their text and order |
| OpusFmtp.FlagsAreAsAsked | pkg/rtc/participant_sdp.go:413-430 | usedtx and stereo occur only if asked for, and only as 1; for stereo the bitrate is the one set |
| OpusFmtp.AskedIsThere | pkg/rtc/participant_sdp.go:425-430 | what is asked for is there |
| OpusFmtp.ReadsBack | pkg/rtc/participant_sdp.go:409-431 | the rewritten value splits into the payload type and exactly the resulting parameters |
| OpusFmtp.SplitJoin | pkg/rtc/participant_sdp.go:413-431 | splitting undoes joining |
| OpusFmtp.RewriteOpusFmtp | pkg/rtc/participant_sdp.go:409-431 | the value described by these properties, and whether any parameter remains |

## Left out

- Retry intervals and deadlines of the signal sink: when a retry comes and whether the deadline has passed are inputs; sequence numbers do not wrap at 2^64.
- JoiningReplay.ExactlyOnce: addressing by participant SID and the nonce check before forwarding are not in this model, which addresses by identity or to all.
- JoiningReplay.MigratedStartsAfterLastReceived: leaves out the last 32-bit number, after which the start number wraps to zero and guards nothing.
- The slow-reader and buffer-full errors of the data channel: a message handed to it counts as written.
- Subscriptions: data-track subscriptions (their queue is the same as the modelled one with another capacity), the synchronous one-shot mode, which bypasses the limits, change notifiers, attempt counts and logging.
- The debouncer of subscriber settings: an apply may come at any later moment.
- How a wish turns into layers: the quality, dimension and frame-rate tables are a function parameter.
- The Settings object that binding changes in place and the pending-track entries reached through pointers are values here; sharing of the object by a snapshot is not captured, and the snapshot's use of it does not depend on the field that changes.
- PendingTracks: fields of TrackInfo other than id, kind, codecs and mute, and the table of publishing tracks, are not in this model. The choice of an alternative codec is an input.
- UpdateDelivery: updates about recently disconnected participants that a reconnect writes directly, bypassing the version cache, and errors returned by the writes.
- ParticipantUpdates: that a broadcast skips a hidden participant and tells the participant itself separately.
- TransportFallback: what 32-bit floating point makes of 1.3 times a round-trip time is a parameter; one clock reading serves a whole failure; passing the preference on to the peer connections.
- SubscribePacer: rates so small that the interval overflows 64 bits, the text of the rate labels, and Delays on the absent pacer, which answers nothing.
- OpusFmtp: white space and letter case beyond ASCII.
- DataTrackStats: the frame rate logged on close.
- pion/WebRTC, SCTP, SDP parsing, RTP and RTCP, psrpc, Redis, HTTP and WebSocket handling, telemetry, configuration and the command line.
