# AnyCable core, modelled and proved in Dafny

A model of the in-memory core of the AnyCable server: the memory broker (stream logs, presence,
session cache), the sharded hub and the node commands that drive it, a session's write queue and
timers, and the resume protocols built on top (session snapshots, Durable Streams tokens, SSE
event ids). `dafny verify dfyconfig.toml` checks everything.

Where the original mutates an object, the model is a class whose methods are proved against a
function on plain values: `View()` after the call equals the specification of `View()` before it.
The theorems about whole runs are lemmas over those specification functions. The clock, the
encoder, network outcomes, map iteration order and the controller's answers are parameters, so
every theorem holds for all of them.

| modules | part of the system |
|---|---|
| `RingQueue`, `SessionWrites` | circular write queue; sending, slow clients, disconnecting |
| `StreamLog`, `StreamHistory`, `MemoryBroker` | one stream's log; all runs of it; the broker that owns many |
| `Decimal`, `DurableStreams`, `ServerSentEvents`, `Reconnect` | number and string handling; catch-up tokens; SSE frames and event ids; reconnecting end to end |
| `Presence`, `PresenceSweep`, `PresenceRuns`, `PresenceTimes`, `PresenceIndex`, `PresenceKeepalive` | presence specification, sweep, runs, the meaning of a run, objects, keepalive timing |
| `HubState`, `SessionHub` | who listens to what as a flat relation; the sharded hub refining it |
| `Upstream`, `NodeState`, `NodeEffects`, `Node` | stream reference counts; commands as steps; what each step does; the objects running them |
| `SessionHeap`, `SessionCache`, `SessionKeepalive` | indexed binary heap; session cache with expiry; keepalive timing |
| `PingPong`, `StreamSync`, `RpcRetry` | session timers; backlog synchronizer; RPC retry loop |
| `SessionEnv` | state merges, snapshot and restore |

## Results where the code falls short of the obvious claim

Each is kept as the code has it, shown on inputs for which it fails, and delimited by an exact condition.

- A stream idle for more than ten TTLs is dropped and restarts at offset 1 in the same epoch, so a
  stale position can skip messages (`ForgottenStreamSkips`). Resuming is right if and only if no
  sweep came that late in between (`ResumeIffNeverIdle`).
- Index arithmetic on a replicated log with missing offsets skips messages (`GapSkipsMessages`),
  if and only if the entry at the computed index is not the requested offset (`FromIsSearchIff`).
- A controller reply that stops a stream the channel does not hold can unsubscribe a stream that
  others listen to (`ForeignStopIsPremature`); `StopEnoughIff` and `StopCutsOffIff` say exactly when
  counts stay sufficient and when a listener is cut off.
- Leaving a channel removes its rows but cancels nothing upstream, because the channel is removed
  before its streams are asked for (`UnsubscribeLeaks`). `UnsubscribeExactIff` says exactly when
  counts stay exact, and `LeakIsPermanent` that nothing later repairs them.
- A pong deadline that passes before authentication leaves the timers off (`EarlyPongStalls`); the
  timer is always armed if and only if that never happens (`ArmedIsLeastIff`), and it is off exactly
  until the client speaks (`SilentClientIsDropped`).
- A session id registered while it has rows loses its reverse list, whether it was registered before
  (`RegisteredTwiceStays`) or its commands came before it was authenticated (`SubscribedEarlyStays`):
  the lists keep covering the rows if and only if the id had no rows (`RegisterCoversIff`).
- Kinds and ids are written to SSE frames unescaped, so what follows a line break in a kind can be
  taken for an id (`KindIsReadAsId`); a stream of frames is read back as sent if and only if no kind
  or id contains a line break, nor an id NUL (`StreamIsReadIff`).
- The doc comment on `EncodeOffset` promises lexicographic order, but the tenth token sorts before the
  ninth (`TenthSortsFirst`). `TokenOrderIff` says exactly which tokens sort as their offsets do.
- A separator inside an epoch cuts it (`SeparatorCutsEpoch`), and a slash moves the rest of it into the
  stream name (`SlashMovesIntoStream`); tokens and event ids come back as made if and only if there is
  none (`DecodeEncodeIff`, `LastIdRoundTripIff`).
- A backlog wait that ends with a late message leaves its timer running, which can end the next wait
  early (`StaleTimerEndsEarly`). A wait's own timer ends it exactly 50 ms after the last message
  (`EndsOnTime`), and `EndsIff` lists everything that ends one.
- Keepalives half a TTL apart may be handled half a TTL late for presence, but a cached session needs a
  millisecond less (`LeewayIsTight`, `SparesIff`), since it is dropped in the very millisecond it expires.

## Model

| member | source | states |
|---|---|---|
| `NodeState.ListenedStreamsStaySubscribed` | node/node.go:417-657 | Over every run of authenticate, restore, subscribe, unsubscribe, perform and disconnect steps, with commands before or after authentication, whose replies stop only held, distinct streams and whose sessions are not registered over rows their new list does not lead to: each reference count is at least the number of hub rows of the stream, the broadcaster is subscribed to exactly the counted streams, and so to every stream with a local listener |
| `NodeState.SlackNeverShrinks` | node/node.go:548-610 | Along every such run the amount by which a stream's count exceeds its rows never decreases, for any stream, whatever step is taken |
| `NodeState.LeakIsPermanent` | node/node.go:887-933 | Once a stream is counted beyond its rows, the broadcaster stays subscribed to it for the rest of the run, even after every session is gone |
| `NodeState.ExactIffAlways` | node/node.go:1010-1045 | Counts equal rows at the end of a run if and only if they did at every moment of it |
| `NodeEffects.RestoredEffect` | node/node.go:441-460 | Restoring an open session takes over every cached channel with exactly its streams, keeps the others, adds a row for each channel and stream and no other, and raises each count by the number of channels using the stream |
| `NodeEffects.SubscribedEffect` | node/node.go:480-545 | Row by row and count by count: a confirmed subscription makes its channel with the streams started; a rejected or failed one makes none, though its reply's streams are started all the same |
| `NodeEffects.PerformedEffect` | node/node.go:613-657 | Row by row and count by count: an action changes its own channel as the reply says, and no other |
| `NodeEffects.UnsubscribedEffect` | node/node.go:548-610 | An acknowledged unsubscribe forgets the channel and its rows and cancels nothing; a failed one is handled like an action |
| `NodeEffects.DisconnectedEffect` | node/node.go:887-933 | A connected session takes all its rows with it and lowers each count by the number of its channels using the stream; an inactive or unauthenticated one only closes |
| `NodeEffects.DisconnectComesLast` | node/node.go:1014-1016 | A reply that disconnects acts first and disconnects last |
| `NodeEffects.IgnoredCommands` | node/node.go:480-500 | Commands without a result, of a closed session, to subscribe twice or on an unknown channel change nothing |
| `NodeEffects.ConnectedEffect` | node/node.go:405-415 | Authenticating connects an open session and touches no subscription |
| `NodeState.ReplySafe` | node/node.go:1010-1064 | Handling a reply, including one that disconnects, keeps counts sufficient, loses no slack, and keeps each connected session's channels backed by hub rows |
| `NodeState.DisconnectSafe` | node/node.go:887-933 | Cancelling every stream of every channel once never takes a count below the rows of the remaining sessions |
| `NodeState.RestoreSafe` | node/node.go:417-477 | Whatever is restored over whatever was there, counts stay sufficient, no slack is lost and the session's channels are backed by rows |
| `NodeState.StopEnoughIff` | node/node.go:1027-1035 | For any list of stopped streams whatsoever, counts stay sufficient if and only if no stream with other listeners is named more often than its count exceeds them |
| `NodeState.StopCutsOffIff` | node/node.go:1027-1035 | For any list of stopped streams, every listened stream is still subscribed upstream if and only if each stopped stream with other listeners is named less often than it is counted |
| `NodeState.ForeignStopIsPremature` | node/node.go:1027-1035 | A run of two sessions, with any names: a reply to the second stops a stream its channel does not hold, and the broadcaster is unsubscribed although the first still listens |
| `NodeState.UnsubscribeKeepsCounts` | node/node.go:548-610 | An acknowledged unsubscribe removes exactly the channel's rows and lowers no upstream count, whatever streams its reply starts |
| `NodeState.UnsubscribeLeaks` | node/node.go:584-610 | After open, authenticate, subscribe and acknowledged unsubscribe there are no rows and no channels, but the broadcaster is still subscribed to the stream |
| `NodeState.UnsubscribeExactIff` | node/node.go:548-610 | From exact counts, an acknowledged unsubscribe keeps them exact if and only if the channel has no rows and the reply starts distinct streams; when the reply also disconnects, if and only if it starts none and the other channels account for all rows of the session |
| `NodeState.SessionRowsCount` | node/node.go:919-933 | A session has as many rows for a stream as channels that use it, which is how often disconnecting cancels it |
| `NodeState.UsesCount` | node/subscription_state.go:50-69 | The multiset of streams over all channels counts, for each stream, the channels holding it |
| `Node.Node.constructor` | node/node.go:122-144 | A new node has no rows and no upstream subscriptions |
| `Node.Node.HandleCommandReply` | node/node.go:1010-1064 | The node's loops over stopped and started streams act on hub, counts and session as the reply's specification |
| `Node.Node.StopStreams` | node/node.go:1027-1035 | Stopping a list removes exactly its rows and lowers each count by its multiplicity |
| `Node.Node.StopAllStreams` | node/node.go:1018-1025 | Stopping all streams removes every row of the channel but lowers only the counts of the streams the session still lists |
| `Node.Node.StartStreams` | node/node.go:1037-1045 | Starting a list adds exactly its rows and raises each count by its multiplicity |
| `Node.Node.Subscribe` | node/node.go:480-545 | Subscribing, with its closed, duplicate, rejected and failed branches, is the specified step, also for a session not authenticated yet |
| `Node.Node.Unsubscribe` | node/node.go:548-610 | Unsubscribing, with its closed, unknown-channel and error branches, is the specified step, also for a session not authenticated yet |
| `Node.Node.Perform` | node/node.go:613-657 | Performing, with its closed, unknown-channel and error branches, is the specified step, also for a session not authenticated yet |
| `Node.Node.Authenticated` | node/node.go:405-415 | Registers and connects any session that is not closed, changing no subscription; the hub can still find every row if and only if the session is inactive or its id had none |
| `Node.Node.TryRestoreSession` | node/node.go:417-477 | Does nothing without a cached session or for a closed one; otherwise every cached channel is taken over as cached, with a row for each of its streams, and every row can be found if and only if the id's earlier rows are among the session's channels |
| `Node.Node.Resubscribe` | node/node.go:454-460 | The nested resubscription loops add all rows, list entries and counts of the snapshot, in any map order |
| `Node.Node.Disconnect` | node/node.go:887-916 | An inactive session, or one never authenticated, keeps its rows and counts; any other loses all rows, and each of its streams is cancelled once per channel |
| `Node.Node.CancelChannels` | node/node.go:919-933 | The loops over channels and streams lower each count by the number of channels using the stream, in any map order |
| `Node.SubscriptionState.AddChannelStream` | node/subscription_state.go:71-78 | Adds to a known channel, does nothing for an unknown one |
| `Node.SubscriptionState.RemoveChannelStream` | node/subscription_state.go:80-87 | Removes from a known channel, does nothing for an unknown one |
| `Node.SubscriptionState.RemoveChannelStreams` | node/subscription_state.go:89-108 | Empties the channel and returns each of its streams once |
| `Node.SubscriptionState.ToMap` | node/subscription_state.go:50-69 | Lists each stream of each channel once, in some order |
| `Upstream.StreamsTracker.Add` | broker/broker.go:102-112 | Counts up, and reports the first user |
| `Upstream.StreamsTracker.Remove` | broker/broker.go:123-137 | Counts down, reports the last user, ignores unknown streams |
| `Upstream.Gateway.SubscribeStream` | broker/memory.go:329-337 | The broadcaster's subscriptions stay exactly the counted streams |
| `Upstream.Gateway.UnsubscribeStream` | broker/memory.go:339-347 | The broadcaster's subscriptions stay exactly the counted streams |
| `Upstream.RaiseCounts` | broker/broker.go:102-112 | Many subscriptions raise each count by its multiplicity, whatever their order |
| `Upstream.LowerCounts` | broker/broker.go:123-137 | Many cancellations lower each count by its multiplicity, never below zero |
| `Upstream.SameCounts` | broker/broker.go:92-137 | Tracker and broadcaster are determined by the counts alone |
| `HubState.RunIsLive` | hub/hub.go:186-306 | Over every run with unique session ids, the rows are exactly the subscriptions made and not since undone by unsubscribing, leaving the channel or unregistering |
| `HubState.RegisterCoversIff` | hub/hub.go:186-204 | Registering an id keeps the reverse lists covering the rows if and only if the id had no rows |
| `HubState.RegisteredTwiceStays` | hub/hub.go:193-193 | Register, subscribe, register again, unregister: the row stays behind and no list leads to it |
| `HubState.SubscribedEarlyStays` | hub/hub.go:276-291 | Subscribe, register, unregister: a row made before registration stays behind as well |
| `HubState.ChannelLeavesNothing` | hub/hub.go:249-274 | Leaving a channel through the reverse list, duplicates and all, removes every row of it and nothing else |
| `HubState.UnregisterLeavesNothing` | hub/hub.go:206-247 | After a session is removed no row mentions it, and all other rows are kept |
| `HubState.UnsubscribeCovers` | hub/hub.go:41-52 | Removing only the first matching pair of the reverse list still leaves all remaining rows covered |
| `HubState.ListsShrink` | hub/hub.go:41-52 | The reverse lists hold nothing stale: leaving a channel clears all its pairs and no other, unsubscribing takes out one pair |
| `SessionHub.Hub.constructor` | hub/hub.go:94-110 | An empty hub of any pool size, with streams assigned by any function into the pool |
| `SessionHub.Hub.AddSession` | hub/hub.go:186-204 | Resets the session's list and files the session under its connection identifiers, touching no others |
| `SessionHub.Hub.SubscribeSession` | hub/hub.go:276-291 | Adds exactly one row to the flat relation, through the stream's own gate |
| `SessionHub.Hub.UnsubscribeSession` | hub/hub.go:293-306 | Removes exactly one row |
| `SessionHub.Hub.UnsubscribeSessionFromChannel` | hub/hub.go:249-274 | Removes the listed rows of the channel while the list is being spliced |
| `SessionHub.Hub.RemoveSession` | hub/hub.go:206-247 | Removes all listed rows, the list and the identifiers entry; unknown sessions change nothing |
| `SessionHub.Hub.StreamsSize` | hub/hub.go:178-184 | Summing gate sizes counts the distinct streams that have listeners |
| `SessionHub.Hub.BroadcastToStream` | hub/hub.go:308-310 | From any reachable hub, a broadcast sends exactly once to each row of its stream except those of the excluded socket, and to nobody else, with the message's data, position and type, and the stream named only together with an epoch |
| `SessionHub.Gate.Subscribe` | hub/gate.go:66-79 | Nested maps gain one row and no empty inner map |
| `SessionHub.Gate.Unsubscribe` | hub/gate.go:82-107 | Nested maps lose one row, leaving no empty inner map; absent rows change nothing |
| `SessionHub.Gate.Snapshot` | hub/gate.go:175-189 | Every session and identifier of the stream exactly once, in any iteration order |
| `SessionHub.Gate.Broadcast` | hub/gate.go:128-168 | Replies cached per identifier are those each row would get if built for it alone |
| `SessionHub.GateGains` | hub/hub.go:276-291 | A row entering one gate enters the union of all gates |
| `SessionHub.GateLoses` | hub/hub.go:293-306 | A row leaving its own gate leaves the union, since no other gate can hold it |
| `Presence.AddAgrees` | broker/memory.go:503-558 | Adding keeps the two indexes in agreement: a session holds a presence exactly when it is listed once under it, and nothing is empty |
| `Presence.RemoveHeld` | broker/memory.go:560-620 | Removing a held presence changes one cell and one hold, and decides a leave exactly for the last session |
| `Presence.RemoveUnheld` | broker/memory.go:560-592 | Removing a presence not held changes nothing, whichever error is reported |
| `Presence.RemoveEffect` | broker/memory.go:195-212 | After a removal the indexes agree, all other cells and holds are as before, and no deadline moved |
| `PresenceRuns.RunExplains` | broker/memory.go:503-620 | On every run of add, remove, touch and sweep the indexes agree and the events account for every appearance and disappearance |
| `PresenceRuns.Conservation` | broker/memory.go:526-557 | For each id of each stream, events strictly alternate starting with a join, the id is present if and only if joins exceed leaves by one, and the total counts exactly the present ids |
| `PresenceRuns.InfoIsLatest` | broker/memory.go:214-220 | The info recorded for a present id is that of the last accepted addition, whichever session made it |
| `PresenceTimes.PresenceIsAsTold` | broker/memory.go:503-797 | On every run a session holds a presence if and only if the operations say so: it joined there while holding no other presence, has not left since, and no sweep came more than a TTL after its last renewal, which is its first join or a later touch |
| `PresenceTimes.SweepEndsIff` | broker/memory.go:746-750 | A sweep ends a presence if and only if the session's last renewal lies more than a TTL back |
| `PresenceTimes.AddFailsIff` | broker/memory.go:503-530 | Joining fails exactly for a session that holds another presence on the stream, and further joins renew nothing |
| `PresenceTimes.SweepCanHappen` | broker/memory.go:740-789 | Whatever the state, there is an order in which a sweep can meet the expired presences |
| `PresenceSweep.SweepIsRemovals` | broker/memory.go:740-797 | Removing every presence of every expired session in any order ends in the swept state with one leave per id that vanished |
| `PresenceSweep.OrderIsIrrelevant` | broker/memory.go:746-787 | Two iteration orders give the same state and the same multiset of leave events |
| `PresenceSweep.VanishStep` | broker/memory.go:768-783 | Within a sweep a leave is decided exactly when an id loses its last session, and not twice |
| `PresenceIndex.PresenceState.PresenceAdd` | broker/memory.go:503-558 | Refines the specification; a mismatch error leaves the state unchanged although rows and holders are created first |
| `PresenceIndex.AddUnfolds` | broker/memory.go:503-530 | The row and holder made before the mismatch check are never left behind empty |
| `PresenceIndex.PresenceState.PresenceRemove` | broker/memory.go:560-620 | Refines the specification on any state, agreeing or not |
| `PresenceIndex.PresenceState.TouchPresence` | broker/memory.go:487-497 | Renews the deadline of a known session, ignores unknown ones |
| `PresenceIndex.PresenceState.PresenceInfo` | broker/memory.go:622-653 | The total is the number of present ids; records, when asked for, list each of them once with its info |
| `PresenceIndex.PresenceState.ExpirePresence` | broker/memory.go:740-797 | The nested loops perform the sweep for some order, with exactly the leave events of the ids that vanished |
| `PresenceKeepalive.SweepSparesTheLiving` | node/session.go:846-853 | With touches every half TTL handled less than half a TTL late, no sweep of any run takes a connected session's presence, nor a departed one's within a TTL of leaving |
| `PresenceKeepalive.RunCovers` | cli/session_options.go:28-31 | The deadline of every presence stays a TTL ahead of the session's last touch along every timely run |
| `PresenceKeepalive.TimerIsTimely` | node/session.go:933-936 | A session timer that fires on time never has the next keepalive overdue, which is what those runs ask for |
| `StreamHistory.ResumeExact` | broker/memory.go:140-163 | Over every run of broadcasts, transient broadcasts, evictions and sweeps, history from offset k succeeds if and only if k is between the lowest and the last retained offset, and then is exactly the messages sent after k, in order, numbered consecutively |
| `StreamHistory.ResumeLaterIff` | broker/memory.go:687-713 | A client resuming later from a position it was given gets exactly what it missed if and only if the log is still the one it was given |
| `StreamHistory.ResumeIffNeverIdle` | broker/memory.go:687-713 | With a clock that does not go back: it gets exactly what it missed if and only if no sweep in between came more than ten TTLs after the stream's last message |
| `StreamHistory.SameLogIff` | broker/memory.go:694-704 | A log is still the same one later if and only if no sweep came that late |
| `StreamHistory.ForgottenStreamSkips` | broker/memory.go:694-704 | A dropped stream restarts in the same epoch and an old position skips a message |
| `StreamHistory.RunTracks` | broker/memory.go:34-51 | At every point of every run the log holds a contiguous tail of the messages sent, each under its position |
| `StreamHistory.RetainedIff` | broker/memory.go:92-138 | A message can still be read if and only if it is among the newest `limit` and was within the TTL at the last sweep; the log itself is dropped by a sweep exactly when ten TTLs have passed since its last message |
| `StreamHistory.SinceIsByTime` | broker/memory.go:165-176 | With a clock that does not go back, reading since a time gives precisely the retained messages broadcast at that time or later, in order |
| `StreamHistory.AddKeeps` | broker/memory.go:92-107 | Appending evicts only beyond the limit |
| `StreamHistory.TickKeeps` | broker/memory.go:109-138 | Expiry cuts exactly the entries older than the TTL, a prefix since time does not go back |
| `StreamLog.StoreKeepsOrder` | broker/memory.go:53-78 | Storing a replicated message succeeds if and only if its offset is new, and offsets stay strictly increasing |
| `StreamLog.ReplicaOrdered` | broker/nats.go:598-615 | Every run of stores and sweeps, those that drop an idle stream included, leaves strictly increasing offsets with the low mark on the first |
| `StreamLog.ReplicaHolds` | broker/memory.go:53-78 | On every run a replica holds the last messages it accepted, at most the limit, each with its own time, offset and text; it accepts exactly the offsets newer than all before, and is dropped ten TTLs after the last arrival |
| `StreamLog.ExpireKeepsOrder` | broker/memory.go:109-138 | Cutting old entries keeps offsets increasing and the low mark right |
| `StreamLog.AppendOrdered` | broker/memory.go:92-107 | Appending a newer offset, with eviction, keeps offsets increasing and the low mark right |
| `StreamLog.FromInRange` | broker/memory.go:140-163 | A read succeeds exactly for positions in range, and the unsigned subtraction never wraps |
| `StreamLog.FromRefuses` | broker/memory.go:140-163 | Which refusal a reader gets: nothing retained, before all that is, or too far on |
| `StreamLog.SinceConcat` | broker/memory.go:165-176 | Reading since a time treats each entry on its own and keeps their order |
| `StreamLog.NeverRedelivers` | broker/memory.go:140-163 | With or without gaps, everything returned is newer than the position asked for |
| `StreamLog.FromIsSearchIff` | broker/memory.go:140-163 | Index arithmetic equals searching if and only if the entry at the computed index is the requested one |
| `StreamLog.GapSkipsMessages` | broker/memory.go:140-163 | After storing offsets 1, 5 and 6, reading from 2 skips 5, and reading from 5 is refused although 5 is held |
| `MemoryBroker.Independent` | broker/memory.go:655-713 | In a run over many streams each stream behaves as if it were alone |
| `MemoryBroker.MemStream.Add` | broker/memory.go:34-51 | Takes the next offset and appends |
| `MemoryBroker.MemStream.Insert` | broker/memory.go:53-78 | Refuses an offset not above the last, leaving the log alone |
| `MemoryBroker.MemStream.AppendEntry` | broker/memory.go:92-107 | Appends, evicts one entry beyond the limit, keeps the low mark and renews the deadline |
| `MemoryBroker.MemStream.Expire` | broker/memory.go:109-138 | The loop finds and cuts the whole stale prefix |
| `MemoryBroker.MemStream.FilterByOffset` | broker/memory.go:140-163 | The copying loop returns the computed suffix, with the three error cases |
| `MemoryBroker.MemStream.FilterByTime` | broker/memory.go:165-176 | The entries not older than the given time, in order |
| `MemoryBroker.MemStream.Peak` | broker/memory.go:80-90 | In an ordered log, the newest retained offset, zero standing for none and only for none |
| `MemoryBroker.Memory.HandleBroadcast` | broker/memory.go:306-320 | Appends to its stream only and stamps offset and epoch; transient messages pass unchanged |
| `MemoryBroker.Memory.Store` | broker/memory.go:406-422 | Inserts into its stream only; a refusal still leaves the stream created |
| `MemoryBroker.Memory.HistoryFrom` | broker/memory.go:349-378 | Succeeds if and only if the epoch matches, the stream exists and the position is readable, says which of these failed, and labels each message with stream and epoch |
| `MemoryBroker.Memory.HistorySince` | broker/memory.go:380-404 | Everything retained since a time; nothing for an unknown stream |
| `MemoryBroker.Memory.Peak` | broker/memory.go:424-439 | The newest retained position, if any |
| `MemoryBroker.Memory.FindOrCreate` | broker/memory.go:655-671 | Returns the stream's log, created empty if missing, with all others kept |
| `MemoryBroker.Memory.Sweep` | broker/memory.go:687-713 | Expires every stream and drops exactly those whose deadline passed, in any map order |
| `DurableStreams.ChainIsGapless` | ds/handler.go:144-164 | Along every chain of polls interleaved with broadcasts and sweeps, the messages received are one gapless run without repeats unless the idle stream was dropped, and the token never falls back to a start marker once something was received |
| `DurableStreams.ChainIsGaplessUnlessIdle` | ds/handler.go:144-164 | The client still counts from the current log if and only if no sweep since its first messages came more than ten TTLs after the last message, and then all it received is one gapless run |
| `DurableStreams.RespondFirst` | ds/handler.go:296-313 | A start marker yields everything retained and a token for the head |
| `DurableStreams.RespondLater` | ds/handler.go:296-313 | A position yields what was sent after it and a token for the head, a wait when there is nothing new, or a refusal exactly when history fails |
| `DurableStreams.ForeignEpochIsGone` | ds/handler.go:146-153 | A token of any other epoch is refused, whatever the log holds |
| `DurableStreams.ForeignTokenIsGone` | ds/handler.go:305-311 | So is any token whose epoch is not the broker's, or missing |
| `DurableStreams.BareNumberIsGone` | ds/handler.go:305-308 | A position without an epoch is refused |
| `DurableStreams.MalformedIsBad` | ds/ds.go:123-128 | A token that does not start with a 64-bit decimal is a bad request |
| `DurableStreams.MissingToken` | ds/ds.go:106-121 | Without a token a client starts from the beginning, but cannot wait for more |
| `DurableStreams.RespondNow` | ds/handler.go:301-304 | Asking for what comes now yields no message and the head's token, or a wait |
| `DurableStreams.HandleHTTP` | ds/handler.go:98-164 | The handler's successive reassignment of the tail computes that response |
| `DurableStreams.Fetch` | ds/handler.go:296-313 | Reserved tokens, missing and foreign epochs, and positions are dispatched as specified |
| `DurableStreams.DecodeEncodeIff` | ds/encoder.go:25-52 | Decoding undoes encoding if and only if the epoch does not contain the separator, or is empty with offset zero |
| `DurableStreams.SeparatorCutsEpoch` | ds/encoder.go:35-52 | An epoch that contains the separator comes back cut at the first one |
| `DurableStreams.EncodedIsNotReserved` | ds/encoder.go:25-38 | A token with an epoch is never mistaken for a start marker |
| `DurableStreams.SameToken` | ds/encoder.go:25-31 | Within an epoch, different offsets have different tokens |
| `DurableStreams.TokenOrderIff` | ds/encoder.go:23-31 | Of two tokens of an epoch, that of the smaller offset sorts first if and only if the successor of that offset, padded with zeros to the digits of the larger one, does not exceed it; so always among offsets with the same number of digits |
| `DurableStreams.TenthSortsFirst` | ds/encoder.go:23-31 | In every epoch the token of offset 10 sorts before that of offset 9 |
| `Decimal.ParseFormat` | ds/encoder.go:30-44 | Parsing an unsigned decimal undoes printing it, for all 64-bit values |
| `Decimal.NumeralOrderIff` | ds/encoder.go:23-31 | Unpadded numerals followed by a character above the digits sort as their values under exactly that condition |
| `ServerSentEvents.StreamIsReadIff` | sse/encoder.go:35-100 | A client between two events, following sections 9.2.5 and 9.2.6 of the WHATWG HTML standard, reads any sequence of frames as one event each, in order: the payload with CR, LF and CRLF as LF, its kind, its id or else the last one, and the reconnection time of a final disconnect; if and only if no kind contains a line break and no id a line break or NUL |
| `ServerSentEvents.FrameIsRead` | sse/encoder.go:35-100 | A single frame is read back as its one event if and only if it is clean in that sense |
| `ServerSentEvents.IncompletePosition` | sse/encoder.go:68-72 | A message without a complete position leaves the client's last id alone |
| `ServerSentEvents.KindIsReadAsId` | sse/encoder.go:60-66 | A message without an id, whose kind continues after a line break with an id field, is read as one with that id |
| `ServerSentEvents.ReconnectResumes` | sse/sse.go:130-150 | Whatever was sent before a message with a position, of any kind, and whatever without one after it, the id the client sends back names that offset, epoch and stream |
| `Reconnect.ReconnectGetsTheRestIff` | sse/sse.go:130-150 | A client whose last event was at offset k, whatever it read before and after, sends back that position and gets exactly the messages sent after it, if and only if no sweep in between came more than ten TTLs after the stream's last message |
| `ServerSentEvents.LastIdRoundTripIff` | sse/sse.go:130-150 | An id parses back to its position if and only if the epoch has no slash; the stream may have some |
| `ServerSentEvents.LastIdForms` | sse/sse.go:130-150 | What is understood as a position: two slashes with a 64-bit decimal before them; a bad number is an error, fewer slashes are ignored |
| `ServerSentEvents.SlashMovesIntoStream` | sse/sse.go:130-150 | An epoch with a slash comes back cut at the first one, the rest in front of the stream |
| `ServerSentEvents.JoinIsNormalised` | sse/encoder.go:84-100 | The lines of a payload rejoined with LF are the payload with its line breaks normalised |
| `ServerSentEvents.NormalisedBreaks` | sse/encoder.go:84-86 | CR LF is one line break, and so is either alone; all other characters are kept |
| `ServerSentEvents.WrittenIsText` | sse/encoder.go:60-81 | A frame is a sequence of complete lines ended by a blank one |
| `ServerSentEvents.Encode` | sse/encoder.go:35-82 | Building the payload by prepending and appending gives that frame; raw streams omit protocol messages |
| `RingQueue.Conservation` | utils/queue.go:38-175 | On every run of add, push, remove, clear and close, the items accepted are in order those that left followed by those still queued |
| `RingQueue.DoublingIsPow2` | utils/queue.go:201-213 | The capacities kept by the queue are exactly the initial one times powers of two |
| `RingQueue.CopiedOnce` | utils/queue.go:201-213 | The single copy of a resize keeps all items in order |
| `RingQueue.CopiedTwice` | utils/queue.go:201-213 | The two copies of a wrapped resize keep all items in order |
| `RingQueue.CounterPush` | utils/queue.go:89-92 | The 64-bit size stays the sum of the item sizes modulo wrap-around |
| `RingQueue.CounterPop` | utils/queue.go:163-167 | The 64-bit size stays the sum of the item sizes modulo wrap-around, although subtracting may wrap |
| `RingQueue.Queue.constructor` | utils/queue.go:26-33 | An empty open queue |
| `RingQueue.Queue.Add` | utils/queue.go:38-56 | Appends unless closed |
| `RingQueue.Queue.Push` | utils/queue.go:75-96 | Appends, refuses when closed, or empties the queue on overflow, keeping the load-factor invariant |
| `RingQueue.Queue.Remove` | utils/queue.go:157-175 | Takes the first item; the ring is halved if and only if the half is not below the initial capacity and the rest fits it, and the rest then fills it, so both copies are in bounds |
| `RingQueue.Queue.Moved` | utils/queue.go:201-213 | Resizing to any capacity that fits loses nothing and stays in bounds |
| `RingQueue.Queue.Clear` | utils/queue.go:119-133 | Empties the queue, and reopens a closed one |
| `RingQueue.Queue.Close` | utils/queue.go:100-108 | Empties and closes the queue |
| `SessionWrites.DisconnectOnce` | node/session.go:657-688 | On every run the executor's disconnect is called exactly when the session stops being connected, so at most once, and a session is declared slow at most once |
| `SessionWrites.PendingBounded` | node/session.go:721-737 | Until a slow client is declared, pending bytes stay below the limit plus one frame |
| `SessionWrites.OneCloseFrameLast` | node/session.go:487-519 | However a session is sent to, disconnected and written, at most one close frame reaches the connection, and it is the last frame |
| `SessionWrites.DrainsThenCloses` | node/session.go:487-505 | Once a disconnect is scheduled, exactly the pending frames and then the close frame are written, and the writer ends |
| `SessionWrites.DisconnectQueues` | node/session.go:570-591 | A disconnect that finds room queues its message, if it encodes, and then the close frame of its reason: 1001 for a restart, 1000 otherwise |
| `SessionWrites.OverflowQueues` | node/session.go:721-737 | After an overflow exactly the slow-client message and close frame 1000 are queued, and the session is closed and off the node |
| `SessionWrites.SentFrame` | node/session.go:721-737 | A frame overflows if and only if a limit is set and the pending bytes have reached it; otherwise it is appended, or dropped on a closed queue |
| `SessionWrites.CloseQueues` | node/session.go:570-574 | Disconnecting closes the session at once and queues its close frame behind what is pending |
| `SessionWrites.DisconnectedNow` | node/session.go:670-688 | Disconnecting at once throws away what is pending and writes its own close frame, for a connected session only |
| `SessionWrites.WrittenNext` | node/session.go:487-519 | Each turn writes the first frame; a close frame ends the writer, and so does a failed write, which disconnects a connected session with close frame 1006 |
| `SessionWrites.OverflowUnfolds` | node/session.go:721-737 | An overflow ends with exactly the disconnect message and the close frame queued: disconnecting cannot overflow again |
| `SessionWrites.Session.SendFrame` | node/session.go:721-737 | The mutual recursion of sending and disconnecting terminates, the limit being its measure, in the specified state |
| `SessionWrites.Session.SendMessage` | node/session.go:547-555 | Sends what the encoder produces, if anything |
| `SessionWrites.Session.DisconnectWithMessage` | node/session.go:576-591 | Message, then close frame, then leaving the node, even if the message itself overflows |
| `SessionWrites.Session.ScheduleDisconnect` | node/session.go:570-574 | Close frame, closed, and disconnected from the node |
| `SessionWrites.Session.DisconnectImmediately` | node/session.go:670-688 | Discards what is pending, once |
| `SessionWrites.Session.WriteNext` | node/session.go:487-519 | Writes the head; a close frame or a failed write ends the session |
| `SessionCache.CachedIffKeptAlive` | broker/memory.go:441-485 | Over every run, a session is cached if and only if it was committed and every later sweep came within a TTL of its last commit or touch |
| `SessionCache.RestoresLastCommit` | broker/memory.go:441-475 | A cached session is restored with what was committed last |
| `SessionKeepalive.SweepKeepsTheLiving` | node/session.go:837-844 | With touches every half TTL handled at most half a TTL less a millisecond late, no sweep of any run drops a connected session, nor a departed one within a TTL of leaving |
| `SessionKeepalive.SparesIff` | broker/memory.go:715-733 | An entry touched d nanoseconds before a sweep survives it, however the moments fall into milliseconds, if and only if d is at least a millisecond short of the TTL |
| `SessionKeepalive.LeewayIsTight` | cli/session_options.go:28-31 | A nanosecond later than that, and a sweep drops a connected session |
| `SessionCache.Store.CommitSession` | broker/memory.go:441-464 | Each cached session owns exactly one heap item, new or renewed |
| `SessionCache.Store.RestoreSession` | broker/memory.go:466-475 | Returns the cached data, or nothing |
| `SessionCache.Store.TouchSession` | broker/memory.go:477-485 | Renews a cached session, ignores others |
| `SessionCache.Store.ExpireSessionsCache` | broker/memory.go:715-733 | Popping due items terminates and drops exactly the sessions whose deadline has come |
| `SessionHeap.RootIsLeast` | utils/priority_queue.go:50-66 | In a heap nothing is before the first item |
| `SessionHeap.UpStep` | utils/priority_queue.go:34-38 | Moving an item up moves the one possible violation with it |
| `SessionHeap.DownStep` | utils/priority_queue.go:40-48 | Moving an item below its smaller child moves the one possible violation with it |
| `SessionHeap.PriorityQueue.Swap` | utils/priority_queue.go:68-72 | Exchanges two items and their indexes |
| `SessionHeap.PriorityQueue.PushItem` | utils/priority_queue.go:34-38 | Adds one item; heap order and every item's index hold |
| `SessionHeap.PriorityQueue.PopItem` | utils/priority_queue.go:40-42 | Takes out the first item and only it; heap order and indexes hold |
| `SessionHeap.PriorityQueue.Update` | utils/priority_queue.go:45-48 | A changed priority, up or down, is repaired from the item's own index |
| `SessionHeap.PriorityQueue.Peek` | utils/priority_queue.go:50-56 | None for an empty queue; in a heap, an item no other is before |
| `SessionHeap.PriorityQueue.LeastFirst` | utils/priority_queue.go:50-56 | No item is due before the one peeked at |
| `PingPong.ArmedIsLeastIff` | node/session.go:81-131 | In every punctual run, an open session's timer is armed for its least positive deadline throughout, if and only if no pong deadline passes before it is connected |
| `PingPong.EarlyPongStalls` | node/session.go:903-917 | A punctual run after which a connected session has no timer armed |
| `PingPong.NeverDroppedEarly` | node/session.go:871-917 | No session is ever dropped for missing pongs within the pong timeout of its last client message |
| `PingPong.SilentClientIsDropped` | node/session.go:803-835 | With pings on and no native pongs, an open session's timer is off if and only if a pong deadline passed before authentication and the client has not spoken since; unless so, the session is never open later than one and a half ping intervals plus the pong timeout after its client was last heard |
| `PingPong.StalledStaysOpen` | node/session.go:903-917 | A session in that state can stay open for any length of time |
| `PingPong.TouchesAreOnTime` | node/session.go:846-853 | In every punctual run, unless a pong deadline passes before authentication, an open session has touched its presence within the last interval |
| `PingPong.TouchesCatchUp` | node/session.go:925-936 | Otherwise a touch is overdue only while the session is stalled, or at the moment its client speaks again |
| `PingPong.HandshakeInTime` | node/session.go:355-375 | In every punctual run, unless a pong deadline passes before authentication, no session is open after its handshake deadline without being authenticated |
| `PingPong.ClosesIff` | node/session.go:903-946 | An open session is closed by its owner, a handshake deadline before authentication, a failed ping, or a pong deadline after it, and by nothing else |
| `PingPong.NextDeadlines` | node/session.go:772-897 | Where each deadline lies after each event |
| `PingPong.FirstDeadlines` | node/session.go:803-853 | The first ping comes after half to one and a half intervals, the first pong is due a timeout later |
| `PingPong.StepLive` | node/session.go:925-946 | Each event keeps the timer on the least deadline, except a pong deadline before authentication |
| `PingPong.LeastIsLeast` | node/session.go:81-123 | The chain of comparisons picks a least positive deadline, or none when all are off |
| `PingPong.SessionTimers.Schedule` | node/session.go:81-123 | Arms the timer for the least positive deadline, or stops it |
| `PingPong.TimedSession.constructor` | node/session.go:803-853 | Initial deadlines with jitter, and the timer armed |
| `PingPong.TimedSession.OnTick` | node/session.go:925-946 | Dispatch of a timer event, with pings that may fail to be written |
| `PingPong.TimedSession.OnMessage` | node/node.go:175-209 | A client message turns the awaited pong off before the command, so the reset after it leaves it off |
| `PingPong.TimedSession.ResetPong` | node/session.go:887-897 | A running pong deadline is prolonged, a stopped one stays off |
| `PingPong.TimedSession.OnNativePong` | node/session.go:887-901 | A native pong prolongs a running pong deadline, and is not a client message |
| `StreamSync.WaitsAreBounded` | broker/nats.go:909-966 | For any pattern of touches, removals and timer events, every wait channel is closed exactly once within 250 ms of opening, and only the latest can be open |
| `StreamSync.TimerFollowsTouches` | broker/nats.go:934-954 | The timer of an open wait is due 50 ms after the last message, however many came before |
| `StreamSync.EndsOnTime` | broker/nats.go:934-966 | So its own timer ends a wait exactly 50 ms after the last message |
| `StreamSync.EndsIff` | broker/nats.go:934-966 | An open wait ends with removal, with any timer, or with a message more than 200 ms after it was opened, and with nothing else |
| `StreamSync.StaleTimerEndsEarly` | broker/nats.go:934-966 | A run in which the timer of an earlier wait ends the next one after 5 ms |
| `StreamSync.StepKeeps` | broker/nats.go:932-966 | Each event keeps channels in order and in time, replaced timers firing all the same |
| `StreamSync.StreamSyncer.Touched` | broker/nats.go:934-954 | A touch opens, prolongs, or closes an overdue wait |
| `StreamSync.StreamSyncer.GoIdle` | broker/nats.go:956-966 | Closes an active wait, ignores an idle one |
| `RpcRetry.Retry` | rpc/rpc.go:532-613 | For any sequence of outcomes, each delay is the interval of its failure doubled per repetition; with a timeout, delays end within it, there are at most timeout / 10 ms + 1 of them and none overflows; the loop stops only for a final outcome or the timeout |
| `RpcRetry.RetriesBounded` | rpc/rpc.go:583-611 | However the failures alternate, the number of delays is bounded by the timeout, and the next delay fits a duration, also without a timeout as long as the time spent does |
| `RpcRetry.DelaysAre` | rpc/rpc.go:583-598 | The first delay is 10 ms when resources are exhausted and 100 ms when the server is unavailable, and doubles while the same failure repeats |
| `RpcRetry.DelayFits` | rpc/rpc.go:597-598 | A streak long enough to overflow would already have waited longer than any timeout |
| `RpcRetry.SpentSlept` | rpc/rpc.go:602-611 | Time spent is at least ten milliseconds per retry, and at least the sum of the current streak's delays |
| `SessionEnv.RestoreRoundTripIff` | node/session.go:606-651 | Restoring a snapshot into a fresh session reproduces identifiers, connection and channel state and subscriptions, if and only if no empty string was stored |
| `SessionEnv.RestoredFields` | node/session.go:621-651 | Restoring into any session: the snapshot's fields and subscriptions win, all else is kept |
| `SessionEnv.ResumedSessionIsTheSame` | node/session.go:606-651 | For every session built by merging replies the round trip holds |
| `SessionEnv.RunIsTidy` | common/common.go:121-150 | Whatever is merged or removed, no empty string is ever stored |
| `SessionEnv.FieldsAreLastWritten` | common/common.go:121-150 | Whatever is merged and removed, every connection and channel field is what was last written to it, unless deleted since |
| `SessionEnv.MergeFields` | common/common.go:121-146 | The merge loop, in any key order, deletes keys given as empty and writes all others |
| `SessionEnv.MergeIntoNothing` | common/common.go:121-129 | Merging into nothing is the identity exactly without empty strings |
| `SessionEnv.ResumableSession.MergeConnectionState` | common/common.go:121-129 | Merges connection fields and nothing else |
| `SessionEnv.ResumableSession.MergeChannelState` | common/common.go:134-146 | Merges one channel's fields, made if missing |
| `SessionEnv.ResumableSession.RemoveChannelState` | common/common.go:148-150 | Forgets one channel's fields |
| `SessionEnv.ResumableSession.ToCacheEntry` | node/session.go:606-619 | The snapshot lists each stream of each channel once |
| `SessionEnv.ResumableSession.RestoreFromCache` | node/session.go:621-651 | Merges the snapshot into any session, with subscriptions replaced channel by channel |

## Left out

- Goroutines, locks and channels: every public method is one atomic step, although `Memory.add`, `SubscribeSession` and the writer's wait-then-remove release their lock half way.
- `HistoryLimit` of zero and an initial queue capacity of zero, on which the original panics.
- More than 2^64 messages on one stream, and reference counts beyond 64 bits; the queue's size counter does wrap as in the original.
- Growth of the queue's capacity beyond the machine's `int`.
- JSON and FNV: a message body is a string, a snapshot is a record, and the shard index is any function into the pool.
- Presence entries are values in nested maps, not shared pointers; `presenceEntry` aliasing is therefore not modelled.
- Long-poll and SSE live delivery of Durable Streams, and the gap between fetching history and subscribing; a poll with nothing to return ends in a wait.
- Non-Durable-Streams history delivery on subscribe, whispers, pusher translation, authentication and signatures.
- `RpcRetry.Retry`: without a timeout, delays after the command has taken longer than 2^63 ns are unbounded numbers here and wrap in the original. The barrier, the readiness probe before each call and the error texts are not part of this model.
- `ServerSentEvents.StreamIsReadIff`: the byte order mark rule of the standard is not modelled, and `UnwrapData` only chooses the payload string.
- `PingPong.SilentClientIsDropped`: timers fire on time and handlers take no time, as a delay bound would only be added to the result.
- `PriorityQueue.Remove` of the heap, which the session cache does not use.
- The `lru` of the NATS broker, `EncodingCache` and `disconnectSessions`: easy members or behaviour that depends on configuration.
- Redis, NATS, gRPC and HTTP clients, command-line options, metrics, logging and telemetry.
