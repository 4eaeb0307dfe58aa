# CrowdyCPP: a verified model of its protocol cores

This project models the parts of CrowdyCPP where behaviour is hard to see from one function: the
client replicas and state machines that have to survive lost, late and repeated messages, the
lock-free hand-off between threads, the binary codecs, and the exact arithmetic underneath. Each
module follows one component of the source.

| module | component |
|---|---|
| KitMirror, KitPrivateState | replicas of hub state (`src/kit/mirror.cpp`) |
| Exec | the ck-exec connection (`src/domains/exec.cpp`) |
| SubscriptionClient | the GraphQL subscription client (`src/graphql/subscription_client.cpp`) |
| MsgPack, Base64, Utf8, Clock | codecs, validators and calendar (`src/graphql/json.cpp`, `src/core`, `src/studio/diagnostics.cpp`) |
| Spsc, Wake, Bundler | the notification ring, the wake-up flag, the send bundler (`include/crowdy/core/spsc.hpp`, `src/replication/connection.cpp`) |
| Pacer, KitSubscriptions, Topology | the kit runtime's budget and subscriptions, the starter plan (`src/kit`) |
| Options, Bytes, Division, Numbers, Sequences | what several modules share |

For a component with state, functions say what each handler does to the state as a value, and lemmas
prove what every run of such steps keeps. Where a handler loops, or recurses, or works on a buffer, it
is also written as a method on the fields of the source, with the source's loops, and its contract
says what it leaves behind; handlers that only branch and assign are modelled on values alone. In Spsc
and Wake the class is the code run by one thread at a time, and the steps of a run are the same code
cut at each access.

Runs are interleavings. In Spsc and Wake every atomic access and every callback is a step; in KitMirror,
KitPrivateState, SubscriptionClient and KitSubscriptions every critical section is one, and what a
thread still has to do after leaving a lock is kept as a task that may run at any later time; in Exec
every handler is one. Sockets, timers, callers, clocks and random numbers are events or parameters that
may take any value.

## Where the code falls short of what one might expect

Each of these is a lemma here, or several: the run or input that shows it, and the condition for it.

- A mirror whose resync call fails after a gap reports a seq whose state it does not hold
  (`GapThenFailedCallLeavesMirrorWrong`); in all other cases it agrees with the hub
  (`MirrorAgreesInEveryRun`).
- A Snapshots mirror can hold an older snapshot than its seq says, for good and without asking
  (`AnEventCanHideASnapshot`): exactly if a message that is no snapshot moved its seq over one
  (`SnapshotIsLastIffNoneJumped`).
- A mirror can move back to an older position (`AMirrorCanMoveBack`): a push moves it back exactly if it
  is an older epoch's snapshot (`AppliedMovesBackIff`), an answer exactly if it and the buffered messages
  that count are from before the mirror's position (`AnswerMovesBackIff`), and nothing else does
  (`PositionNeverMovesBackIff`).
- With reconnect off, a connect can wait for nothing (`WithoutReconnectAConnectCanHang`): exactly when a
  socket made after the first open is lost before it opens (`ConnectBeginsToHangIff`). With reconnect
  on it never does.
- A request whose 32-bit id is still pending is dropped silently, and only such a request
  (`RequestIsTrackedIffRidIsFree`); the request that has the id is sent again instead
  (`TakenRidSendsAgain`). The ids do come round (`ARidCanComeRound`).
- After a reconnect a topic can have a second subscribe pending (`ATopicCanBeSubscribedTwice`): exactly if
  a caller's own was still waiting (`EachTopicIsRenewedOnce`).
- The acknowledgement timeout can end a connection that has been acknowledged meanwhile
  (`AReadyConnectionCanTimeOut`): exactly if the timer had found that generation overdue before the
  acknowledgement was handled (`LateTimeoutEndsReadyIff`).
- A subscription's next message can be posted after its error (`ACallbackCanFollowTheEnding`): at most
  one, and only if the event thread had it in flight when the error was posted (`OperationsEndOnce`).
- The subscription client can be Idle with live operations (`AnOperationCanBeLiveWhileIdle`):
  `IdleWithOperationsIff` says when that begins and ends.
- The wake-up callback is documented to come at most once between two polls; it can come twice, exactly
  if a producer had set the flag and not yet called back when the poll began
  (`CalledTwiceIffCallCarriedOver`, `ACallCanBeCarriedOver`).
- Closing the kit can leave a subscription on a connection that was handed in
  (`ASubscriptionCanBeLost`), or give one back twice (`ASubscriptionCanBeGivenBackTwice`):
  `CloseGivesBackOnceUnless` says exactly which.
- A value packed as MessagePack does not come back if a length in it is 2^32 or more, or if it is nested
  more than 64 deep, and only then (`ComesBackIff`); an integer held as signed and not negative comes
  back as unsigned (`NormIsIdentityOnCanonical`).
- A lone message whose own type byte is that of a bundle is taken apart by the receiver
  (`DatagramCarriesItsMembers`).
- The pacer cuts a hold's remaining time to whole milliseconds, so a retry can come too early once
  (`HeldWaitEndsTheHoldIff`, `TwoHeldWaitsEndTheHold`).
- A calls entry that is no string is dropped by the plan's filter (`FilterChangesNothingIff`).
- `parseIso8601Millis` returns 0, its failure value, for a readable stamp too: exactly the epoch
  (`ParsedIsZeroIffEpoch`). It also accepts months and days up to 99 and any separators, and ignores a
  time zone offset; the model does the same.

## Model

| member | source | states |
|---|---|---|
| KitMirror.MirrorAgreesInEveryRun | src/kit/mirror.cpp:52-205 | with pushes lost, repeated and reordered, a Collection mirror with a snapshot holds the fold of the hub's log at its own epoch and seq, or a snapshot call is in flight or owed, or the last one failed; and it holds it whenever no change was skipped since the last snapshot |
| KitMirror.ApplyKeepsAgreement | src/kit/mirror.cpp:82-117 | a published message keeps agreement with the hub, unless it jumps over a change, and then a snapshot is asked for |
| KitMirror.SyncReachesTheTop | src/kit/mirror.cpp:175-205 | for any arrival order, repeats and older messages, a successful sync ends at the highest seq received; it asks again if and only if a seq is unaccounted for, and otherwise holds the hub's state there |
| KitMirror.CoveredSyncNeedsOneSnapshot | src/kit/mirror.cpp:145-205 | buffered pushes that cover every seq after the snapshot's need no second snapshot and end in the hub's state |
| KitMirror.SortSorts | src/kit/mirror.cpp:175-205 | the buffered messages are replayed in non-decreasing seq, none lost or added |
| KitMirror.GapThenFailedCallLeavesMirrorWrong | src/kit/mirror.cpp:82-205 | a run that ends idle, owing nothing, and not in the hub's state |
| KitMirror.SnapshotIsLastIffNoneJumped | src/kit/mirror.cpp:82-117 | in every run a Snapshots mirror holds a snapshot of the hub, and it is the last one at or below its seq if and only if no other message moved the seq over a snapshot since |
| KitMirror.AnEventCanHideASnapshot | src/kit/mirror.cpp:105-116 | a run that ends idle, owing nothing, no call failed, and with an older snapshot than the hub's last at that seq |
| KitMirror.AppliedMovesBackIff | src/kit/mirror.cpp:82-93 | a message moves the position back if and only if it is a snapshot of an older epoch |
| KitMirror.AnswerMovesBackIff | src/kit/mirror.cpp:175-205 | whatever was buffered, of whatever epochs, an answer moves the position back if and only if the epoch of the last snapshot in order of seq, or else the answer's, is older; or it is the mirror's and every seq of it that counts is below the mirror's |
| KitMirror.PositionNeverMovesBackIff | src/kit/mirror.cpp:82-205 | in every run the position is nowhere behind an earlier one if and only if no applied push is an older epoch's snapshot and no answer is from before the mirror's position |
| KitMirror.AMirrorCanMoveBack | src/kit/mirror.cpp:82-205 | runs that move back to an older epoch by a late push, and to an older seq of the same epoch by a late answer |
| KitMirror.TopicMirror.TakeSnapshot | src/kit/mirror.cpp:52-64 | the members become exactly those of the snapshot |
| KitMirror.TopicMirror.Apply | src/kit/mirror.cpp:82-117 | the code does what the replica's step function says, the requests to resync and notify included |
| KitMirror.TopicMirror.Synced | src/kit/mirror.cpp:175-205 | the snapshot is taken, then the sorted buffer is applied; a failed call applies nothing |
| KitPrivateState.RefreshesAreServed | src/kit/mirror.cpp:385-433 | never two reads in flight; each refresh is answered at most once and only by a read that began after it; none waits with no read under way |
| Exec.PendingRequestsAreUnderWay | src/domains/exec.cpp:358-398 | in every run: while open each pending request was queued on the current generation, else it waits with generation 0; a pending request has an open connection, a dial or a due reconnect; none is pending once closed; at most one dial or live socket |
| Exec.EveryRequestIsAnsweredOnce | src/domains/exec.cpp:374-398 | in every run each request with a callback is pending or answered, never both and never twice; a frame is queued once, a Call's twice at most and only after a Moved or a loss |
| Exec.PassKeepsTracked | src/domains/exec.cpp:788-856 | any loop over the pending table whose verdicts are lawful keeps each request tracked |
| Exec.EachTopicIsRenewedOnce | src/domains/exec.cpp:664-700 | after a reopening each held topic has exactly one renewal pending, on the new generation, and one subscribe in all if and only if no caller's own was waiting |
| Exec.LostSettles | src/domains/exec.cpp:788-831 | after a loss every pending request waits for the next connection, and without reconnect none is pending |
| Exec.TopicsAreHeldByHandlers | src/domains/exec.cpp:400-431 | in every run handles and topics name each other and no topic is held by nobody |
| Exec.RequestIsTrackedIffRidIsFree | src/domains/exec.cpp:374-398 | a request is pending or answered afterwards if and only if its id was not already pending |
| Exec.TakenRidSendsAgain | src/domains/exec.cpp:374-398 | a request made with a pending id queues the frame of the request that has it once more, however often that was sent |
| Exec.ARidCanComeRound | src/domains/exec.cpp:512-542 | a reachable state in which the next id is still pending; the request made there is neither pending nor answered, and the older one is queued twice with no loss and no Moved |
| Exec.ATopicCanBeSubscribedTwice | src/domains/exec.cpp:664-700 | a reachable open state with two subscribes pending for one topic |
| Exec.ConnectsNeverHangWithReconnect | src/domains/exec.cpp:358-372 | with reconnect on, in every run a waiting connect has a dial, a socket or a reconnect under way |
| Exec.ConnectBeginsToHangIff | src/domains/exec.cpp:788-831 | a connect begins to wait for nothing if and only if reconnect is off and a socket made after the first open is lost before it opens |
| Exec.WithoutReconnectAConnectCanHang | src/domains/exec.cpp:788-831 | a reachable state in which a connect waits for nothing |
| Exec.Sweep | src/domains/exec.cpp:788-856 | one loop over the pending table keeps, changes and answers the entries in order |
| Exec.ExecConnection.OnOpen | src/domains/exec.cpp:664-700 | the code opens as the model does, keeps the invariant, and leaves every pending request on the opened generation |
| Exec.ExecConnection.LoseLocked | src/domains/exec.cpp:788-831 | the code loses a connection as the model does: unretried Calls requeued, internal requests dropped, the rest failed |
| Exec.ExecConnection.Close | src/domains/exec.cpp:473-491 | nothing is pending afterwards |
| Exec.ExecConnection.TimerTick | src/domains/exec.cpp:904-932 | nothing pending is past its deadline afterwards; a due reconnect dials when nothing else does |
| SubscriptionClient.OperationsEndOnce | src/graphql/subscription_client.cpp:904-1102 | in every interleaving an operation gets at most one error or complete; one neither live nor cancelled has its ending posted or about to be; a callback follows the ending only if it was in flight then, so at most one |
| SubscriptionClient.SubscribedOncePerGeneration | src/graphql/subscription_client.cpp:862-1026 | within a generation an operation is subscribed at most once, and while ready every live one is subscribed, on its way, or about to end |
| SubscriptionClient.PhasesHaveOperations | src/graphql/subscription_client.cpp:413-514 | every phase but Idle has operations; attempts stay within the limit; nothing is left after shutdown |
| SubscriptionClient.IdleWithOperationsIff | src/graphql/subscription_client.cpp:459-479 | the client is Idle with operations from an accepted subscribe in Idle until the next start or move or until the operations are gone, and at no other time |
| SubscriptionClient.AnOperationCanBeLiveWhileIdle | src/graphql/subscription_client.cpp:459-479 | a reachable state that is Idle with an operation |
| SubscriptionClient.StaleEventsDoNothing | src/graphql/subscription_client.cpp:637-763 | a run and the run without the events of other generations end in the same state |
| SubscriptionClient.GenerationsMoveOn | src/graphql/subscription_client.cpp:1104-1110 | a generation that is over never comes back, nor does a client that was shut down |
| SubscriptionClient.ACallbackCanFollowTheEnding | src/graphql/subscription_client.cpp:904-940 | a reachable state in which a next message was posted after the error, by a write of another operation that failed |
| SubscriptionClient.LateTimeoutEndsReadyIff | src/graphql/subscription_client.cpp:616-627 | in every run an acknowledgement timeout that comes once the client is ready ends the connection if and only if the timer found that same generation overdue; with no reconnects allowed every operation then ends, otherwise the client backs off |
| SubscriptionClient.AReadyConnectionCanTimeOut | src/graphql/subscription_client.cpp:616-627 | a reachable state that is ready with its own generation found overdue |
| SubscriptionClient.ReconnectBase | src/graphql/subscription_client.cpp:1186-1198 | the base delay is the initial delay doubled for each further attempt, up to the maximum |
| SubscriptionClient.ReconnectDelay | src/graphql/subscription_client.cpp:1186-1208 | the delay is within 0 and the maximum, within half a millisecond of the jittered base unless capped, and the base itself without jitter |
| SubscriptionClient.BaseDelayGrows | src/graphql/subscription_client.cpp:1186-1198 | later attempts never wait less |
| SubscriptionClient.StopAll | src/graphql/subscription_client.cpp:1210-1231 | the loop over operations switches off exactly those |
| SubscriptionClient.EndAll | src/graphql/subscription_client.cpp:1210-1231 | the loop over operations makes an error due for exactly those |
| SubscriptionClient.Client.Shutdown | src/graphql/subscription_client.cpp:483-514 | nothing is live afterwards, and what was live is cancelled |
| SubscriptionClient.Client.FailOperations | src/graphql/subscription_client.cpp:1210-1231 | nothing is live afterwards, what was live is switched off with its error due, and the generation ended |
| SubscriptionClient.Client.HandleAcknowledgement | src/graphql/subscription_client.cpp:862-902 | in the handshake every live operation becomes due for replay; outside it all fail |
| MsgPack.ComesBackIff | src/graphql/json.cpp:489-515 | fromMsgpack gives back a packed value, integers in canonical form, if and only if every length in it is below 2^32 and it is nested at most 64 deep |
| MsgPack.RoundTrip | src/graphql/json.cpp:489-515 | within those lengths the result is the value if it is nested at most 64 deep, and a failure otherwise |
| MsgPack.ValueRoundTrip | src/graphql/json.cpp:257-484 | an encoding followed by any bytes decodes to the value and leaves exactly those bytes |
| MsgPack.LongIsLost | src/graphql/json.cpp:299-366 | a length of 2^32 or more anywhere in a value keeps it from coming back, whatever follows |
| MsgPack.EncodingsAreSelfDelimiting | src/graphql/json.cpp:257-366 | no encoding is a proper prefix of another |
| MsgPack.NormIsIdentityOnCanonical | src/graphql/json.cpp:261-297 | a value comes back unchanged if and only if its integers are held the way JSON text gives them |
| MsgPack.Packer.PackVal | src/graphql/json.cpp:328-366 | the buffer grows by the encoding of the value, nothing before it changes |
| MsgPack.Unpacker.ReadValue | src/graphql/json.cpp:426-484 | the cursor ends where the value ends, or ok is cleared exactly when the bytes hold no value |
| MsgPack.ToMsgpack | src/graphql/json.cpp:489-497 | the text is the encoding of the value |
| MsgPack.FromMsgpack | src/graphql/json.cpp:499-515 | the whole input must be one value |
| Base64.RoundTrip | src/core/base64.cpp:9-70 | every byte string comes back from the padded standard and the unpadded URL-safe text, although the accumulator overflows |
| Base64.RoundTripWith | src/core/base64.cpp:9-70 | the same for each alphabet with and without padding |
| Base64.SextetsDecode | src/core/base64.cpp:53-70 | the decoder's loop undoes the grouping into sextets from any state of the accumulator |
| Base64.BreaksAreIgnored | src/core/base64.cpp:53-70 | padding and line breaks may stand anywhere |
| Base64.EncodeWith | src/core/base64.cpp:9-37 | the loop gives the encoding |
| Base64.Decode | src/core/base64.cpp:53-70 | the loop gives the decoding, or nothing for a foreign character |
| Utf8.ReadsIffUtf8 | src/studio/diagnostics.cpp:19-49 | reading from the left accepts exactly the strings of the grammar in section 4 of RFC 3629 |
| Utf8.ValidUtf8 | src/graphql/subscription_client.cpp:27-64 | the value-based validator accepts exactly the strings of that grammar |
| Utf8.CheckSequence | src/graphql/subscription_client.cpp:35-61 | checking tails and value accepts exactly the multi-byte characters |
| Utf8.ValidSequence | src/studio/diagnostics.cpp:27-49 | the second-byte table accepts exactly the same characters |
| Utf8.EncodingIsUtf8 | src/graphql/subscription_client.cpp:27-64 | the encoding of any sequence of Unicode scalar values is accepted |
| Utf8.Utf8IsEncoding | src/graphql/subscription_client.cpp:27-64 | every accepted string is the encoding of a sequence of Unicode scalar values |
| Utf8.SanitizedIffUtf8 | src/studio/diagnostics.cpp:51-74 | sanitising gives UTF-8, and changes nothing if and only if the input was UTF-8 |
| Utf8.SanitizeUtf8 | src/studio/diagnostics.cpp:51-74 | the same of the code, for the first 1 MiB of the input |
| Utf8.TruncateUtf8 | src/studio/diagnostics.cpp:76-90 | the result is a prefix within the bound; of UTF-8 it is the longest prefix that is UTF-8 |
| Spsc.RingIsAFifoQueue | include/crowdy/core/spsc.hpp:19-44 | in every interleaving, with counters that wrap, the items delivered are a prefix of those accepted, at most a capacity behind, every slot index is in bounds, and no slot is read and written at once |
| Spsc.RefusedOnlyWhenFullOrEmpty | include/crowdy/core/spsc.hpp:27-44 | a push is refused if and only if the ring is full, a pop if and only if it is empty |
| Spsc.NoSlotIsReadAndWritten | include/crowdy/core/spsc.hpp:31-41 | the slot about to be written is not the one about to be read |
| Spsc.MaskIsRemainder | include/crowdy/core/spsc.hpp:19-31 | masking a counter is its remainder by the capacity |
| Spsc.SpscRing.constructor | include/crowdy/core/spsc.hpp:19-24 | the capacity is the least power of two not below the one asked for |
| Spsc.SpscRing.TryPush | include/crowdy/core/spsc.hpp:27-34 | the queue grows by the item, or it is full and unchanged |
| Spsc.SpscRing.TryPop | include/crowdy/core/spsc.hpp:37-44 | the oldest item leaves, or the queue is empty |
| Wake.NoWakeUpIsLost | src/replication/connection.cpp:93-97 | with events queued, no producer about to signal and no poll running, the flag is set and the application was called or is about to be; since a poll began it is called exactly once for each callback then pending, and once more if the flag is set; in all at most once more than it polls |
| Wake.CalledTwiceIffCallCarriedOver | src/replication/connection.cpp:93-97 | after a poll begins two calls can come before the next if and only if a producer had then set the flag and not yet called back |
| Wake.ACallCanBeCarriedOver | include/crowdy/replication/types.hpp:125-132 | that state is reached, so the documented once between two polls is not kept |
| Wake.Notifier.Deliver | src/replication/connection.cpp:580-591 | what fits of a datagram's events is queued in order, and signalled once |
| Wake.Notifier.Poll | src/replication/connection.cpp:810-934 | at most the bound is dispatched in order, and stopping early signals again |
| Bundler.NothingIsLostOrReordered | src/replication/connection.cpp:166-280 | messages sent are those on the wire, pending or dropped; small messages keep their order, with nothing missing but whole dropped bundles |
| Bundler.TransmitKeepsInv | src/replication/connection.cpp:193-240 | the append that cannot fail does not: an invalid argument is reported exactly for an empty message |
| Bundler.DatagramCarriesItsMembers | include/crowdy/wire/codec.hpp:486-571 | the receiver gets back exactly the members of a datagram, for two or more always and for one exactly if its type is no bundle's |
| Bundler.WalkUndoesFraming | include/crowdy/wire/codec.hpp:506-571 | walking length-prefixed members gives them back |
| Bundler.BundleWriter.Append | include/crowdy/wire/codec.hpp:506-513 | a member is added exactly if it fits |
| Bundler.BundleWriter.GetDatagram | include/crowdy/wire/codec.hpp:515-524 | a lone member goes unwrapped |
| Bundler.Connection.Transmit | src/replication/connection.cpp:193-240 | the code transmits as the model does, keeps the invariant, and reports an invalid argument exactly for an empty message |
| Bundler.Connection.FlushBundleLocked | src/replication/connection.cpp:242-266 | the bundle is sent, kept under backpressure, or dropped and counted |
| Pacer.IntervalBound | src/kit/runtime.cpp:139-159 | for all takes and holds, an interval of length T gets at most capacity + capacity * T / window grants |
| Pacer.WaitSuffices | src/kit/runtime.cpp:145-152 | the wait for lack of tokens is long enough for an undisturbed retry |
| Pacer.HeldWaitEndsTheHoldIff | src/kit/runtime.cpp:142-144 | the wait while held ends the hold if and only if at most one or a whole number of milliseconds remained |
| Pacer.TwoHeldWaitsEndTheHold | src/kit/runtime.cpp:142-144 | two such waits always end it |
| Pacer.UndisturbedJobRunsSoon | src/kit/runtime.cpp:162-181 | a job nothing disturbs is put off at most three times |
| Pacer.TokenBucket.TakeOrWait | src/kit/runtime.cpp:139-153 | a token is taken or the wait is told, the tokens staying within 0 and the capacity |
| KitSubscriptions.CountsAreLiveHandles | src/kit/runtime.cpp:430-552 | in every interleaving each topic's count is the number of live handles on it, and there are at most 256 topics |
| KitSubscriptions.SubscriptionsAreInOnePlace | src/kit/runtime.cpp:430-611 | in every interleaving each connection subscription is in exactly one place: with a thread, held by one handle, parked once, handed over to be given back, or gone with the kit's own connection; it is handed over at most once, and twice only if it was swept while its parked job ran |
| KitSubscriptions.CloseGivesBackOnceUnless | src/kit/runtime.cpp:517-611 | once all threads are done after close, a subscription was given back exactly once; not at all if and only if its unsubscribe had found the kit open and had not parked it when close swept, or it had then gone with the kit's own connection, or been taken out by an unsubscribe yet to find that gone; twice if and only if its parked job was running then |
| KitSubscriptions.ASubscriptionCanBeLost | src/kit/runtime.cpp:539-551 | a reachable end of all threads in which a subscription was never given back |
| KitSubscriptions.ASubscriptionCanBeGivenBackTwice | src/kit/runtime.cpp:548-605 | a reachable end of all threads in which one was given back twice |
| KitSubscriptions.Table.Add | src/kit/runtime.cpp:443-458 | one topic too many is refused; otherwise a fresh handle is counted, and the counts stay those of the handles |
| KitSubscriptions.Table.TakeOut | src/kit/runtime.cpp:520-531 | the handle goes, and it is reported as the last if and only if no other is on its topic |
| KitSubscriptions.Table.DropPending | src/kit/runtime.cpp:420-428 | the entry for the subscription goes, and no other |
| KitSubscriptions.Table.TakeAll | src/kit/runtime.cpp:592-601 | what was parked or held is taken, each once, and nothing stays |
| Topology.Choose | src/kit/topology.cpp:130-147 | the chosen types are distinct and exactly the least set with the root and the selection closed under parent and named calls; a name is missing if and only if no closed set of defined types holds them |
| Topology.Planner.Add | src/kit/topology.cpp:131-144 | adding a type ends on every graph, adds what it needs and nothing a closed set could do without |
| Topology.FilterChangesNothingIff | src/kit/topology.cpp:156-163 | the call filter changes nothing if and only if the calls are all strings |
| Topology.NoUndefinedCallee | src/kit/topology.cpp:51-91 | whatever the overrides, no undefined callee is reported |
| Topology.UndefinedParentIff | src/kit/topology.cpp:51-91 | an undefined parent is reported exactly for an override that names one not chosen |
| Topology.CleanPlanIsTheManifest | src/kit/topology.cpp:117-175 | a plan without problems or overrides is the manifest restricted to the chosen types |
| Topology.KeepCalls | src/kit/topology.cpp:156-163 | the loop keeps the strings that are `*` or chosen, in order |
| Topology.BuildTypes | src/kit/topology.cpp:150-168 | each chosen type is planned with its overrides and filtered calls |
| Clock.DayNumberCounts | src/core/clock.cpp:46-56 | for every valid date from year 0 on, the closed form is the count of days by year and month lengths |
| Clock.DaysAreEqual | src/core/clock.cpp:46-58 | consecutive dates are 86,400,000 ms apart |
| Clock.DayNumberGrows | src/core/clock.cpp:46-56 | later dates have larger day numbers |
| Clock.ParsedPrinted | src/core/clock.cpp:30-70 | parsing a printed stamp gives its milliseconds, whatever follows |
| Clock.FractionReads | src/core/clock.cpp:59-68 | any number of fraction digits counts as the fraction cut to milliseconds |
| Clock.ParsedIsZeroIffEpoch | src/core/clock.cpp:30-70 | a valid stamp parses to 0, the failure value, if and only if it is the epoch with no milliseconds |
| Clock.Digits | src/core/clock.cpp:33-41 | the loop reads a field of digits, or -1 |
| Clock.FractionLoop | src/core/clock.cpp:60-67 | the loop reads the fraction as the cut quotient by a power of ten |
| Clock.ParseIso8601Millis | src/core/clock.cpp:30-70 | the code computes the parse |

## Left out

- libcurl, sockets, OpenSSL, Opus and yyjson: foreign code; its answers are events or parameters.
- The GraphQL wrappers, economy, genres and most modules: they forward calls.
- HMAC signing, SHA-256, tokens and the gateway host checks: cryptography and trust policy.
- Studio editor, player-host schemas, logging, examples and benchmarks: glue and I/O.
- The ChunkStore and the rest of the wire codec: only the bundle framing is modelled.
- Memory order and torn reads: Spsc and Wake take each atomic access as one sequentially consistent step.
- Time in Exec and SubscriptionClient: reconnect and acknowledgement deadlines are events that may come at any time; backoff amounts are modelled for SubscriptionClient only.
- Handlers that only branch and assign, in Exec, SubscriptionClient, KitMirror, KitPrivateState, KitSubscriptions and Bundler: modelled as functions on values, so update in place is not captured there.
- Exec.EveryRequestIsAnsweredOnce: callbacks are counted by ticket, not ordered among each other; the table is kept in order of request, which is the order of its keys until the id wraps.
- Exec.ExecConnection.OnOpen: the reconnect listeners are not modelled, nor are push frames or the failure details kept for callers.
- Exec.TopicsAreHeldByHandlers: the failure of a first subscribe dropping its handler is the separate event DropHandler, and the unsubscribe sent for a dropped topic is a separate internal request.
- KitMirror.TopicMirror.Apply: the event and changed notifications collected for listeners are not modelled.
- KitMirror.TopicMirror.Synced: who waits for a sync, the listeners and the order of their calls are not modelled.
- SubscriptionClient.OperationsEndOnce: speaks of posted callbacks; a callback that is not set counts as posted, that a cancelled operation's posted callbacks are not run is not modelled, nor is the attempt number given to a reconnect callback.
- SubscriptionClient.SubscribedOncePerGeneration: the connection_init, ping and complete messages are not modelled, nor the handler for repeated failures.
- SubscriptionClient.ReconnectDelay: reals stand for doubles.
- KitSubscriptions.CloseGivesBackOnceUnless: the answers to the callbacks of subscribes are not modelled.
- The kit runtime's calls (its Attempt functions, retries and timers): per-call flags of one shape.
- Pacer.IntervalBound: reals stand for doubles and for the clock's ticks.
- Spsc.SpscRing.constructor: capacities above 2^63 are excluded, for on them the source's loop does not end.
- MsgPack.Unpacker.ReadValue: the text yyjson gives for a key that is no string is a parameter; a float's quiet bit is not modelled.
- Bundler.Connection.Transmit: the counters per message type and the waking of the net thread are not modelled.
- Topology.BuildTypes: crates and their limit, node scopes and replica fields are not modelled, since they are checked one by one.
- Utf8.SanitizeUtf8: the splitting of diagnostics into lines and records is not modelled.
- Clock.DayNumberCounts: months above 12 and days beyond the month, which the parser accepts, have no date to compare with.
