# Verified model of the voice platform's concurrent core

A Dafny model of the parts of the server whose correctness depends on whole runs rather than on one
function body: the Redis lease scripts, the media session runtime, the RTPEngine bencode codec, tool
execution and idempotency records, voice-agent activation, and the FreeSWITCH event-socket client.

`dafny verify dfyconfig.toml` checks the project.

## How it is built

Each protocol is a state machine: a `State`, an `Op` for every step that can interleave (a Lua script, an
SQL statement, a mutex region, a channel operation, an atomic counter), a total `Apply` in which a step
that is not enabled changes nothing, and `Run`, which applies a list of steps. A theorem about
`Run(INITIAL, ops)` for every `ops` is therefore a theorem about every interleaving of any number of
callers. Beside each machine stands the code in its own form: a class whose methods update fields in
place, or a method with the source's loops, proved equal to the function the theorems are about.

| files | subject |
|---|---|
| `RedisKeys`, `MediaLeases`, `LateLeases`, `FixedWindow`, `CallLeases`, `LeaseLifetimes`, `LateCalls` | sorted sets with expiries; media node leases, and what holds of them when scripts run late; the fixed-window counter; trunk call leases, how long they last, and what holds of them when scripts run late |
| `AudioQueue`, `Pump`, `PumpOrder`, `PumpDrops`, `PumpEnds` | the duration-budgeted queue; playback and barge-in; which frames are dropped and which can be played; what ends the reading, the playback or the events, and when speech interrupts |
| `ManagedSession`, `Manager`, `ManagerEffects`, `ManagerTimeout`, `ManagerProgress`, `ManagerDrain` | one media session's lifecycle; the manager of all of them; what a call has achieved when it returns; the attach timeout; how every call can return; what a Drain waits for |
| `Decimal`, `Bencode`, `BencodeProofs`, `BencodeStrict`, `BencodeRange`, `BencodeExamples`, `BencodeCodec`, `RtpMessages` | decimal text; the format and its proofs; where the decoder is lenient; where it stops out of range; literal encodings, the order of keys, keys in any order; the codec with its buffer and loops; request and response packets |
| `Idempotency`, `IdempotencyAnswers`, `ToolExecutor`, `ToolResults` | lease plus fencing token; every answer of a claim; claim, run, mark; where a result comes from |
| `Readiness`, `Activation`, `ActivationProgress` | readiness against the activation guard; snapshots over all edits; what edits can achieve, and what stays over for good |
| `EslClient`, `EslProgress`, `EslLate`, `Backoff` | request/reply pairing; how the client comes back from everywhere, and what it never does again; what becomes of the pairing without one assumption; the reconnect delay |
| `Basics` | a value that may be absent, the smaller of two, subset sizes, numbers not in use |

## What the code does differently from what one would expect

- **Barge-in.** "At most two frames read before a barge-in reach the connection after it" is false when
  counted from the instant suppression is set: three can. The player may be past its suppression check with
  one frame, take a second one ahead of the clear, and the reader may hold a third, which it queues once
  the engine answers. `PumpOrder.TwoExactlyWhen` gives the exact condition, in terms of where the player
  and the reader are at that instant; `PumpOrder.TwoNotAlways` gives a run of three 20 ms frames. Counted from
  the instant the clear returns, two is the bound (`Pump.AfterClearBound`).
- **Media leases whose scripts run late.** Scores come from a clock reading taken before the script reaches
  Redis, expiries from the instant it runs. Single ownership survives any delay
  (`LateLeases.NeverLeasedTwiceLate`). The capacity does not: a lease can lapse while its owner key lives on,
  and re-acquire and refresh then bring it back without looking for room.
  `LateLeases.CapacityHoldsExactlyWhen` gives the exact condition over whole runs,
  `LateLeases.LateAcquireOverfills` a run of seven steps. A draining node refuses acquires and re-acquires, but
  a refresh can bring a lapsed lease back there too: exactly when in `LateLeases.DrainingGainsExactlyWhen`, a
  run in `LateLeases.LateRefreshFillsDraining`. Lease and owner key agree throughout a run exactly when no
  granted write in it is late (`LateLeases.CoupledExactlyWhen`).
- **Refreshing a call lease** checks no limit, so refreshing an id that is not live can exceed
  `maxConcurrent`: `CallLeases.RefreshKeepsLimitExactlyWhen`, `CallLeases.RefreshCanExceedLimit`,
  over whole runs `CallLeases.ConcurrentLimitExactlyWhen`. Late acquires do no harm
  (`LateCalls.MembersWithinExactlyWhen`).
- **Binding the only call lease of a trunk** deletes and recreates the sorted set, which then has no expiry
  of its own: `CallLeases.BindDropsKeyExpiryExactlyWhen`, `CallLeases.BindDropsKeyExpiry`.
- **Completing an idempotency record after it expired** violates the table's check instead of finding no
  row: `Idempotency.CompletionViolatesExactlyWhen`, `Idempotency.LateCompletionViolates`.
- **A string length close to the largest int64** wraps the end of the string around, past the check against
  the data, and the slice expression stops the goroutine: `BencodeRange.DecodingStopsExactlyWhen` for any
  input of the decoder, `RtpMessages.ResponseStopsExactlyWhen` for any packet,
  `RtpMessages.LongestStringStops` for a packet that does it.
- **A failed ESL write keeps its connection.** Should the server answer it after all, the answer goes to the
  next command: `EslLate.OwnInEveryContinuationExactlyWhen`, `EslLate.LateReplyMispairs`.
- The inner `sync.Once` guards in `closeControl` and `markComplete` are not needed: the model omits them and
  still closes each channel at most once.

## Model

| member | source | states |
|---|---|---|
| MediaLeases.LeaseExactlyWhenOwned | server/internal/integrations/redis/media.go:50-78 | in every run whose clock readings are of the scripts' own instants, a session has a live lease on a node until an instant exactly when its owner key is live, names that node and expires at that instant |
| MediaLeases.NeverLeasedTwice | server/internal/integrations/redis/media.go:58-77 | no session ever has live leases on two nodes |
| MediaLeases.CapacityNeverExceeded | server/internal/integrations/redis/media.go:54-77 | with clock readings of the scripts' own instants, no run of acquires, re-acquires, refreshes, releases, prunes and time takes a node's live leases above its capacity, although re-acquire and refresh never check it |
| MediaLeases.DrainingNodeNeverGains | server/internal/integrations/redis/media.go:54-56 | with clock readings of the scripts' own instants, whatever step comes next, a node whose draining key is live gains no lease |
| MediaLeases.AcquireGrantedExactlyWhen | server/internal/integrations/redis/media.go:50-78 | an acquire's answer in terms of live leases only: granted exactly when the node is up, not draining, and owns the session already or nobody does and there is room |
| MediaLeases.AcquireRefusedFor | server/internal/integrations/redis/media.go:50-64 | why an acquire is refused, first reason first, in terms of live leases; a refusal changes no live lease |
| MediaLeases.NodeComesAndGoes | server/internal/integrations/redis/media.go:54-67 | a removed node takes no session; registered anew, or with its draining called off, it takes exactly those it has room for; a draining one takes none |
| MediaLeases.AcquireGrants | server/internal/integrations/redis/media.go:74-77 | a granted acquire leaves the session leased until one ttl from now |
| MediaLeases.RefreshRenewsExactlyWhen | server/internal/integrations/redis/media.go:112-133 | a refresh is granted exactly to a session leased on that node while the node is up, and keeps it leased until one ttl from now |
| MediaLeases.ReleaseUndoesAcquire | server/internal/integrations/redis/media.go:154-161 | releasing right after a first acquire restores every live lease and owner |
| MediaLeases.CountIsExact | server/internal/integrations/redis/media.go:181-189 | the count after the prune is the number of live leases |
| MediaLeases.SilentKeysVanish | server/internal/integrations/redis/media.go:74-77 | a node whose leases nobody renews for one ttl has no lease key left |
| MediaLeases.RunKeepsInvariant | server/internal/integrations/redis/media.go:50-78 | every step keeps the two-way coupling, the key outliving its members, and the capacity |
| MediaLeases.MediaLeaseStore.AcquireMediaLease | server/internal/integrations/redis/media.go:50-92 | the script, command by command and with the clock reading it was sent, is the modelled step |
| MediaLeases.MediaLeaseStore.RefreshMediaLease | server/internal/integrations/redis/media.go:112-133 | the script, command by command and with the clock reading it was sent, is the modelled step |
| MediaLeases.MediaLeaseStore.ReleaseMediaLease | server/internal/integrations/redis/media.go:154-161 | the script, command by command, is the modelled step |
| MediaLeases.MediaLeaseStore.CountMediaLeases | server/internal/integrations/redis/media.go:181-189 | prunes and returns the number of live leases |
| LateLeases.OwnerOutlivesLease | server/internal/integrations/redis/media.go:80-92 | in every run, however late the scripts run, a live lease has a live owner key that names its node and expires no earlier |
| LateLeases.NeverLeasedTwiceLate | server/internal/integrations/redis/media.go:80-92 | however late the scripts run, no session ever has live leases on two nodes |
| LateLeases.CapacityHoldsExactlyWhen | server/internal/integrations/redis/media.go:59-67 | every state of a run is within the capacities if and only if each granted re-acquire and refresh in it writes a lapsed lease, renews a live one or finds room |
| LateLeases.StepWithinExactlyWhen | server/internal/integrations/redis/media.go:112-133 | the same for one step |
| LateLeases.ExpiriesEqualExactlyWhen | server/internal/integrations/redis/media.go:80-92 | lease and owner key expire together after a write if and only if the clock reading was of the script's instant |
| LateLeases.CoupledExactlyWhen | server/internal/integrations/redis/media.go:80-92 | over whole runs, every session's live lease and live owner key agree in node and expiry in each state if and only if every granted write carries a reading of its own instant |
| LateLeases.StepCoupledExactlyWhen | server/internal/integrations/redis/media.go:125-133 | the same for one step, from any state in which they agree |
| LateLeases.DrainingGainsExactlyWhen | server/internal/integrations/redis/media.go:112-124 | whatever step comes next, late or not, a draining node gains no lease if and only if the step is not a granted refresh there that writes a live lease for a session without one |
| LateLeases.LateRefreshFillsDraining | server/internal/integrations/redis/media.go:112-124 | a run in which a draining node without live leases gets one from a refresh |
| LateLeases.LateAcquireOverfills | server/internal/integrations/redis/media.go:59-67 | a run after which a node with room for one has two live leases |
| FixedWindow.AtMostTwiceTheLimit | server/internal/integrations/redis/cache.go:92-101 | for any request times, any interval of one window length is allowed at most twice the limit |
| FixedWindow.FirstWindowGrantsTheLimit | server/internal/integrations/redis/cache.go:92-101 | from no counter, or one that has run out, a window allows exactly the limit, or every request if there are fewer |
| FixedWindow.AllowedExactlyWhen | server/internal/integrations/redis/cache.go:92-101 | a request is allowed if and only if no more than the limit have been made since its window began, which is with the first request that no earlier window covers |
| FixedWindow.HitKeepsAccount | server/internal/integrations/redis/cache.go:93-96 | the account that bounds the grants of an interval, kept by every hit |
| FixedWindow.Limiter.AllowFixedWindow | server/internal/integrations/redis/cache.go:78-107 | the argument checks and the script, in place |
| CallLeases.KeyExpiryDropsNoLease | server/internal/integrations/redis/cache.go:119-134 | in every run the set key's expiry is no earlier than any score in it, so no live lease is dropped with the key |
| CallLeases.ConcurrentLimitHolds | server/internal/integrations/redis/cache.go:129-132 | live call leases stay within the limit in every run whose refreshes are of live leases or fit |
| CallLeases.ConcurrentLimitExactlyWhen | server/internal/integrations/redis/cache.go:189-195 | every state of a run is within the limit if and only if every refresh in it is of a live lease or finds room |
| LateCalls.MembersWithinExactlyWhen | server/internal/integrations/redis/cache.go:119-137 | however late the scripts run, the set is within the limit in every state if and only if every refresh finds its lease there or room for it |
| LateCalls.LimitSurvivesLateAcquires | server/internal/integrations/redis/cache.go:119-137 | live leases stay within the limit in every run of late acquires, and of refreshes that find their lease or room |
| CallLeases.RefreshKeepsLimitExactlyWhen | server/internal/integrations/redis/cache.go:189-195 | a refresh stays within the limit if and only if the lease is live or there is room |
| CallLeases.RefreshCanExceedLimit | server/internal/integrations/redis/cache.go:189-195 | a run in which a refresh goes over the limit |
| CallLeases.AdmissionRateBounded | server/internal/integrations/redis/cache.go:127-133 | any 1000 ms of any run admit at most twice maxCPS new leases |
| CallLeases.AcquireEffect | server/internal/integrations/redis/cache.go:119-135 | granted exactly when the lease is live, or the counter has run out or is below its limit and there is room, and refused for the rate first; only a granted acquire changes which leases are live |
| LeaseLifetimes.AdmittedExactlyWhen | server/internal/integrations/redis/cache.go:127-134 | over every run, an acquire of a new lease passes the rate if and only if no more than maxCPS such acquires, refused ones included, have been made since its window began |
| LeaseLifetimes.AcquireLasts | server/internal/integrations/redis/cache.go:119-137 | in every run a granted acquire keeps its lease live for exactly one ttl from then, and every other lease keeps the time it had |
| LeaseLifetimes.RefreshLasts | server/internal/integrations/redis/cache.go:189-195 | so does a refresh |
| LeaseLifetimes.BindLasts | server/internal/integrations/redis/cache.go:150-156 | a bound lease lives on under the call's name exactly as long as it would have under its own |
| LeaseLifetimes.ReleaseEnds | server/internal/integrations/redis/cache.go:167-178 | a release ends its lease at once and no other |
| CallLeases.BindRenames | server/internal/integrations/redis/cache.go:150-156 | binding renames a live lease and keeps the rest |
| CallLeases.BindNeverGrows | server/internal/integrations/redis/cache.go:150-156 | binding never takes capacity |
| CallLeases.BindDropsKeyExpiryExactlyWhen | server/internal/integrations/redis/cache.go:150-156 | the key loses its expiry exactly when the bound lease was its only member |
| CallLeases.BindDropsKeyExpiry | server/internal/integrations/redis/cache.go:150-156 | acquiring one lease and binding it leaves the call live in a key without an expiry |
| CallLeases.CallLeaseStore.AcquireCallLease | server/internal/integrations/redis/cache.go:119-137 | the script, command by command and with the clock reading it was sent, is the modelled step |
| CallLeases.CallLeaseStore.BindCallLease | server/internal/integrations/redis/cache.go:150-156 | the script, command by command, is the modelled step |
| CallLeases.CallLeaseStore.ReleaseCallLease | server/internal/integrations/redis/cache.go:174 | the command is the modelled step |
| CallLeases.CallLeaseStore.RefreshCallLease | server/internal/integrations/redis/cache.go:189-195 | the two commands at one instant, with the clock reading they were sent, are the modelled step |
| AudioQueue.CounterConserved | server/internal/media/session/queue.go:67-112 | in every interleaving the counter plus a push not yet added equals the channel's durations plus those received but not yet subtracted, within 0 and the budget |
| AudioQueue.ClampNeverFires | server/internal/media/session/queue.go:83-112 | what is about to be subtracted is always still counted, so the clamp at zero never fires |
| AudioQueue.FirstInFirstOut | server/internal/media/session/queue.go:67-112 | frames come out in push order, none lost, none twice |
| AudioQueue.TrueAudioWithinBudget | server/internal/media/session/queue.go:67-81 | the audio really waiting exceeds the budget by less than a nanosecond a frame |
| AudioQueue.RoundedDownByLessThanOne | server/internal/media/session/session.go:105-111 | Duration is the playing time rounded down |
| AudioQueue.UndisturbedPush | server/internal/media/session/queue.go:67-81 | the two steps of a push, undisturbed, accept the frame exactly when it fits the budget and the channel |
| AudioQueue.UndisturbedPop | server/internal/media/session/queue.go:83-96 | the two steps of a pop, undisturbed, take the oldest frame and leave the rest counted |
| AudioQueue.Fifo.Push | server/internal/media/session/queue.go:67-81 | refused exactly when the frame overruns the budget or the channel is full; otherwise appended |
| AudioQueue.Fifo.Pop | server/internal/media/session/queue.go:83-96 | takes the oldest frame and its duration, or nothing when the done channel is taken, as it must be on an empty queue |
| AudioQueue.Fifo.Clear | server/internal/media/session/queue.go:98-112 | leaves nothing queued and nothing counted |
| Pump.OneSendWhileSuppressed | server/internal/media/session/manager.go:613-635 | while playback is suppressed at most one send goes through |
| Pump.BargeInBound | server/internal/media/session/manager.go:660-670 | of the frames read when suppression took effect, at most two reach the connection afterwards, three only if the player was past its check with frames queued and the reader held one |
| Pump.AfterClearBound | server/internal/media/session/manager.go:660-670 | of the frames read by the time the clear returned, at most two ever reach the connection |
| Pump.RunKeepsInvariant | server/internal/media/session/manager.go:587-678 | every step of the reader, player and event goroutines keeps the three bounds and the queue's own invariant |
| PumpOrder.TwoExactlyWhen | server/internal/media/session/manager.go:660-670 | at the instant suppression is set, "at most two" holds of every continuation if and only if the player, queue and reader do not all hold a frame in the stated way |
| PumpOrder.TwoNotAlways | server/internal/media/session/manager.go:660-670 | the literal run of three 20 ms frames after which "at most two" fails |
| PumpOrder.ThreeReached | server/internal/media/session/manager.go:587-678 | from every such state a continuation sends three |
| PumpOrder.PlayedInEngineOrder | server/internal/media/session/manager.go:587-635 | whatever is dropped, frames reach the connection in the order the engine delivered them, none twice |
| PumpDrops.SuppressedFrameNeverPlays | server/internal/media/session/manager.go:600-602 | over every run, a frame that the reader checks while playback is suppressed is neither queued nor sent in any continuation |
| PumpDrops.PlaysExactlyWhen | server/internal/media/session/manager.go:588-635 | wherever a run has led, some continuation sends the frame the reader checks now if and only if playback is not suppressed, the player has not stopped and the frame fits the queue's whole budget |
| PumpDrops.NothingDroppedWithoutBargeIn | server/internal/media/session/manager.go:588-635 | in a run in which suppression is never set, every frame delivered is queued under its number, but for one in the reader's hand or one that it stopped at, and every queued frame is sent or on its way, in that order |
| PumpEnds.ReadingGoesOnExactlyWhen | server/internal/media/session/manager.go:594-599 | a frame goes on to the suppression check if and only if it is mono PCM16 at one of four rates and not too long; after any other nothing more is read or queued |
| PumpEnds.PushingGoesOnExactlyWhen | server/internal/media/session/manager.go:603-605 | a push goes through if and only if the frame fits the budget and the channel; after a refused one nothing more is read or queued |
| PumpEnds.FailedSendIsTheLast | server/internal/media/session/manager.go:623-632 | a frame whose send fails is the last one sent |
| PumpEnds.FailedInterruptSuppressesForGood | server/internal/media/session/manager.go:662-669 | after an interrupt that fails, playback stays suppressed in every continuation, and at most one frame is sent from the instant suppression was set |
| PumpEnds.InterruptsExactlyWhen | server/internal/media/session/manager.go:622-671 | speech interrupts if and only if the last thing said about playback is that it started, by the player before a send or by the engine with a response |
| PumpEnds.InterruptComesFirst | server/internal/media/session/manager.go:661-669 | once speech has interrupted, no event is handled before the engine and the connection were told to stop |
| PumpEnds.AnswerCanBeInterrupted | server/internal/media/session/manager.go:653-655 | once the engine has begun to answer, playback is let through and can be interrupted |
| ManagedSession.CompleteMeansReleased | server/internal/media/session/manager.go:432-451 | once `complete` is closed, the stream, the attached connection and the control channel are closed |
| ManagedSession.BodyReleases | server/internal/media/session/manager.go:432-451 | finishResources, run to its end, closes everything the session holds, each once |
| ManagedSession.Session.Attach | server/internal/media/session/manager.go:165-186 | attaches exactly when neither attached, finished nor cancelled and there is a stream |
| ManagedSession.Session.AttachControl | server/internal/media/session/manager.go:224-235 | opens a control channel exactly when the session is live and has none |
| ManagedSession.Session.FinishResources | server/internal/media/session/manager.go:432-451 | the straight-line body is the modelled steps taken in order, and runs once |
| ManagedSession.Session.Finish | server/internal/media/session/manager.go:409-418 | leaves the session finished and released, `complete` apart when a connection is attached |
| ManagedSession.Session.FinishUnattached | server/internal/media/session/manager.go:420-430 | acts exactly when neither finished nor attached, and then releases everything |
| Manager.GoneMeansReleased | server/internal/media/session/manager.go:370-386 | in every interleaving a session that has left the map has its stream, any attached connection and every control channel closed exactly once |
| Manager.ClosedAtMostOnce | server/internal/media/session/manager.go:484-514 | no channel is closed twice, nothing is sent on a closed control channel, no stream or connection is closed twice |
| Manager.AttachmentClosesItsOwn | server/internal/media/session/manager.go:261-272 | closing a control attachment closes its own channel and never a later one's |
| Manager.FinishedNeverAttached | server/internal/media/session/manager.go:165-186 | after a session is finished it never becomes attached |
| Manager.CapacityHolds | server/internal/media/session/manager.go:81-139 | live sessions never exceed the capacity |
| Manager.ActiveIsExact | server/internal/media/session/metrics.go:52-64 | the active counter is the map size plus removals not yet counted minus a start not yet counted, and is never zero when a removal loads it |
| Manager.CountersBalance | server/internal/media/session/metrics.go:52-68 | at rest, started equals completed plus active, and active is the map size |
| Manager.DrainedStaysEmpty | server/internal/media/session/manager.go:294-329 | once a Drain has returned nil the map is empty in every later state |
| ManagerEffects.ReturnedMeansGone | server/internal/media/session/manager.go:188-202 | in every interleaving, when a goroutine that was on its way to taking a session out has returned, the session is out of the map and everything it held is closed once |
| ManagerEffects.StopReturnsWhenGone | server/internal/media/session/manager.go:274-292 | so when a Stop that found its session has returned |
| ManagerEffects.DrainedSessionIsClosed | server/internal/media/session/manager.go:305-307 | when the goroutine that a Drain started for a session has returned, the session is finished and its stream, connection and control channel are closed |
| ManagerEffects.DrainReturnsWhenEmpty | server/internal/media/session/manager.go:308-322 | a Drain has returned only if the map was found empty, and it stays empty |
| ManagerEffects.UndisturbedAttach | server/internal/media/session/manager.go:151-186 | from every reachable state an attach takes hold of exactly a listed session that is neither attached nor finished and has a stream, and fails for the first of the reasons otherwise |
| ManagerEffects.UndisturbedControl | server/internal/media/session/manager.go:217-235 | a control channel is opened on exactly a listed session that is not finished and has none open |
| ManagerEffects.UndisturbedStart | server/internal/media/session/manager.go:81-139 | a start that is let in enters a new session with its timeout armed and counts it; one that is not changes nothing |
| ManagerTimeout.TimerOffOnceDecided | server/internal/media/session/manager.go:180-184 | in every run the timer of a session that is attached or finished is off |
| ManagerTimeout.TimeoutFinishes | server/internal/media/session/manager.go:420-430 | in every run a timeout that comes to the session's mutex leaves it finished or attached, and finishes exactly one that is neither |
| ManagerTimeout.ArmedTimerFinishes | server/internal/media/session/manager.go:132-138 | an armed timer can fire, and then finishes its session |
| ManagerTimeout.TimeoutReturnsWhenGone | server/internal/media/session/manager.go:132-138 | whenever such a timeout has returned, its session is out of the map and everything it held is closed |
| ManagerTimeout.TimeoutSuffices | server/internal/media/session/manager.go:132-138 | from every reachable state with a timeout fired on such a session, steps of its goroutine, of the body it runs and of a Start that holds the lock lead to the session released and out of the map |
| Manager.RunKeepsInvariant | server/internal/media/session/manager.go:81-514 | every step of every goroutine keeps the joint invariant of sessions, channels, goroutines, map and counters |
| ManagerProgress.CanAlwaysDrain | server/internal/media/session/manager.go:294-329 | from every state any interleaving can reach, some continuation lets a new Drain return nil with the map empty |
| ManagerProgress.EveryCallCanReturn | server/internal/media/session/manager.go:74-386 | from every state any interleaving can reach, with goroutines waiting on a sync.Once, a completion or a mutex or in the middle of a Start, every Attach, AttachControl, Stop, Drain and timeout under way has a continuation in which it returns |
| ManagerDrain.DrainReturnsAtFirstLook | server/internal/media/session/manager.go:309-328 | in every interleaving a Drain that has seen its snapshot complete finds the map empty at its first look, so it never waits on the changed channel |
| ManagerDrain.RunCovers | server/internal/media/session/manager.go:298-318 | in every run every session in the map is still pending in every Drain under way |
| ManagerProgress.EmptyMap | server/internal/media/session/manager.go:274-292 | from every reachable state with the mutex free, stops can empty the map session by session without moving a Drain that is under way |
| ManagerProgress.RunKeepsWhole | server/internal/media/session/manager.go:188-203 | in every run an attached session not yet marked complete has its attaching goroutine still on the way to mark it |
| Manager.Registry.Start | server/internal/media/session/manager.go:81-139 | refused for the first of six reasons that applies, an unknown engine, a failed one and a start timeout among them; otherwise entered and counted |
| Manager.Registry.Remove | server/internal/media/session/manager.go:370-386 | removes and counts the entry only if it is still the same session |
| Manager.Registry.BeginDrain | server/internal/media/session/manager.go:298-304 | sets draining and takes the snapshot |
| Decimal.ParsePrint | server/internal/integrations/rtpengine/protocol.go:194-198 | parsing the decimal text of an int64 gives it back |
| Decimal.ParsesExactlyWhen | server/internal/integrations/rtpengine/protocol.go:194-208 | what is read as a number: digits after an optional sign, leading zeros and a plus included, within int64 |
| Bencode.SortedUnique | server/internal/integrations/rtpengine/protocol.go:109-113 | a set of keys has one sorted order, so map iteration order does not show |
| Bencode.DecodeValue | server/internal/integrations/rtpengine/protocol.go:144-216 | a value that is read ends after it starts and within the data |
| BencodeProofs.TextEndsAsInGo | server/internal/integrations/rtpengine/protocol.go:199-214 | the end of a string computed with wrapping int64 addition: an error beyond the data, out of range before the start, else the string |
| BencodeProofs.TextReadExactlyWhen | server/internal/integrations/rtpengine/protocol.go:199-214 | a string is read exactly when a length of at least zero and a colon come first and that many bytes follow |
| BencodeProofs.OutOfRangeExactlyWhen | server/internal/integrations/rtpengine/protocol.go:205-214 | reading a string at a given offset leaves the error path if and only if the length exceeds the largest int64 less the start |
| BencodeRange.DecodingStopsExactlyWhen | server/internal/integrations/rtpengine/protocol.go:144-216 | decoding any input from any offset stops at a slice expression if and only if it comes, at any depth, to a string whose length exceeds the largest int64 less its start |
| RtpMessages.ResponseStopsExactlyWhen | server/internal/integrations/rtpengine/protocol.go:35-56 | a response stops there if and only if it carries this request's cookie and decoding its body comes to such a string |
| RtpMessages.LongestStringStops | server/internal/integrations/rtpengine/protocol.go:35-56 | for every cookie, the packet whose body is the largest int64 and a colon stops there |
| BencodeProofs.ValueAt | server/internal/integrations/rtpengine/protocol.go:74-216 | wherever an encoding stands in any buffer, decoding there gives the normalised value and the exact end offset |
| BencodeProofs.RoundTrip | server/internal/integrations/rtpengine/protocol.go:74-216 | the same, for any bytes before and after |
| BencodeProofs.EncodingDeterminesValue | server/internal/integrations/rtpengine/protocol.go:74-127 | equal encodings come from values that read back the same |
| BencodeProofs.ReencodeGivesSameBytes | server/internal/integrations/rtpengine/protocol.go:74-127 | encoding what was decoded from an encoding gives back the bytes the encoder wrote |
| BencodeStrict.ReencodesExactlyWhenStrict | server/internal/integrations/rtpengine/protocol.go:144-216 | of any accepted bytes: encoding the decoded value gives them back if and only if numbers and lengths are in shortest form and keys strictly increase |
| BencodeStrict.EncodingIsStrict | server/internal/integrations/rtpengine/protocol.go:74-127 | every encoding, anywhere in any buffer, is in that form |
| BencodeStrict.StrictIsUnique | server/internal/integrations/rtpengine/protocol.go:144-216 | two accepted inputs in that form are equal exactly when their values are |
| BencodeStrict.LeadingZerosAccepted | server/internal/integrations/rtpengine/protocol.go:188-198 | a number with leading zeros is accepted and is not in that form |
| BencodeProofs.ValueLocal | server/internal/integrations/rtpengine/protocol.go:144-216 | a successful decode, of canonical input or not, depends only on the bytes it consumed |
| BencodeProofs.PrefixFree | server/internal/integrations/rtpengine/protocol.go:144-216 | no accepted encoding is a proper prefix of another |
| BencodeExamples.DictExample | server/internal/integrations/rtpengine/protocol.go:108-124 | the dictionary of BEP 3 is encoded byte for byte |
| BencodeExamples.NestedExample | server/internal/integrations/rtpengine/protocol.go:89-124 | so is the dictionary with a list in it |
| BencodeExamples.ListExamples | server/internal/integrations/rtpengine/protocol.go:82-107 | so are lists, with booleans as integers |
| BencodeExamples.LessExactlyWhen | server/internal/integrations/rtpengine/protocol.go:113 | a key comes before another if and only if it is a proper prefix or has the smaller byte where they first differ |
| BencodeExamples.AnyOrderLastStands | server/internal/integrations/rtpengine/protocol.go:181-199 | a dictionary is read whatever the order of its keys, and of a key that comes more than once the last value stands |
| BencodeCodec.EncodeValue | server/internal/integrations/rtpengine/protocol.go:74-127 | writes exactly the encoding to the buffer, or reports an unsupported type, also one nested inside |
| BencodeCodec.ReadValue | server/internal/integrations/rtpengine/protocol.go:144-216 | the loops with their moving offset compute the decoded value |
| BencodeCodec.SortStrings | server/internal/integrations/rtpengine/protocol.go:113 | sorts the keys: strictly increasing, same members |
| BencodeCodec.CollectKeys | server/internal/integrations/rtpengine/protocol.go:109-112 | collects every key once |
| RtpMessages.RequestReadsBack | server/internal/integrations/rtpengine/protocol.go:11-33 | a request splits at its first space into exactly cookie and body, and the body reads back as every parameter with the command in place |
| RtpMessages.RequestRefusedExactlyWhen | server/internal/integrations/rtpengine/protocol.go:12-25 | a request is refused exactly for a missing command, or for a parameter of an unsupported type that the command does not replace |
| RtpMessages.ResponseReadsBack | server/internal/integrations/rtpengine/protocol.go:35-56 | a response is turned away if it carries another cookie, is no dictionary or has anything after it; else it is accepted if and only if its field "result" says ok in any case, and gives "result" and "error-reason" as far as they are strings, and every field as it was encoded |
| RtpMessages.CookieDecides | server/internal/integrations/rtpengine/protocol.go:36-39 | a response is not this request's exactly when it does not begin with its cookie and a space |
| RtpMessages.CookieReadsBack | server/internal/integrations/rtpengine/protocol.go:58-64 | each random byte is written as two lower-case hexadecimal digits, the high one first |
| RtpMessages.PingRequest | server/internal/integrations/rtpengine/protocol.go:11-33 | a ping request, byte for byte |
| RtpMessages.BuildRequest | server/internal/integrations/rtpengine/protocol.go:11-33 | builds the request packet, or reports a missing command or an unsupported type |
| RtpMessages.ReadResponse | server/internal/integrations/rtpengine/protocol.go:35-56 | reads a response packet with all its error cases and the one that stops at a slice expression |
| Idempotency.TokensStrictlyIncrease | server/internal/database/sqlc/idempotency.sql.go:14-46 | successful claims of a key carry strictly increasing lock tokens |
| Idempotency.CompletionFollowsLatestClaim | server/internal/database/sqlc/idempotency.sql.go:90-107 | a stored completion carries the token of the latest claim, with nothing about that key in between |
| Idempotency.CompletedAtMostOnce | server/internal/database/sqlc/idempotency.sql.go:90-107 | a claim is completed at most once |
| Idempotency.CompletionStoredExactlyWhen | server/internal/database/sqlc/idempotency.sql.go:90-107 | exactly when a completion is stored, in terms of the latest claim, the clock and the status |
| Idempotency.CompletionViolatesExactlyWhen | server/migrations/024_create_idempotency.sql:26-36 | exactly when the table's checks refuse a completion: its caller holds the latest claim, but the record has run out or the status is out of range |
| Idempotency.LateCompletionViolates | server/migrations/024_create_idempotency.sql:26-36 | a claim completed with its token after both lifetimes is such a violation |
| Idempotency.UnexpiredRecordKept | server/internal/database/sqlc/idempotency.sql.go:24-46 | an unexpired record never changes its request identity or a stored response |
| Idempotency.StoredResponseIsReplayed | server/internal/platform/idempotency/service.go:24-53 | every later call with the same request, until expiry, gets the stored response |
| IdempotencyAnswers.AnswerExactly | server/internal/platform/idempotency/service.go:24-53 | over every run, the answer to a claim in terms of the last event about its key: a lease when there is none, when its record has run out or when it is a claim whose token has been reached; a conflict for another request; else the stored response, or in progress |
| IdempotencyAnswers.LostClaimIsTold | server/internal/platform/idempotency/service.go:39-52 | what a caller that lost its claim is told, whatever ran before it reads the row |
| IdempotencyAnswers.AbandonedClaimIsTakenOver | server/internal/database/sqlc/idempotency.sql.go:24-46 | a claim whose token has been reached goes to the next caller with the same request, whose later token completes it, and the old token stores nothing in any continuation |
| IdempotencyAnswers.SweepsGoUnnoticed | server/internal/database/sqlc/idempotency.sql.go:158-161 | deleting expired records at any points of a run changes no unexpired record and no answer, and leaves only unexpired records |
| Idempotency.Table.ClaimKey | server/internal/database/sqlc/idempotency.sql.go:14-46 | the conditional upsert is the modelled step |
| Idempotency.Table.CompleteKey | server/internal/database/sqlc/idempotency.sql.go:90-107 | the guarded update, with the table's checks, is the modelled step |
| Idempotency.Table.DeleteExpired | server/internal/database/sqlc/idempotency.sql.go:158-161 | deletes exactly the expired records and counts them |
| Idempotency.Table.ServiceClaim | server/internal/platform/idempotency/service.go:24-53 | lease, stored response, conflict or in-progress, as the record has it |
| ToolExecutor.EffectAtMostOnce | server/internal/ai/tools/executor.go:134-177 | for any number of interleaved calls and failures the tool runs at most once per key |
| ToolExecutor.SuccessesAgree | server/internal/ai/tools/executor.go:134-248 | all successes for a key carry the same result, and the tool ran exactly once |
| ToolResults.SuccessComesFromItsRun | server/internal/ai/tools/executor.go:134-231 | over every run, the result a call returns is, field by field, the one with which the tool run of a call for that very execution ended, while that call held the claim of the key |
| ToolResults.RowsComeFromTheirRun | server/internal/ai/tools/executor.go:142-177 | a settled row holds what the tool run of the call that claimed it ended with |
| ToolResults.FirstCallOutcome | server/internal/ai/tools/executor.go:134-177 | what the first call for a key returns, the row it leaves and whether the tool ran, for every eligibility, tool run and failing statement |
| ToolResults.LaterCallOutcome | server/internal/ai/tools/executor.go:180-248 | a later call with the key is told the stored result, the stored failure, that the outcome is uncertain, or that the key was used for something else; the tool does not run again |
| ToolExecutor.FailedOrDifferentNeverSucceeds | server/internal/ai/tools/executor.go:202-248 | once a row failed or belongs to a different execution, no call with that key ever succeeds |
| ToolExecutor.SucceededIsReplayedForever | server/internal/ai/tools/executor.go:180-231 | a succeeded row is what every later replay returns |
| ToolExecutor.RunKeepsInvariant | server/internal/database/sqlc/voice_agent_tool_security.sql.go:14-48 | between winning a claim and marking its row a caller alone holds it; rows are never rewritten once settled |
| ToolExecutor.Executor.ClaimExecution | server/internal/database/sqlc/voice_agent_tool_security.sql.go:14-48 | the insert on conflict do nothing is the modelled step |
| ToolExecutor.Executor.MarkExecution | server/internal/database/sqlc/voice_agent_tool_security.sql.go:234-273 | the guarded updates are the modelled step |
| ToolExecutor.Executor.ReplayExecution | server/internal/ai/tools/executor.go:180-248 | success only from a succeeded row of the same execution |
| ToolExecutor.Executor.RunClaimed | server/internal/ai/tools/executor.go:142-177 | running and marking are the modelled steps |
| ToolExecutor.Executor.Execute | server/internal/ai/tools/executor.go:134-177 | one undisturbed call takes exactly the steps of the interleaved system |
| Readiness.ReadyExactlyWhenGuardHolds | server/internal/database/sqlc/voice_agents.sql.go:54-98 | with one binding per role, the report has no issue if and only if the counting guard holds |
| Readiness.IssuesExact | server/internal/ai/agents/readiness.go:57-95 | exactly which issues are reported, kind by kind |
| Readiness.IssuesOnce | server/internal/ai/agents/readiness.go:57-95 | with one binding per role no issue is reported twice, and unexpected bindings come first |
| Readiness.NothingBound | server/internal/ai/agents/readiness.go:67-95 | what an agent of each engine with nothing bound is told it misses, in order |
| Readiness.Report | server/internal/ai/agents/readiness.go:44-97 | the map and the three loops compute those issues, and ready means none |
| Activation.SnapshotsFitTheirEngine | server/internal/database/sqlc/voice_agents.sql.go:14-98 | over all runs every active and every session snapshot passes its engine's topology check and binds no other role |
| Activation.MismatchUnreachable | server/internal/ai/providers/service.go:522-536 | resolving a session's snapshot gives back exactly its bindings, or reports a deleted credential; never a provider mismatch |
| Activation.SessionSnapshotFixed | server/internal/database/sqlc/voice_agent_sessions.sql.go:15-27 | a session's snapshot never changes and a completed session is not revived |
| Activation.OnlyActivationReplaces | server/internal/database/sqlc/voice_agents.sql.go:14-98 | only an activation whose guard holds replaces an agent's active snapshot, by what the agent is at that instant |
| Activation.ActivatesExactlyWhenReady | server/internal/ai/agents/readiness.go:100-123 | on an enabled agent the activation goes through exactly when the report of that instant has no issue |
| Activation.RotationBlocksActivation | server/internal/database/sqlc/voice_agents.sql.go:57-66 | after a credential is rotated no agent bound to it can be activated until it is verified again |
| Activation.ActiveRevisionIsCurrent | server/migrations/036_add_voice_agent_activation.sql:90-110 | an active revision equal to the current one means the snapshot is what is configured now |
| ActivationProgress.AnyConfigurationCanRun | server/internal/database/sqlc/voice_agents.sql.go:14-98 | from every reachable state a new or enabled agent can be given any engine, content, tools and configuration of its roles, be activated, and start a session that runs on exactly these with every credential there |
| ActivationProgress.UnreadyBlocksActivation | server/internal/database/sqlc/voice_agents.sql.go:56-66 | an agent bound to a credential that was found other than ready cannot be activated |
| ActivationProgress.ActivatedMeansVerified | server/internal/database/sqlc/voice_agents.sql.go:56-66 | over every run, an activation changes something only if the last finding about each bound credential, since it was created and last rotated, is ready |
| ActivationProgress.DisabledForGood | server/internal/database/sqlc/voice_agents.sql.go:234-246 | once an agent is disabled no continuation enables, edits or activates it or starts a session of it |
| ActivationProgress.DeletedCredentialIsMissing | server/internal/ai/providers/service.go:522-536 | after an unbound credential is deleted, every session whose snapshot uses it resolves to a missing credential in every continuation |
| ActivationProgress.CompletedIsFinal | server/internal/database/sqlc/voice_agent_sessions.sql.go:15-27 | a completed session is over, and keeps its snapshot, in every continuation |
| ActivationProgress.SuspendedUntilRestored | server/internal/database/sqlc/voice_agent_sessions.sql.go:82-126 | while the organization is suspended no agent is created or updated and no session starts |
| ActivationProgress.NoAnswerNoSession | server/internal/database/sqlc/voice_agent_sessions.sql.go:82-126 | no session starts without an answered call |
| Activation.ValidateProviderTopology | server/internal/ai/orchestration/providers.go:73-103 | the roles map and the switch decide the topology |
| Activation.ResolveSnapshot | server/internal/ai/providers/service.go:522-536 | the loop stops at the first missing or mismatching credential, and else returns all bindings in order |
| Activation.Store.Activate | server/internal/database/sqlc/voice_agents.sql.go:14-98 | the guarded update is the modelled step |
| Activation.Store.CheckBinding | server/internal/ai/providers/service.go:295-324 | accepted exactly when role and provider go together and the credential is there with that provider |
| Activation.Store.UpsertBinding | server/internal/ai/providers/service.go:326-338 | the upsert, its foreign keys and the revision trigger are the modelled step |
| Activation.Store.DeleteCredential | server/migrations/029_create_ai_provider_credentials.sql:47-50 | refused exactly while a binding refers to the credential |
| Activation.Store.CreateSession | server/internal/database/sqlc/voice_agent_sessions.sql.go:82-126 | copies the active snapshot into the session |
| Activation.Store.CompleteSession | server/internal/database/sqlc/voice_agent_sessions.sql.go:15-27 | completes only a live session |
| EslClient.ReplyIsToItsCommand | server/internal/integrations/freeswitch/client.go:162-216 | in every run any frame a command returns is the reply to that very command |
| EslClient.AnswerReachesItsCommand | server/internal/integrations/freeswitch/client.go:202-242 | while a command waits on a live connection the next reply off the wire is its own and is what it returns |
| EslProgress.ConnectionServesOn | server/internal/integrations/freeswitch/client.go:162-242 | any number of commands on one connection, undisturbed, are each answered in turn by their own reply |
| EslProgress.CanAlwaysServe | server/internal/integrations/freeswitch/supervisor.go:95-119 | from every reachable state of a client that is not closed, some continuation leads to a fresh connection on which any commands are then answered in turn |
| EslProgress.LettingGoEndsBoth | server/internal/integrations/freeswitch/client.go:249-284 | once a connection is no longer current, closing its done channel ends its read loop and the command that waits on it |
| EslProgress.CurrentIsAlive | server/internal/integrations/freeswitch/client.go:218-247 | in every run the current connection is one whose read loop runs |
| EslProgress.LineBreakChangesNothing | server/internal/integrations/freeswitch/client.go:162-200 | a command refused for a line break leaves everything as it was |
| EslProgress.ClosedForGood | server/internal/integrations/freeswitch/supervisor.go:95-101 | after Close no connection is ever installed again |
| EslLate.PairingHoldsWhenSettled | server/internal/integrations/freeswitch/client.go:186-216 | in every run, late replies after failed writes included: if each command is written to a connection that owes nothing, every frame handed out is the reply to its own command |
| EslLate.OwnInEveryContinuationExactlyWhen | server/internal/integrations/freeswitch/client.go:186-216 | wherever such a run has led, a command written now is handed nothing but its own reply in every continuation if and only if its connection owed nothing |
| EslLate.NextReplyIsItsOwnExactlyWhen | server/internal/integrations/freeswitch/client.go:186-216 | read and delivered at once, the next reply is its own if and only if nothing was owed before the write, and else the oldest one owed |
| EslLate.FailedWriteOwesExactlyWhenReceived | server/internal/integrations/freeswitch/client.go:187-200 | a failed write keeps the connection current and leaves a reply owed exactly when the server received the command |
| EslLate.LateReplyMispairs | server/internal/integrations/freeswitch/client.go:187-216 | a run in which the next command is handed the reply of the failed one |
| EslClient.RepliesHandedOutOnce | server/internal/integrations/freeswitch/client.go:218-247 | no reply goes to two commands |
| EslClient.DoneClosedAtMostOnce | server/internal/integrations/freeswitch/client.go:249-284 | however many disconnects race, a done channel is closed at most once, and only after the client let go of the connection |
| EslClient.RetiredNeverReused | server/internal/integrations/freeswitch/client.go:209-215 | a retired connection is never written to or waited on again |
| EslClient.TimeoutRetires | server/internal/integrations/freeswitch/client.go:209-215 | a timed-out command retires its connection |
| EslClient.Client.InstallConnection | server/internal/integrations/freeswitch/supervisor.go:95-119 | installs only when open and without a connection |
| EslClient.Client.Disconnect | server/internal/integrations/freeswitch/client.go:249-284 | the first disconnect of the current connection unsets it and closes its channel; others do nothing |
| EslClient.Client.SendCommand | server/internal/integrations/freeswitch/client.go:162-200 | the command's steps up to its wait, with every write failure |
| Backoff.DoubledDelay | server/internal/integrations/freeswitch/supervisor.go:160-171 | the doubling loop equals min(max, min·2^attempt) and never holds a value above max |
| Backoff.ReconnectDelay | server/internal/integrations/freeswitch/supervisor.go:160-183 | the jittered, capped delay |
| Backoff.JitterBounds | server/internal/integrations/freeswitch/supervisor.go:173-183 | between 80% of the base, rounded down, and the smaller of max and 120% of it |
| Backoff.BaseGrowsUntilCapped | server/internal/integrations/freeswitch/supervisor.go:160-171 | the first base is the minimum, and it doubles at each attempt until it reaches max |
| Backoff.EachPercentOnce | server/internal/integrations/freeswitch/supervisor.go:175-177 | any 41 attempts in a row use each percentage from 80 to 120 exactly once |
| Backoff.PercentSteps | server/internal/integrations/freeswitch/supervisor.go:173-177 | the first attempt waits 91%, each later one 17 points more, or 24 less where that would pass 120% |
| Backoff.EachDelayOnce | server/internal/integrations/freeswitch/supervisor.go:173-183 | for each percentage from 80 to 120, in any 41 attempts in a row one waits that percentage of its base, under the cap |

## Left out

- Clocks: one monotone clock in milliseconds serves Redis, the database and their callers; skew between them is not modelled, and a ttl below one millisecond is not either. A clock read before its script runs is modelled for media leases (`LateLeases`) and call leases (`LateCalls`), and for the other scripts and statements it is read at their own instant.
- Redis argument checks other than those of `AllowFixedWindow`: each lease script is modelled from where it runs.
- Bencode.DecodeValue: data longer than the largest int64, which no Go slice is, is decoded like any other.
- RtpMessages.BuildRequest: the random bytes of the cookie are a parameter, and a failing random source is left out.
- Backoff.ReconnectDelay: durations and attempt numbers are unbounded, so neither `delay * percent` nor `attempt * 17` overflows.
- AudioQueue.Fifo.Pop: how long a pop on an empty queue waits for its done channel.
- Pump: the input direction, turn-latency metrics, publishing to the control channel and the errors that end the pump; a goroutine that fails or is cancelled takes no further step.
- Manager: identity and format checks of Attach, the text of the timeout event, failure counters, latency metrics, and a provider stream that arrives after the start timeout and so never becomes managed.
- Manager.Registry.Start: what became of opening the engine is a parameter; in the interleaved system all three failures are the step that gives the start up.
- Fairness: `ManagerProgress.EveryCallCanReturn` says that a continuation exists, not that the scheduler takes it; nothing is claimed about a reconnect loop running or which ready case a select takes.
- Manager: the changed channel, since no Drain ever waits on it (`ManagerDrain.DrainReturnsAtFirstLook`).
- Idempotency: response headers and bodies are opaque values; the lock and record lifetimes are fixed, positive and ordered.
- ToolExecutor: argument validation, webhook and builtin calls, timestamps and the tool name; `sameJSON` is an arbitrary relation on arguments.
- ToolExecutor.Executor.Execute: the row id a claim returns is replaced by the key that names the same row; deletion by cascade is left out.
- Activation: statements run one after another; under READ COMMITTED an activation that waits for an agent row while a binding is written could store the new revision with the old bindings.
- Activation: one organization, agents that are not deleted, and a database that starts empty; the unguarded backfill of server/migrations/036_add_voice_agent_activation.sql:33-67 is left out, and snapshots it wrote need not fit their engine.
- Activation.ResolveSnapshot: decryption and JSON decoding are left out.
- Activation.Store.Activate: tools, policies and engine configuration are opaque values that the snapshot copies.
- EslClient: events, restoring subscriptions after a reconnect, authentication and the ready flag; it is taken as given that the server sends one reply per command in order and that a connection on which a write or deadline call failed delivers no more replies; `EslLate` drops the last.
- HTTP handlers, routing, provider websocket adapters, object storage, NATS, SIP clients, cryptography and plain CRUD statements: no protocol of their own.
