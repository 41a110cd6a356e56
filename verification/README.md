# A verified model of mill-io and mill-rpc

A Dafny model of the three stateful cores of the repository, and proofs of what they promise.

- **The timer wheel** (`mill-io/src/timer_wheel.rs`): four levels of slots, an overflow list, cascades, the long-jump
  path, the cached earliest deadline, and the in-flight protocol around callbacks. The class
  `TimerWheel.WheelInner` is proved to be a map from timer id to deadline from which everything due is removed,
  although its firing loop never looks at a deadline. Above that, `TimerRuns` lets any number of `tick`, `schedule` and
  `cancel` calls interleave, one lock section or callback per step, and `TimerTheorems` proves what callers may rely on
  over every run.
- **The RPC protocol** (`protocol.rs`, `client.rs`, `server.rs`): printer and streaming parser undo each other, chunking
  does not matter (with the exact condition), and client, server and the two byte streams between them together are a
  direct function call, for any interleaving, any chunking and any delay.
- **The compute pool** (`mill-io/src/thread_pool.rs`): spawning threads, workers with program counters, one mutex, one
  condition variable, the metrics atomics and `Drop`, one atomic step at a time. No task is stranded, tasks and metrics
  are conserved, order is kept, shutdown drains; and two limits with their exact conditions.

## Files

| file | holds |
|---|---|
| `WheelArith.dfy`, `WheelIndex.dfy` | placement arithmetic; where ids lie and the placement invariant |
| `TimerSpec.dfy`, `TimerWheel.dfy` | the map the wheel stands for; the wheel, method by method |
| `TimerRuns.dfy`, `TimerTheorems.dfy`, `TimerPaths.dfy`, `TimerWindow.dfy` | all interleavings; promises over runs; step-by-step against one advance; runs on which `cancel` misses |
| `Bytes.dfy`, `Frames.dfy`, `Streams.dfy` | little-endian integers; frames and the parser; parse/print and chunking |
| `RpcServer.dfy`, `RpcClient.dfy`, `RpcBatches.dfy`, `RpcSystem.dfy`, `RpcAnswers.dfy` | the two ends and their batches; the whole system and what holds whatever is replied; what the client is told when replies fit |
| `RpcTheorems.dfy`, `RpcReplies.dfy`, `RpcLimits.dfy`, `RpcClients.dfy` | promises over runs; where every reply is; replies too long; many clients of one server |
| `ComputePool.dfy`, `PoolRuns.dfy`, `PoolCounts.dfy`, `PoolTheorems.dfy`, `PoolLimits.dfy`, `PoolReaders.dfy` | the pool's sections; all interleavings; counters and wake-ups; promises; what fails and when; readers of the metrics |

`dafny verify dfyconfig.toml` checks everything.

## Where the code and its comments differ

- mill-io/src/thread_pool.rs:338-339 says a reader never sees more submissions than the depths and the finished tasks
  account for. At one moment of a run that is so exactly when no worker holds a task it has taken from the queue and no
  spawning thread is between its two increments (`PoolTheorems.ReaderSeesNoExcessIff`, `PoolLimits.ReaderCanSeeExcess`).
  But the accessors load one counter at a time, so a reader does not see one moment: loading the submissions last, it can
  see an excess with nothing in flight at any of its loads (`PoolReaders.ExcessWithNothingInFlight`). The exact condition
  for such a reader counts what happens between its loads: it sees an excess exactly when the tasks in flight as it loads
  the submissions, and those that leave a depth before that depth is loaded, outnumber those that enter a depth before its
  load and those settled before theirs (`PoolReaders.ReaderSeesExcessIff`, with the two fixed orders beside it). The model
  follows the code.
- mill-io/src/timer_wheel.rs:370 says cancel returns true if the timer existed. A popped timer is neither live nor in
  flight until it is marked, and a one-shot is never put in flight, so cancel returns false for every popped timer before
  the mark and for a popped one-shot until its own callback runs, and that callback still runs. `TimerTheorems.CancelMisses`
  is the exact condition; `TimerWindow.CancelCanMiss` and `TimerWindow.CancelCanMissAfterTheMark` are runs. What cancel
  guarantees is stated for calls that return true.
- mill-io/src/timer_wheel.rs:276 promises the duration until the nearest timer. When that timer is due in the present
  millisecond the duration is zero, but the next tick does not fire it yet (`TimerSpec.ZeroWaitFires`,
  `TimerWindow.DueNowDoesNotFire`).

## Model

| member | source | states |
|---|---|---|
| WheelArith.SpanIsShift | mill-io/src/timer_wheel.rs:23-33 | the four shifts and the 2^26 range are the running sums of the level bits |
| WheelArith.InsertionFits | mill-io/src/timer_wheel.rs:102-129 | a deadline within range is filed at a level whose window covers it, at any cursor and stage of a cascade round |
| WheelArith.CursorSlotIsDue | mill-io/src/timer_wheel.rs:171-180 | in a settled level 0, lying in the cursor's slot means being due on this very tick, both ways |
| WheelArith.HigherLevelsAreLater | mill-io/src/timer_wheel.rs:170-180 | nothing at a higher level is due yet, so skipping those levels fires no timer late |
| WheelArith.WindowAfterTick | mill-io/src/timer_wheel.rs:182-193 | moving the cursor only loosens levels whose cascade is now due |
| WheelArith.CascadeSlotIsDue | mill-io/src/timer_wheel.rs:133-142 | at an aligned tick the drained slot is exactly the block that starts now; everything else at that level satisfies the strict window |
| WheelArith.RefiledSlotIsFresh | mill-io/src/timer_wheel.rs:133-142 | a timer refiled by a cascade lands below that level and not under the cursor of any level already cascaded |
| WheelArith.WindowSettled | mill-io/src/timer_wheel.rs:184-193 | stopping at the first unaligned level loses nothing |
| WheelIndex.LiveNotPast | mill-io/src/timer_wheel.rs:170-180 | no live timer is behind the cursor, and the cursor's level-0 slot holds exactly those due now |
| WheelIndex.SlotFired | mill-io/src/timer_wheel.rs:170-182 | firing the slot removes exactly the timers due and leaves the rest correctly placed for the next tick |
| WheelIndex.FarBound | mill-io/src/timer_wheel.rs:196-203 | when the overflow minimum is still out of range the skipped rescan would have moved nothing |
| WheelIndex.JumpSparesOnlyOverflow | mill-io/src/timer_wheel.rs:165-168 | whatever a long jump does not fire lies in overflow: every timer in a slot is due before the target |
| WheelIndex.AtMostThreeMoves | mill-io/src/timer_wheel.rs:131-142 | in every settled wheel no live timer has been moved by cascades more than three times since it was armed |
| TimerSpec.FiresInTwo | mill-io/src/timer_wheel.rs:170-194 | firing to one tick and then to a later one is firing to the later one, in order and without repeats |
| TimerSpec.AdvanceMeans | mill-io/src/timer_wheel.rs:158-248 | an advance spelled out: up to 2^26 ticks a timer stays exactly when its deadline is not before the target, beyond exactly when it is after; the others are returned once each, in deadline order on the short path |
| TimerSpec.CacheAfterInsert | mill-io/src/timer_wheel.rs:254-260 | the O(1) update on insertion keeps a filled cache the true minimum |
| TimerSpec.CacheAfterRemove | mill-io/src/timer_wheel.rs:263-267 | dropping the cache only when the removed deadline equals it is enough |
| TimerWheel.WheelInner.constructor | mill-io/src/timer_wheel.rs:73-93 | the empty wheel satisfies the placement, index and cache invariants |
| TimerWheel.WheelInner.LevelForDelta | mill-io/src/timer_wheel.rs:120-129 | finds the lowest level whose span covers the delay, the top one when none does |
| TimerWheel.WheelInner.InsertIntoWheel | mill-io/src/timer_wheel.rs:102-117 | an id enters exactly one slot, or overflow when 2^26 or more ahead, with the overflow minimum kept |
| TimerWheel.WheelInner.Cascade | mill-io/src/timer_wheel.rs:133-142 | exactly the live timers whose block starts now move, each to a strictly lower level, never into a slot already emptied this round, and each move adds one to its count; nothing else moves |
| TimerWheel.WheelInner.CascadeRound | mill-io/src/timer_wheel.rs:184-193 | the round ends in the settled placement invariant, with no live timer in any slot it emptied |
| TimerWheel.WheelInner.ReinsertOverflow | mill-io/src/timer_wheel.rs:145-155 | after the rescan every live timer is placed for the present cursor and the minimum is a true bound again; timers in slots stay where they are |
| TimerWheel.WheelInner.TickTo | mill-io/src/timer_wheel.rs:170-194 | returns exactly the live timers with deadline before the target, each once, in deadline order, and keeps all others |
| TimerWheel.WheelInner.DrainDueInto | mill-io/src/timer_wheel.rs:217-248 | a long jump fires exactly the timers at or before the target and re-establishes the invariant at the new cursor; every survivor came from overflow |
| TimerWheel.WheelInner.FireSlot | mill-io/src/timer_wheel.rs:171-182 | firing the cursor's slot pops exactly the timers due now; by then cascades have moved none of them more than three times since it was armed |
| TimerWheel.WheelInner.AdvanceTo | mill-io/src/timer_wheel.rs:158-212 | on either path the wheel refines removing everything due from a map; the cursor never goes back; the cache and counts stay right; no live timer's count of cascade moves goes down or passes three |
| TimerWheel.WheelInner.NoteInserted | mill-io/src/timer_wheel.rs:254-260 | a cache that was right for the other timers is right for all of them, and it is filled exactly when it was before or the new timer is the only one |
| TimerWheel.WheelInner.Schedule | mill-io/src/timer_wheel.rs:320-368 | the new timer is live at now plus delay and not moved yet, every other timer stays in its place, all invariants hold |
| TimerWheel.WheelInner.Cancel | mill-io/src/timer_wheel.rs:371-386 | true exactly for a live or in-flight timer, with the one change each case makes |
| TimerWheel.WheelInner.MarkInFlight | mill-io/src/timer_wheel.rs:407-413 | exactly the repeating timers popped become in flight |
| TimerWheel.WheelInner.Rearm | mill-io/src/timer_wheel.rs:433-459 | every popped repeating timer is live again one interval from now unless it was cancelled meanwhile; nothing else changes |
| TimerWheel.WheelInner.RearmEntry | mill-io/src/timer_wheel.rs:437-458 | one timer: live again at now plus its interval, or dropped if cancelled meanwhile; every other timer untouched |
| TimerWheel.WheelInner.RecomputeEarliest | mill-io/src/timer_wheel.rs:270-274 | the least live deadline, none only when no timer is live |
| TimerWheel.WheelInner.TimeUntilNext | mill-io/src/timer_wheel.rs:279-296 | none exactly when no timer is live, otherwise the distance to the true minimum cut at zero, cached or not |
| TimerSpec.ZeroWaitFires | mill-io/src/timer_wheel.rs:165-170 | after a zero wait the next advance fires something, unless the least deadline is this very tick and the advance is no long jump; both ways |
| TimerWindow.DueNowDoesNotFire | mill-io/src/timer_wheel.rs:170-170 | a wheel on which the wait is zero and an advance to now fires nothing |
| TimerWheel.WheelInner.PendingCount | mill-io/src/timer_wheel.rs:469-471 | the counter is the number of live timers |
| TimerRuns.RearmMeaning | mill-io/src/timer_wheel.rs:437-458 | the reschedule loop as a whole: which ids come back, at which deadline, and which are dropped |
| TimerRuns.StepKeepsInv | mill-io/src/timer_wheel.rs:320-460 | every lock section and callback keeps: in-flight ids apart from live ones, cancelled within in flight, no id in two hands, no live deadline behind the cursor |
| TimerRuns.LockSectionsCallable | mill-io/src/timer_wheel.rs:320-460 | in every reachable state each section about to run meets what the wheel's methods require, so these preconditions cost callers nothing |
| TimerTheorems.StepChanges | mill-io/src/timer_wheel.rs:371-460 | the only ways any step can change the life of one timer |
| TimerTheorems.RunAccounts | mill-io/src/timer_wheel.rs:320-460 | conservation: a one-shot timer is exactly one of live, popped, fired, cancelled; a repeating one is live or in one hand until cancelled |
| TimerTheorems.CancelIsFinal | mill-io/src/timer_wheel.rs:371-386 | after cancel returned true the timer is never live again; its callback runs at most once more, and not at all unless a tick call still had it to run and had marked it in flight |
| TimerTheorems.CancelMisses | mill-io/src/timer_wheel.rs:371-386 | over all runs, cancel returns false for a timer still to fire or to be re-armed if and only if a tick call holds it and has not marked it yet or it is a one-shot |
| TimerTheorems.CancelWindow | mill-io/src/timer_wheel.rs:396-431 | of the timers one tick call holds, cancel misses exactly those not yet marked and the one-shots, whose callback is then still to come |
| TimerWindow.CancelCanMiss | mill-io/src/timer_wheel.rs:396-424 | a run on which cancel misses before the mark and the callback then runs |
| TimerWindow.CancelCanMissAfterTheMark | mill-io/src/timer_wheel.rs:405-425 | a run on which it misses a one-shot after the mark, no tick call being in the earlier gap |
| TimerTheorems.OneShotRunsOnce | mill-io/src/timer_wheel.rs:320-342 | at most one call of a one-shot callback and none once cancelled; after a completed tick past its deadline it has been called once or is about to be in a tick call still running, and exactly once when none is running |
| TimerTheorems.ScheduledAsAsked | mill-io/src/timer_wheel.rs:327-339 | a timer is live at the clock plus its delay as soon as it is scheduled |
| TimerTheorems.FirstFiringIsOnTime | mill-io/src/timer_wheel.rs:344-368 | a timer nobody cancelled that has not fired has the deadline it was scheduled with while live, and once a tick with a later target has completed it is about to fire in a tick still running |
| TimerTheorems.RepeatingIsNeverLost | mill-io/src/timer_wheel.rs:346-368 | a repeating timer nobody cancelled is live or held by one running tick, so never lost |
| TimerTheorems.FiringsAreSpaced | mill-io/src/timer_wheel.rs:419-459 | no callback runs before its deadline, none twice in one tick, and firing targets of a repeating timer are at least an interval apart |
| TimerPaths.WalkFires | mill-io/src/timer_wheel.rs:158-212 | any sequence of advances fires exactly the timers before the largest horizon met and keeps the rest |
| TimerPaths.AdvancesAreAWalk | mill-io/src/timer_wheel.rs:158-212 | any sequence of advances of the wheel returns, all together, exactly what the walk fires, each timer once, and ends with what it leaves |
| TimerPaths.PathIndependence | mill-io/src/timer_wheel.rs:158-212 | stepwise and direct advances agree if and only if the direct one is no long jump, or the walk arrives by one, or no timer is due at the target itself |
| TimerPaths.ShortPathsAgree | mill-io/src/timer_wheel.rs:158-212 | within 2^26 of the starting cursor the path never matters |
| TimerPaths.LongPathsMayDiffer | mill-io/src/timer_wheel.rs:165-168 | one tick further it can: the long jump fires what the tick-by-tick path leaves |
| Bytes.FromLeOfLe | mill-rpc/mill-rpc-core/src/protocol.rs:98-121 | little-endian integers of any width read back as written |
| Bytes.LeOfFromLe | mill-rpc/mill-rpc-core/src/protocol.rs:98-121 | and bytes read and written again are the same bytes |
| Bytes.LeAt | mill-rpc/mill-rpc-core/src/protocol.rs:98-158 | byte i of a little-endian integer is n / 256^i % 256 |
| Frames.EncodeHeader | mill-rpc/mill-rpc-core/src/protocol.rs:91-100 | fills nine bytes: 0x4D, 0x52, version, flags, type, and the payload length least significant byte first |
| Frames.HeaderOnWire | mill-rpc/mill-rpc-core/src/protocol.rs:21-100 | every byte of a header, the six type codes in numbers |
| Frames.RequestOnWire | mill-rpc/mill-rpc-core/src/protocol.rs:148-172 | every byte of an encoded request: flags 2 when one-way, type 1, then id, service, method and arguments at their places |
| Frames.ReplyOnWire | mill-rpc/mill-rpc-core/src/protocol.rs:175-206 | every byte of an encoded response (type 2) and error (type 3) |
| Frames.PlainOnWire | mill-rpc/mill-rpc-core/src/protocol.rs:209-232 | every byte of a frame without flags, pings (4) and pongs (5) among them |
| Frames.OneWayBit | mill-rpc/mill-rpc-core/src/protocol.rs:66-73 | one-way is bit 1 of the flags |
| Frames.DecodedExactly | mill-rpc/mill-rpc-core/src/protocol.rs:103-136 | which nine bytes are a header and what they say; for all others, which error and in which order the checks are made |
| Frames.RequestFields | mill-rpc/mill-rpc-core/src/protocol.rs:244-253 | where the fields of a request payload lie, and that twelve bytes are the least |
| Frames.ReplyFields | mill-rpc/mill-rpc-core/src/protocol.rs:256-263 | where the fields of a reply payload lie, and that eight bytes are the least |
| Frames.DecodeOfEncode | mill-rpc/mill-rpc-core/src/protocol.rs:91-136 | decoding undoes encoding for every header of this version within the payload limit |
| Frames.EncodeOfDecode | mill-rpc/mill-rpc-core/src/protocol.rs:103-136 | whatever decodes is such a header, and encodes to the same nine bytes |
| Frames.ParseFrames | mill-rpc/mill-rpc-core/src/protocol.rs:270-293 | the loop with a moving offset is the recursive parse, error cases included |
| Frames.RequestPayloadRoundTrip | mill-rpc/mill-rpc-core/src/protocol.rs:148-172 | id, service, method, arguments and the one-way flag come back from a request frame |
| Frames.ResponsePayloadRoundTrip | mill-rpc/mill-rpc-core/src/protocol.rs:175-206 | id and data come back from a response or error frame |
| Streams.ParseOfPrint | mill-rpc/mill-rpc-core/src/protocol.rs:235-293 | any good frames printed one after another, with any incomplete tail, parse to exactly those frames and bytes |
| Streams.PrintIsInjective | mill-rpc/mill-rpc-core/src/protocol.rs:235-241 | a byte stream determines its frames and its tail |
| Streams.PrintOfParse | mill-rpc/mill-rpc-core/src/protocol.rs:270-293 | re-encoding what was parsed gives the consumed prefix; the leftover is incomplete and shorter than nine bytes plus 16 MiB |
| Streams.ParseLonger | mill-rpc/mill-rpc-core/src/protocol.rs:270-293 | more bytes never change what was parsed nor repair what was broken |
| Streams.ChunksDoNotMatter | mill-rpc/mill-rpc-core/src/protocol.rs:266-293 | append, parse, drain over any cut of a stream that parses gives the frames and leftover of the whole |
| Streams.CutAnywhereIff | mill-rpc/src/server.rs:146-166 | a stream may be cut anywhere if and only if it parses, or is one broken header and nothing else; otherwise some cut shows |
| Streams.CutThatShows | mill-rpc/src/server.rs:153-166 | ten zero bytes leave an empty buffer in one chunk and one byte in two |
| Streams.BrokenLetsInIff | mill-rpc/src/client.rs:183-203 | from a stream that begins with a broken header a receiver can be made to hand on exactly the frames whose printed form lies in it after that header |
| RpcServer.AnsweredExactly | mill-rpc/src/server.rs:191-264 | pings and well-formed two-way requests whose outcome can be sent get a reply, nothing else does; it reads back as that request's id and what the registered service gave for its id, service, method and arguments, or as service not found |
| RpcServer.ConnectionsDoNotMix | mill-rpc/src/server.rs:137-183 | over any events on any connections, one connection hands on and keeps what a receiver fed its own chunks since it was last opened or closed would, broken headers or not |
| RpcServer.RpcServerHandler.OnData | mill-rpc/src/server.rs:146-177 | only that connection's buffer changes, to the leftover; the replies answer, in order and onto, exactly the completed frames that have an answer |
| RpcBatches.ServerBatch | mill-rpc/src/server.rs:172-174 | what it sends for a batch is, step for step, what handling the frames one at a time puts on the stream |
| RpcClient.RpcClient.Register | mill-rpc/src/client.rs:86-98 | a fresh id and an empty entry before anything is sent |
| RpcClient.RpcClient.Poll | mill-rpc/src/client.rs:114-122 | a completed entry is returned and removed, an absent one reported, otherwise nothing changes; neither unwrap fails |
| RpcClient.GivingUpIsLocal | mill-rpc/src/client.rs:105-109 | removing an entry commutes with every later reply: other calls complete as before and no late reply brings it back |
| RpcClient.CarriedExactly | mill-rpc/src/client.rs:210-240 | which frames carry a result, for which id, and whether it is a value or an error |
| RpcClient.RpcClient.OnData | mill-rpc/src/client.rs:177-207 | the buffer keeps the leftover; the keys stay, each waiting call named by a completed frame holds the result of the last one that names it, and the others are as they were |
| RpcBatches.ClientBatch | mill-rpc/src/client.rs:201-203 | what it does for a batch is, step for step, taking the frames one at a time |
| RpcSystem.StreamDeliver | mill-rpc/src/client.rs:183-203 | delivering a chunk moves frames from the stream to the inbox and loses none |
| RpcAnswers.RepliesAreOk | mill-rpc/src/server.rs:209-264 | the reply to a request that was made, if it fits a frame, is a good frame carrying that request's own answer |
| RpcSystem.CompleteMeaning | mill-rpc/src/client.rs:210-248 | a reply frame sets exactly the entry it names, and only if that is there |
| RpcSystem.StepKeepsInv | mill-rpc/src/client.rs:80-257 | whatever the services reply, every step keeps the table exact, the way to the server well formed and truthful, and dispatch in order |
| RpcAnswers.FitBefore | mill-rpc/src/server.rs:241-256 | if every reply sent by now fits a frame, so did every reply sent a step earlier |
| RpcAnswers.StepKeepsAnswers | mill-rpc/src/server.rs:209-264 | as long as what is sent fits, every step keeps the way to the client well formed and all stored and returned results those of their own calls |
| RpcAnswers.BoundedRepliesFit | mill-rpc/src/server.rs:241-256 | where every call that fits is answered with a reply that fits, no run ever breaks that condition |
| RpcAnswers.EchoIsBounded | mill-rpc/examples/echo_server.rs:34-38 | a service that returns its arguments never breaks that condition, whatever the codec |
| RpcTheorems.EveryCallGetsItsOwnAnswer | mill-rpc/src/client.rs:80-145 | in every run, if the replies sent so far fit a frame: a returned value is what the service registered under the call's number gave for that call's id, service, method and arguments, dispatched exactly once; an error is unavailable and the request was never sent, or deadline exceeded and it was, or that service's error, or service not found when none is registered |
| RpcTheorems.ErrorsComeBackWhole | mill-rpc/src/client.rs:228-247 | with a codec that decodes what it encodes, every result is a local failure or exactly what the registered service gave for that call |
| RpcTheorems.AnswersAreFinal | mill-rpc/src/client.rs:114-145 | a call returns once; its request and result never change and its entry never comes back |
| RpcTheorems.DispatchIsFifo | mill-rpc/src/server.rs:172-174 | dispatched requests are a prefix of those sent, none twice |
| RpcTheorems.TableIsExact | mill-rpc/src/client.rs:86-145 | whatever the services reply, the table's ids are those of calls made and not returned; completed entries have a result |
| RpcTheorems.NothingDisappears | mill-rpc/src/client.rs:114-122 | a waiting call always finds its entry, so the "disappeared" branch is never taken |
| RpcTheorems.LateRepliesAreIgnored | mill-rpc/src/client.rs:221-248 | a reply changes at most the entry it names; late or unknown ones change nothing |
| RpcReplies.NoReplyIsLost | mill-rpc/src/client.rs:80-257 | conservation: the request of a waiting call is under way, or was dispatched and its reply is under way or in the table, unless none was sent |
| RpcReplies.QuietMeansAnswered | mill-rpc/src/client.rs:114-119 | with both streams and inboxes handled, the next look of every waiting call that was answered returns |
| RpcTheorems.CallsCanSucceed | mill-rpc/src/client.rs:80-145 | a run on which a call returns its registered service's value, for every call that fits and every service whose value for it fits |
| RpcClients.ViewSteps | mill-rpc/src/server.rs:128-183 | a step of a server with many clients is, for each connection, a step of its own, its opening, or nothing |
| RpcClients.EveryClientGetsItsOwnAnswers | mill-rpc/src/server.rs:128-183 | with any number of clients, all counting ids from 1, every call on every connection gets what the registered service gave for its own id, service, method and arguments, if the replies sent on that connection fit |
| RpcLimits.OversizeReplyForgesAnswer | mill-rpc/src/server.rs:242-256 | a run on which a reply too long for a frame makes a call return bytes its dispatch never gave, so the bound on replies is needed |
| RpcLimits.LongReplyForgesIff | mill-rpc/src/client.rs:183-203 | a reply too long for a frame can give a call an answer if and only if a whole frame carrying it lies in the reply somewhere after the header |
| ComputePool.TopExists | mill-io/src/thread_pool.rs:199-206 | the task order always has a greatest element to pop |
| ComputePool.TopIsFirstInLine | mill-io/src/thread_pool.rs:121-206 | the heap pops a Critical task if any is queued, else a High one, else a Normal one, and the oldest of its priority; both ways |
| ComputePool.ComputeThreadPool.Reserve | mill-io/src/thread_pool.rs:327-332 | each task gets the next sequence number |
| ComputePool.ComputeThreadPool.Submit | mill-io/src/thread_pool.rs:334-356 | the section of spawn: the push and its two counters, nothing else |
| ComputePool.ComputeThreadPool.Take | mill-io/src/thread_pool.rs:254-284 | a worker waits only when the queue is empty and the pool runs, leaves only when it is empty and shutting down, and otherwise pops a Critical task if any is queued, else High, else Normal, the oldest of its priority |
| PoolRuns.ThreadKeepsLock | mill-io/src/thread_pool.rs:334-356 | mutual exclusion, spawning side |
| PoolRuns.WorkerKeepsLock | mill-io/src/thread_pool.rs:254-284 | mutual exclusion, worker side |
| PoolRuns.ThreadKeepsPlaces | mill-io/src/thread_pool.rs:323-361 | every spawned task is in exactly one place |
| PoolRuns.WorkerKeepsPlaces | mill-io/src/thread_pool.rs:253-306 | and stays so through pop, run and completion |
| PoolCounts.ThreadKeepsCounts | mill-io/src/thread_pool.rs:334-356 | the counter equations hold after every spawning step, mid-section states included |
| PoolCounts.WorkerKeepsCounts | mill-io/src/thread_pool.rs:266-305 | the counter equations hold after every worker step |
| PoolCounts.WorkerKeepsNoneStranded | mill-io/src/thread_pool.rs:253-264 | going to wait never strands a queued task |
| PoolTheorems.NoTaskIsStranded | mill-io/src/thread_pool.rs:253-361 | while a worker waits the queue is no longer than the notifications to come and the workers sure to look; a queued task always has one of them |
| PoolTheorems.MetricsAreConserved | mill-io/src/thread_pool.rs:266-356 | with the lock free, submissions are queued, held or finished tasks and each depth is its priority's queue length |
| PoolTheorems.CountersNeverWrap | mill-io/src/thread_pool.rs:266-296 | no fetch_sub ever meets zero |
| PoolTheorems.ReaderSeesNoExcessIff | mill-io/src/thread_pool.rs:338-340 | at one moment of a run, what the comment claims holds exactly when no worker holds a task that left the depths and no thread is between its increments |
| PoolLimits.ReaderCanSeeExcess | mill-io/src/thread_pool.rs:338-340 | a reachable state, lock free, in which the comment fails |
| PoolReaders.CountersMove | mill-io/src/thread_pool.rs:266-356 | between two moments of a run a depth changes by the tasks that entered and left it, a finished count by those settled |
| PoolReaders.ReaderSeesExcessIff | mill-io/src/thread_pool.rs:141-177 | for a reader that loads the counters one by one, at any moments in any order: an excess exactly when the tasks in flight as it loads the submissions and those leaving a depth before its load outnumber those entering one and those settled before theirs |
| PoolReaders.ExcessAfterSubmissions | mill-io/src/thread_pool.rs:141-177 | the same, both ways, for a reader that loads the submissions first, in plain counts of what happens up to each load |
| PoolReaders.ExcessBeforeSubmissions | mill-io/src/thread_pool.rs:141-177 | the same, both ways, for a reader that loads the submissions last |
| PoolReaders.ExcessWithNothingInFlight | mill-io/src/thread_pool.rs:141-177 | a run and a reader that loads the submissions last and sees an excess with nothing in flight at any of its loads |
| PoolTheorems.SpawnedAsAsked | mill-io/src/thread_pool.rs:323-332 | what is spawned is the closure and priority asked for, under the next sequence number |
| PoolTheorems.PopsAreFirstInLine | mill-io/src/thread_pool.rs:266-266 | every pop of a run takes a Critical task if any is queued, else High, else Normal, the oldest of its priority |
| PoolTheorems.PopsFindATask | mill-io/src/thread_pool.rs:257-267 | a worker that gets to the pop finds a task |
| PoolTheorems.OneThreadSeesFifo | mill-io/src/thread_pool.rs:323-361 | tasks of one thread and priority are popped in the order spawned, over the whole run |
| PoolTheorems.NoTaskRunsTwice | mill-io/src/thread_pool.rs:286-290 | a closure is called at most once and only after its pop |
| PoolTheorems.LeavingMeansDrained | mill-io/src/thread_pool.rs:262-264 | a worker leaves only with the flag set and the queue empty, and it stays empty |
| PoolTheorems.DropDrains | mill-io/src/thread_pool.rs:368-377 | when Drop returns every task ever spawned has run exactly once and is counted finished |
| PoolLimits.WorkerLeftWaitingIff | mill-io/src/thread_pool.rs:369-372 | a worker can be left waiting after the last notification exactly when one is between its test and its wait at that moment |
| PoolLimits.LeftWaitingForGood | mill-io/src/thread_pool.rs:373-375 | on every path, however long, that worker waits and Drop has not returned, unless a spurious wake-up moves the worker |
| PoolLimits.DropCanHang | mill-io/src/thread_pool.rs:369-375 | a run on which every worker is left waiting |

## Left out

- Sockets, polling, wakers, the reactor and the handler registry: operating-system I/O and thin wrappers.
- TCP connection accounting, `ObjectPool`, the I/O `ThreadPool`, configuration builders, error types, `RpcContext` and
  macro name helpers: only easy members.
- Bincode, serde and the procedural macros: arguments, results and errors are opaque bytes, dispatch is an arbitrary
  function of request id, service, method and arguments, and error serialisation an arbitrary partial function. A
  dispatcher with state of its own is outside this; `DispatchIsFifo` and the exactly-once clause do not depend on it.
- Word width: ids, sequence numbers and request ids are assumed not to wrap, and `clock + delay` and `cursor + 2^26` not
  to overflow 64 bits. Counter decrements do wrap in the model and are shown never to.
- Oversized payloads: `payload.len() as u32` is truncated in the model as in the code. Calls in the system have arguments
  that fit a frame (`RpcSystem.Fits`). Of the services nothing is assumed; the theorems about results ask that the replies
  sent by then, to calls of that client, fit a frame (`RpcAnswers.RepliesFit`), which the server does not check. Without it
  they are false (`RpcLimits.OversizeReplyForgesAnswer`, with the exact condition for one reply below 4 GiB in
  `RpcLimits.LongReplyForgesIff`). The table, finality and order of dispatch do not need it.
- Partly written frames: a send writes the whole frame or nothing. Chunks of one connection are handled in stream order,
  not by several I/O workers at once. Connection numbers are not used twice.
- `call_raw` takes its id and enters it in the table in one step; a `call_oneway` that fails to send has no further effect and
  is not a step.
- Panicking timer callbacks and poisoned mutexes. Panicking pool tasks are modelled: they count as failed.
- `Instant` is a nondecreasing count of whole milliseconds since the wheel was created; execution-time metrics are not
  modelled.
- Memory order: atomics are read and written one at a time in one global order; reorderings that relaxed loads and stores
  permit are not modelled.
- `BinaryHeap`, `HashMap`, `Mutex` and `Condvar` are their specifications: a set with a greatest element to pop, a map, one
  holder at a time, a set of waiters with spurious wake-ups. The pool has at least one worker.
- Liveness: no claim that Drop returns (`PoolLimits.DropCanHang` shows why), that a reply arrives before the timeout, or that
  any thread is scheduled.
- TimerWheel.WheelInner.AdvanceTo: does not promise deadline order on the long-jump path, because the source collects slot by slot
  there and gives none.
