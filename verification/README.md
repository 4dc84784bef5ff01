# uvent, modelled and proved in Dafny

uvent is a coroutine runtime: workers with thread-local pollers and timer wheels, sockets that
belong to one worker, and synchronisation primitives that park and resume coroutines. This
project models the protocols at its core, in the default build (epoll, thread-local wheel and
poller), and proves what every run of them keeps.

`dafny verify dfyconfig.toml` checks everything.

## How to read it

The timer wheel, the wait list and the compaction and weaving loops are imperative: classes and
methods whose contracts tie the new state to a function of the old one. The protocols between
threads are state machines. Each has a `State`, a `Step` for every atomic operation or section
held under a lock, `Enabled` and `Do`, an invariant `Inv` that every step keeps (`StepKeepsInv`),
and theorems over every run, that is every sequence of states in which each follows from the one
before by an enabled step, in any interleaving of any number of threads. Atomics are sequentially
consistent. Fields marked as history record what happened and influence nothing. Where `Enabled`
guards an index or a counter, a lemma `NeverStuck`, `NeverBelowZero` or `NeverOutOfBounds` shows that
the invariant implies the guard, so that it hides no step of the code. Safety over runs says what never
happens; lemmas about calls that nobody disturbs say beside it what a call then does, from its first
step to its last.

| file | what it models |
|---|---|
| `TimerPlacement`, `SlotDrain` | where the wheel files a timer, and when the loop that drains a slot ends |
| `Scheduler` | the simple set of (id, expiry) pairs that the wheel must agree with, and its runs |
| `TimerBuckets`, `TimerWheel` | buckets, back pointers, cached minimum; the wheel's methods |
| `MpscQueue`, `InboxWakeup` | the intrusive queue; the inbox flag, the eventfd and the sleeping worker |
| `SocketTeardown`, `TimerReference` | when a socket header may be freed; which use of its timer keeps it from leaking |
| `ReadinessWord` | parking on a socket, and its timeout |
| `AddressWeave`, `HappyEyeballs` | the connection race of sections 3 to 5 of RFC 8305 |
| `WaitList`, `Semaphore`, `AsyncMutex`, `Select` | the wait list and three primitives built on it |
| `HazardPointers`, `Qsbr`, `Compaction` | safe memory reclamation |
| `CancelTree`, `CancelKick`, `LiveTasks` | cancellation and live-task accounting |
| `Wrappers`, `Lists` | an optional value and small numbers; sequences without duplicates |

## Findings

Five properties that the code is meant to have hold only under a condition. In each case the code
is modelled as it is; a concrete input or sequence of steps shows the failure, and the condition is
proved exact.

- A timer filed past the wheel's horizon (never less than 2^32 ms ahead; exactly when
  `expiry / 2^24 > now / 2^24 + 256`) is filed back into the bucket being drained, and `advance()` never returns
  (`SlotDrain.HangsIffPastHorizon`, `SlotDrain.HorizonWitness`).
- `pop` of the intrusive queue can return null at a moment when nothing is empty or half linked:
  a push overtook it between two of its loads (`MpscQueue.NullDespiteLinkedNodes`,
  `MpscQueue.NullWithoutGapIff`). The inbox protocol does not lose a wake-up by it.
- The comment on `tflags` says that the timer's reference is dropped exactly once. It leaks, and the
  header is never freed, if a foreign `shutdown` overtakes a forwarded `set_timeout_ms`, if
  `set_timeout_ms` is called twice before the owner has applied the first call, or if the owner sets a
  new timer between the applied op of a foreign `shutdown` and its claim (`TimerReference.LeaksWithout`,
  `SocketTeardown.StuckForever`). Three rules on the start of the two calls exclude these, and a set of
  them prevents every leak if and only if it has all three (`TimerReference.RulesAreExact`).
- The timeout takes the waiter and then closes the descriptor. A reader on another worker that is between
  its failed read and its park at that moment parks on a closed socket, and no event can wake it
  (`ReadinessWord.TimeoutStrandsReader`, `ReadinessWord.StrandedStays`, `ReadinessWord.WindowIsReached`).
  Everywhere else the timeout does no harm (`ReadinessWord.TimeoutIsHarmlessIff`), and a reader on the
  socket's own worker is always safe (`ReadinessWord.OwnThreadReaderIsSafe`).
- 0 stands for "no timer" in the cached minimum, so filing a timer keeps the minimum right if and only if
  its expiry is not 0, which only a 64-bit wrap of the clock can give
  (`TimerBuckets.FilingKeepsNextIff`, `TimerBuckets.ZeroExpiryHidesOthers`).

Two branches turn out to be unreachable:

- The fallback of `removeTimerFromWheel`, a linear search, is never needed
  (`TimerWheel.Wheel.RemoveTimerFromWheel`), and the fallback error of the connection race is never
  used (`HappyEyeballs.ErrorMeansExhausted`).

## Model

| member | source | states |
|---|---|---|
| `TimerPlacement.FilingIsPlaced` | src/utils/timer/TimerWheel.cpp:149-165 | for every time and expiry, the place chosen is `Placed`: in the expiry's own slot of a level, ahead of the clock and close enough for that level, or the next slot if the expiry has passed |
| `TimerPlacement.HorizonCoversThirtyTwoBits` | src/utils/timer/TimerWheel.cpp:15-22 | every expiry less than 2^32 ms ahead is within the exact horizon |
| `TimerPlacement.CascadeDescends` | src/utils/timer/TimerWheel.cpp:358-372 | a timer that a cascade re-files lands at a strictly lower level, at a place right for the new time, and in no slot that is due in this step |
| `TimerPlacement.VisitedIsDue` | src/utils/timer/TimerWheel.cpp:358-372 | a timer in a visited slot is due now, or due within one interval of its level; at level 0 it is due |
| `SlotDrain.DrainEndsIff` | src/utils/timer/TimerWheel.cpp:389-420 | the drain loop empties its bucket if and only if no timer in it is filed back into it |
| `SlotDrain.FirstVisitIsFirst` | src/utils/timer/TimerWheel.cpp:362-368 | the first time after filing at which the top level visits a timer's slot |
| `SlotDrain.HangsIffPastHorizon` | src/utils/timer/TimerWheel.cpp:149-169 | a level-3 timer is filed back at its first visit, so that the drain never ends, if and only if it was filed past the horizon |
| `SlotDrain.HorizonWitness` | src/utils/timer/TimerWheel.cpp:149-169 | a concrete expiry for which this happens |
| `Scheduler.FiresExactlyOnTime` | src/utils/timer/TimerWheel.cpp:358-421 | over every run, a filed timer that is left alone is still filed before its step and logged once, at exactly its expiry (or the next step if that had passed), from then on |
| `Scheduler.AddedFiresOnTime` | src/utils/timer/TimerWheel.cpp:26-42 | from end to end: an added timer that is left alone waits for the first tick, is filed by it, and is logged exactly once, at its expiry or at the first step of that tick if that had passed |
| `Scheduler.UpdatedFiresOnTime` | src/utils/timer/TimerWheel.cpp:286-301 | over every run: if the last request about a timer in the queue of a tick is an update by d, drained at clock c, then while it is left alone it is on schedule for c + d, is logged once, at that time or at the first step of the tick, and at no other time |
| `Scheduler.UpdateTakesEffect` | src/utils/timer/TimerWheel.cpp:44-53 | the same from the call of `updateTimer` on a filed timer |
| `Scheduler.RemovedNeverFires` | src/utils/timer/TimerWheel.cpp:303-333 | once a tick has drained a remove of an issued timer that has not fired, it never fires |
| `Scheduler.CancelledNeverFires` | src/utils/timer/TimerWheel.cpp:66-124 | once a cancel or detach of an issued id returned true, that id is in no log of the run, before or after |
| `Scheduler.FailedCancelWasTooLate` | src/utils/timer/TimerWheel.cpp:66-124 | a cancel of an issued id returns false only if the timer has fired or was withdrawn |
| `Scheduler.RunKeepsInv` | src/utils/timer/TimerWheel.cpp:247-335 | every issued id is queued, filed, fired or gone, in every state of every run; ids are drained in order |
| `Scheduler.ElapsedCompose` | src/utils/timer/TimerWheel.cpp:345-346 | letting time pass in two stretches fires the same timers at the same steps as in one |
| `TimerBuckets.UnfiledFacts` | src/utils/timer/TimerWheel.cpp:171-208 | removal by swap-pop keeps buckets, back pointers, map and minimum describing the same timers, without the removed one |
| `TimerBuckets.MovedFacts` | src/utils/timer/TimerWheel.cpp:376-419 | pushing a timer to its new bucket and then swap-popping its old entry moves it and nothing else, strictly down, and keeps the minimum |
| `TimerBuckets.StepDone` | src/utils/timer/TimerWheel.cpp:358-372 | when all levels have been visited exactly the due timers have fired and the others are well placed |
| `TimerBuckets.ScanDone` | src/utils/timer/TimerWheel.cpp:210-226 | the scanned minimum is the least expiry of all filed timers, 0 when there are none |
| `TimerBuckets.FilingKeepsNextIff` | src/utils/timer/TimerWheel.cpp:167-168 | filing keeps the cached minimum right if and only if the expiry is not 0 |
| `TimerBuckets.ZeroExpiryHidesOthers` | src/utils/timer/TimerWheel.cpp:167-168 | three expiries after which the cached minimum is the largest of them |
| `TimerWheel.Wheel.constructor` | src/utils/timer/TimerWheel.cpp:11-24 | an empty wheel at the given clock stands for the empty scheduler |
| `TimerWheel.Wheel.AddTimer` | src/utils/timer/TimerWheel.cpp:26-42 | refines `Scheduler.AddTimer`; the id is the next one |
| `TimerWheel.Wheel.UpdateTimer` | src/utils/timer/TimerWheel.cpp:44-53 | refines posting an update |
| `TimerWheel.Wheel.RemoveTimer` | src/utils/timer/TimerWheel.cpp:55-64 | refines posting a remove; the callback that reports it is queued with it |
| `TimerWheel.Wheel.CancelTimer` | src/utils/timer/TimerWheel.cpp:66-97 | returns true exactly when the id is filed or not drained yet, and then withdraws it for good; otherwise nothing changes |
| `TimerWheel.Wheel.CancelTimerDetach` | src/utils/timer/TimerWheel.cpp:99-124 | the same for a detach |
| `TimerWheel.Wheel.FindPlace` | src/utils/timer/TimerWheel.cpp:151-160 | the level loop and slot rule compute `PlaceLevel` and `PlaceSlot` |
| `TimerWheel.Wheel.AddTimerToWheel` | src/utils/timer/TimerWheel.cpp:149-169 | the timer is appended to its bucket with the back pointer to match, and the minimum takes it into account |
| `TimerWheel.Wheel.RemoveTimerFromWheel` | src/utils/timer/TimerWheel.cpp:171-208 | the entry is where its back pointer says, so the fast path always applies; the minimum is marked dirty exactly if it was this timer's |
| `TimerWheel.Wheel.ProcessSlot` | src/utils/timer/TimerWheel.cpp:374-421 | empties the visited bucket with its size as measure, firing what is due and moving the rest down, and keeps the whole structure consistent |
| `TimerWheel.Wheel.Advance` | src/utils/timer/TimerWheel.cpp:358-372 | one millisecond of wheel time is one step of the simple scheduler, in time order |
| `TimerWheel.Wheel.ServeOp` | src/utils/timer/TimerWheel.cpp:260-334 | a drained op does to the wheel what its request does to the simple scheduler, and calls the callback of a remove |
| `TimerWheel.Wheel.DrainQueue` | src/utils/timer/TimerWheel.cpp:249-335 | bulk dequeues serve every queued op, in order, until the queue is empty, and call each remove's callback once, in order |
| `TimerWheel.Wheel.UpdateNextExpiryTime` | src/utils/timer/TimerWheel.cpp:210-226 | the rescan finds the exact minimum |
| `TimerWheel.Wheel.RefreshNextExpiry` | src/utils/timer/TimerWheel.cpp:228-245 | afterwards the cached value is the exact minimum (0 when there is none), whichever rescan the dirty flag skipped |
| `TimerWheel.Wheel.Tick` | src/utils/timer/TimerWheel.cpp:247-356 | a tick is a tick of the simple scheduler: the queue drained, exactly the due timers fired, each once at its step; callbacks and coroutines handed over in firing order; the cached minimum exact; what stays filed is within the horizon again |
| `TimerWheel.Wheel.GetNextTimeout` | src/utils/timer/TimerWheel.cpp:126-141 | -1 only when nothing is filed; 0 exactly when the cached minimum has been reached; a positive answer never sleeps past any filed expiry |
| `TimerWheel.Wheel.Empty` | src/utils/timer/TimerWheel.cpp:423-423 | true exactly when nothing is filed |
| `MpscQueue.RunKeepsInv` | include/uvent/utils/datastructures/queue/IntrusiveMPSC.h:26-74 | in every interleaving the nodes from head to tail form one chain whose neighbours are linked or wait for exactly one unfinished push, and the popper can always go on |
| `MpscQueue.PoppedIsPrefixOfPushed` | include/uvent/utils/datastructures/queue/IntrusiveMPSC.h:31-74 | what was popped is a prefix of what was pushed, in tail-exchange order; the rest is what the chain holds; the stub is never returned and never in the chain twice |
| `MpscQueue.NullMeansEmptyOrUnlinked` | include/uvent/utils/datastructures/queue/IntrusiveMPSC.h:39-74 | if pop returns null, then at some instant of that pop the queue was empty or a push had not linked its node |
| `MpscQueue.NullWithoutGapIff` | include/uvent/utils/datastructures/queue/IntrusiveMPSC.h:60-61 | with no such gap at the moment of the return, null is returned if and only if the tail check fails |
| `MpscQueue.NullDespiteLinkedNodes` | include/uvent/utils/datastructures/queue/IntrusiveMPSC.h:60-61 | a run in which pop returns null although two linked nodes wait |
| `MpscQueue.WholePush` | include/uvent/utils/datastructures/queue/IntrusiveMPSC.h:31-37 | an undisturbed push appends its node and links it |
| `MpscQueue.PopReturnsFirst` | include/uvent/utils/datastructures/queue/IntrusiveMPSC.h:39-74 | a pop that nobody disturbs, on a queue with a node and no half linked push, returns the first node, re-inserting the stub when it is the last |
| `InboxWakeup.RunKeepsInv` | src/pool/TLS.cpp:24-51 | a set flag promises a look at the inbox, a set `wake_pending` an event, and `wake_inflight_` counts who may hold the poller, in every state |
| `InboxWakeup.NoLostWakeup` | src/system/Thread.cpp:233-242 | whenever the worker is about to sleep or asleep in `epoll_wait` with no event pending and no producer between its exchange and its write, the inbox is empty and all that was pushed was delivered |
| `InboxWakeup.StepKeepsInv` | src/poll/EPoller.cpp:63-72 | every step of producers and worker keeps these promises, the read of the eventfd before the clearing of `wake_pending` included |
| `InboxWakeup.PopKeeps` | src/system/Thread.cpp:237-241 | a null pop ends the drain only if the inbox is empty or what is left has been announced by a flag set or still to be set |
| `InboxWakeup.NobodyHoldsUnsetPoller` | src/pool/TLS.cpp:38-51 | once `unset_poller` has returned no producer holds the poller's address |
| `InboxWakeup.NeverStuck` | src/pool/TLS.cpp:38-44 | `wake_inflight_` never goes below 0, and a draining worker can always take its next step |
| `InboxWakeup.PushAnnounces` | src/pool/TLS.cpp:24-29 | an undisturbed push links its node and leaves the flag to be set |
| `InboxWakeup.FlagAndWake` | src/pool/TLS.cpp:31-44 | then the flag is set and an event is pending |
| `InboxWakeup.KickWakes` | src/pool/TLS.cpp:36-44 | a kick by itself leaves an event pending, too |
| `InboxWakeup.EventLeadsToDrain` | src/poll/EPoller.cpp:149-161 | a sleeping worker with an event and a set flag gets to draining, with everything reset |
| `InboxWakeup.DrainDelivers` | src/system/Thread.cpp:240-241 | a draining worker delivers the first node of its inbox, unless a push is half linked |
| `InboxWakeup.WorkerGoesRound` | src/system/Thread.cpp:233-242 | from its start or any event the worker looks at the flag, and goes to sleep when it is clear or the inbox is empty |
| `InboxWakeup.StopDetaches` | src/pool/TLS.cpp:46-51 | a worker that stops ends up detached, with its poller taken back |
| `SocketTeardown.ReachableIsInv` | include/uvent/net/SocketLinux.h:1570-1698 | in every reachable state references are handles plus timer references, every claim has a reference of its own, and `pending_ops` counts the ops under way |
| `SocketTeardown.DeletedAtMostOnceAndLast` | src/net/SocketLinux.cpp:80-150 | the header is put in the delete queue at most once, and then it is torn down, nobody has a handle, no op is queued or applied and no timer is armed; timer references are not dropped more often than taken |
| `SocketTeardown.DeletedOnceWhenDrained` | src/net/SocketLinux.cpp:80-150 | when nothing is under way the header was deleted exactly once if and only if the count is 0, if and only if no handle is left and every timer reference was dropped |
| `SocketTeardown.DeletesGrow` | src/net/SocketLinux.cpp:92-93 | an entry in the delete queue is never taken back |
| `SocketTeardown.NeverBelowZero` | include/uvent/utils/sync/RefCountedSession.h:68-76 | neither the reference count nor `pending_ops` is ever taken below 0 |
| `SocketTeardown.StuckForever` | src/net/SocketLinux.cpp:120-133 | with no handle, nothing under way and no timer, no step is possible, whatever the count |
| `SocketTeardown.LastForeignDrop` | include/uvent/net/SocketLinux.h:1684-1697 | dropping the last handle on a foreign worker marks the header and forwards Destroy |
| `SocketTeardown.DestroyDeletes` | src/net/SocketLinux.cpp:80-150 | the owner then cancels the timer, closes, marks and deletes the header, when Destroy is the last op |
| `SocketTeardown.LastOwnerDrop` | src/net/SocketLinux.cpp:80-94 | dropping the last handle on the owner does all that there and then |
| `TimerReference.NoLeak` | include/uvent/net/SocketLinux.h:1570-1668 | in every run that keeps the three rules, when nothing is under way and no timer is armed every timer reference has been dropped, and a header without handles was deleted exactly once |
| `TimerReference.LeaksWithout` | include/uvent/net/SocketLinux.h:1581-1589 | for each of the rules a run that keeps the other two and ends with all handles gone, nothing to do, a count of 1 and the header not deleted |
| `TimerReference.RulesAreExact` | include/uvent/net/SocketLinux.h:55-58 | a set of rules prevents every leak if and only if it has all three |
| `TimerReference.ShutdownOvertakesTimeout` | include/uvent/net/SocketLinux.h:1581-1589 | a shutdown that sees no timer yet claims nothing, and its op cancels the timer armed meanwhile |
| `TimerReference.TimeoutIsSetTwice` | include/uvent/net/SocketLinux.h:1625-1668 | two calls that both see no timer take two references for one timer |
| `TimerReference.OwnerSetsDuringShutdown` | include/uvent/net/SocketLinux.h:1659-1668 | the late claim of a shutdown takes the reference of the timer that the owner has set anew |
| `TimerReference.RulesKeepOrder` | src/net/SocketLinux.cpp:96-150 | under the rules at most one reference is outstanding, and an unclaimed one is carried by an armed timer, its callback, a forwarded op or a claimer |
| `ReadinessWord.NoLostEdge` | include/uvent/net/SocketMetadata.h:278-348 | outside a timeout under way, a parked reader sleeps on an open socket and with unread data has an edge that the poller has not fired yet, in every run in which no close meets the reader parked or going to sleep |
| `ReadinessWord.OneResumePerPark` | include/uvent/net/SocketMetadata.h:279-379 | in every run, timeouts included, each park but a current one has had exactly one resume from fire, take or unpark, and a suspended reader is in the word or scheduled |
| `ReadinessWord.WakeUpsSchedule` | include/uvent/net/SocketMetadata.h:279-326 | fire, take and unpark of a parked reader each schedule it, and it goes on to read again |
| `ReadinessWord.BytesAreConserved` | include/uvent/net/SocketLinux.h:685-715 | in every run, unread bytes plus those that reads returned are those that arrived |
| `ReadinessWord.ReadReturns` | include/uvent/net/SocketLinux.h:679-695 | an undisturbed read of unread data returns it, hint or not |
| `ReadinessWord.ReadParks` | src/net/AwaiterOperations.cpp:30-49 | one that finds nothing parks |
| `ReadinessWord.EdgeIsFired` | include/uvent/net/SocketMetadata.h:278-287 | an edge is fired once and leaves the hint |
| `ReadinessWord.HintIsConsumed` | include/uvent/net/SocketMetadata.h:356-368 | a hint that comes before the park is consumed, and the reader reads again |
| `ReadinessWord.TimeoutIsHarmlessIff` | src/net/SocketLinux.cpp:42-47 | an uninterrupted timeout, take and close, keeps the invariant if and only if the reader is not between its failed read and its park |
| `ReadinessWord.CloseIsHarmlessIff` | src/net/SocketLinux.cpp:47-47 | and when other steps come between the two, if and only if the close finds the reader neither parked nor going to sleep |
| `ReadinessWord.TimeoutStrandsReader` | src/net/AwaiterOperations.cpp:30-49 | wherever on its way to sleep the timeout finds the reader, at most three of its steps park it on the closed socket |
| `ReadinessWord.HarmfulCloseStrands` | src/net/SocketLinux.cpp:42-47 | the same for every close in every run that meets the reader |
| `ReadinessWord.StrandedStays` | src/poll/EPoller.cpp:127-137 | only cancellation or a further timeout changes that |
| `ReadinessWord.OwnThreadReaderIsSafe` | src/net/AwaiterOperations.cpp:30-49 | a reader that runs on the socket's own worker is never stranded and never misses an edge, in any run |
| `ReadinessWord.WindowIsReached` | src/net/AwaiterOperations.cpp:30-49 | a run that ends with the reader between its failed read and its park |
| `AddressWeave.WeaveTail` | src/net/HappyEyeballs.cpp:204-220 | the loop rebuilds the list as `Woven`: the launched part as it was, then both lists alternating, cut at the cap |
| `AddressWeave.WovenFacts` | src/net/HappyEyeballs.cpp:204-220 | launched addresses keep their place, below the cap none is lost or doubled, and the cap is never exceeded |
| `AddressWeave.InterleaveAlternates` | src/net/HappyEyeballs.cpp:213-219 | as long as both lists last their elements alternate, the first list first |
| `AddressWeave.WovenAlternates` | src/net/HappyEyeballs.cpp:204-220 | after the launched part the two families alternate, the found addresses first exactly when told |
| `HappyEyeballs.ParentIsWokenOnce` | src/net/HappyEyeballs.cpp:52-83 | no state is both decided and parent-waiting; the parent is resumed at most once, after the decision, and if it sleeps through it its wake-up is on the way; one winner at most, a finished attempt |
| `HappyEyeballs.WinnerIsReturned` | src/net/HappyEyeballs.cpp:307-314 | the parent returns the winner's socket if and only if there is a winner |
| `HappyEyeballs.WinnerIsFirstSuccess` | src/net/HappyEyeballs.cpp:136-155 | in every run the winner is the first attempt whose connect succeeded, none exactly if none did, and the error kept is that of the last one that failed |
| `HappyEyeballs.ReturnedIsWhatHappened` | src/net/HappyEyeballs.cpp:307-314 | the parent returns the first attempt that succeeded; an error only if every address was launched and its attempt failed, and then the last failure's error |
| `HappyEyeballs.ErrorMeansExhausted` | src/net/HappyEyeballs.cpp:307-314 | an error is returned only when both resolves are over and every address was launched and has failed; it is a real attempt's error, or that there was no address |
| `HappyEyeballs.UndecidedIsLive` | src/net/HappyEyeballs.cpp:96-187 | while undecided some attempt, resolve or the pacer is live |
| `HappyEyeballs.RaceCanFinish` | src/net/HappyEyeballs.cpp:96-187 | from every state a run can reach, some steps lead to the parent's return |
| `HappyEyeballs.LaunchTakesTheNext` | src/net/HappyEyeballs.cpp:96-106 | every launch takes the next address, which has no attempt yet, unless the race is won or none is left |
| `HappyEyeballs.FailureLaunchesEarly` | src/net/HappyEyeballs.cpp:150-159 | a failure launches the next address at once, exactly if the race is open and one is left |
| `HappyEyeballs.KickIffStalled` | src/net/HappyEyeballs.cpp:179-187 | after a resolve one is launched at once exactly if no attempt is running and one is left |
| `HappyEyeballs.PacerLeaves` | src/net/HappyEyeballs.cpp:165-177 | the pacer ends exactly when the race is won, or both resolves are over and all addresses are launched |
| `HappyEyeballs.ResumedOnce` | src/net/HappyEyeballs.cpp:43-60 | at most one step of a run resumes the parent |
| `HappyEyeballs.DecisionIsFinal` | src/net/HappyEyeballs.cpp:35-40 | a decision and its winner never change, and launched addresses keep their place |
| `HappyEyeballs.AttemptsAreCapped` | src/net/HappyEyeballs.cpp:204-220 | no more than `max_attempts` attempts are ever launched |
| `HappyEyeballs.Ipv4WaitsForIpv6` | src/net/HappyEyeballs.cpp:237-246 | IPv4 answers join the race while IPv6 is out only after the resolution delay |
| `HappyEyeballs.NeverBelowZero` | src/net/HappyEyeballs.cpp:250-257 | `resolves_pending` never goes below 0 and weaving starts within the list |
| `WaitList.WaitList.PushLocked` | include/uvent/sync/WaitList.h:62-73 | appends the node to the sequence the list stands for |
| `WaitList.WaitList.PopFrontLocked` | include/uvent/sync/WaitList.h:75-90 | takes the first node off, or null from an empty list |
| `WaitList.WaitList.RemoveLocked` | include/uvent/sync/WaitList.h:92-109 | cuts out exactly this node, wherever it is; false exactly if it is not listed |
| `WaitList.WaitList.WakeUpTo` | include/uvent/sync/AsyncSemaphore.h:48-57 | the loop under the lock takes the first k waiters, in order, or all of them |
| `Semaphore.NoStrandedPermit` | include/uvent/sync/AsyncSemaphore.h:29-98 | while an acquirer sleeps past its recheck, the count is at most the woken acquirers that have yet to retry plus the wake-ups owed by running releases; when all has settled it is 0 |
| `Semaphore.WokenWillRetry` | include/uvent/sync/Wait.h:20-64 | a woken acquirer is on its way to a retry whatever is cancelled, and a parked one is listed or woken |
| `Semaphore.PermitsAreConserved` | include/uvent/sync/AsyncSemaphore.h:29-58 | in every run, the permits there, those that acquirers returned with and those that successful `try_acquire` calls took are the initial ones and the released ones, so successes never exceed permits |
| `Semaphore.AcquireTakes` | include/uvent/sync/AsyncSemaphore.h:86-98 | an undisturbed acquire with a permit there takes one |
| `Semaphore.TryTakes` | include/uvent/sync/AsyncSemaphore.h:29-40 | so does the retry of a woken acquirer |
| `Semaphore.AcquireParks` | include/uvent/sync/Wait.h:20-45 | without a permit it parks at the end of the list |
| `Semaphore.RecheckRetries` | include/uvent/sync/AsyncSemaphore.h:70-79 | one that meets a permit at its recheck leaves the list and tries again |
| `Semaphore.ReleaseWakesFirst` | include/uvent/sync/AsyncSemaphore.h:42-58 | an undisturbed release takes the first sleeper off the list and brings it to its try |
| `Semaphore.ReleaseWithoutSleepers` | include/uvent/sync/AsyncSemaphore.h:42-47 | with nobody listed it only adds its permits |
| `Semaphore.CancelEndsSleep` | include/uvent/sync/Wait.h:56-64 | cancellation takes a sleeper, and only it, off the list and ends its call |
| `Semaphore.CancelEndsEarly` | include/uvent/sync/Wait.h:20-44 | so it does before the list and while the hook is being armed |
| `AsyncMutex.MutualExclusion` | src/sync/AsyncMutex.cpp:42-115 | at most one guard or hand-off exists, exactly while the lock word is set; waiters imply the lock is held |
| `AsyncMutex.FirstComeFirstServed` | src/sync/AsyncMutex.cpp:48-85 | served before waiting tickets, both in order of arrival; a ticket in neither list was cancelled and has no guard |
| `AsyncMutex.NoBarging` | src/sync/AsyncMutex.cpp:57-65 | while someone waits, only a hand-off makes a new guard |
| `AsyncMutex.CancelNeverLosesTheLock` | src/sync/AsyncMutex.cpp:66-95 | a waiter inside `lock()` is either listed or owns the hand-off, and one that returned without a guard was never handed the lock |
| `AsyncMutex.EveryCallIsAccountedFor` | src/sync/AsyncMutex.cpp:42-115 | in every run, `lock` calls and won `try_lock`s are those still inside or cancelled plus the guards there are and those unlocked |
| `AsyncMutex.LockTakesOrParks` | src/sync/AsyncMutex.cpp:42-76 | an undisturbed `lock` takes a free mutex at once and otherwise parks at the end of the list |
| `AsyncMutex.UnlockServesFirst` | src/sync/AsyncMutex.cpp:106-115 | an unlock hands the mutex to the first waiter, which gets the guard |
| `AsyncMutex.CancelEndsWait` | src/sync/AsyncMutex.cpp:87-95 | cancellation takes exactly this waiter off the list and ends its call; the others keep their order |
| `AsyncMutex.CancelEndsArming` | src/sync/AsyncMutex.cpp:66-74 | so it does while the hook is being armed |
| `AsyncMutex.NeverStuck` | src/sync/AsyncMutex.cpp:106-115 | whoever has a guard can unlock |
| `Select.SuspendedIsResumedOnce` | include/uvent/sync/Select.h:181-208 | after returning true: at most one resume, issued or about to be if there is a winner; otherwise every operation and the cancel hook can still win |
| `Select.NotSuspendedIsNeverResumed` | include/uvent/sync/Select.h:190-206 | after returning false there is no resume and nothing is left that could issue one |
| `Select.OutOfReachStays` | include/uvent/sync/Select.h:54-90 | what is out of reach stays so, whatever notifiers, timers and cancellation do |
| `Select.DetachedEverywhere` | include/uvent/sync/Select.h:175-216 | after the last detach no wait list, sleep or timer callback knows any node |
| `Select.NeverStuck` | include/uvent/sync/Select.h:181-216 | the coroutine can always take its next step, except while it waits for a callback |
| `Select.SpinEnds` | include/uvent/sync/Select.h:54-64 | a detach that waits for `fire_done` waits for a callback that has begun and can always go on |
| `Select.AttachFinishes` | include/uvent/sync/Select.h:163-208 | with nothing ready, an undisturbed suspension attaches every operation and returns true |
| `Select.AttachToSleep` | include/uvent/sync/Select.h:42-52 | attaching to a sleep arms its timer once, and fails exactly if it has fired |
| `Select.FailedAttachReturns` | include/uvent/sync/Select.h:190-194 | then the coroutine counts as suspended exactly if it was resumed |
| `Select.CancelledAtOnce` | include/uvent/sync/Select.h:195-206 | a cancellation found when the hook is armed ends the suspension, unless somebody has won |
| `Select.FirstToFireWins` | include/uvent/sync/SyncCommon.h:41-50 | a popped node, the cancel hook or a timer's callback wins a free cell and resumes, once |
| `Select.DetachFinishes` | include/uvent/sync/Select.h:175-179 | with no callback under way the detach loop ends |
| `Select.DetachTakesBack` | include/uvent/sync/Select.h:54-58 | a node taken back from a sleep is out of its reach |
| `HazardPointers.ProtectedIsNeverDeleted` | include/uvent/utils/sync/HazardPointers.h:44-66 | what `protect` returned is not deleted by any scan as long as the record holds it, on the cache-hit path too |
| `HazardPointers.ProtectionLasts` | include/uvent/utils/sync/HazardPointers.h:57-59 | it stays in its slot, and is not deleted, until `kSlots` further misses of that record or its release |
| `HazardPointers.ProtectHolds` | include/uvent/utils/sync/HazardPointers.h:44-66 | `protect` on a source that does not change returns what is in it, held in a slot |
| `HazardPointers.ReleaseFinishes` | src/utils/sync/HazardPointers.cpp:60-62 | a released record ends up inactive, with no hazard left |
| `HazardPointers.ScanCollects` | src/utils/sync/HazardPointers.cpp:83-98 | an undisturbed scan gets through all records and has met exactly the hazards there are |
| `HazardPointers.ScanDecidesRightly` | src/utils/sync/HazardPointers.cpp:100-128 | of its list it deletes exactly what is in no slot of an active record, and puts back the rest |
| `HazardPointers.RetiredUntilDeleted` | src/utils/sync/HazardPointers.cpp:100-128 | a retired object leaves the lists only by being handed to its deleter |
| `HazardPointers.HeldIsCollected` | src/utils/sync/HazardPointers.cpp:83-98 | a scan that has read all slots one by one has met every held candidate |
| `HazardPointers.NeverOutOfBounds` | src/utils/sync/HazardPointers.cpp:83-97 | publications and scans stay within the records and their slots |
| `HazardPointers.StepHolds` | include/uvent/utils/sync/HazardPointers.h:53-59 | only the `kSlots`-th miss after its own, or a release, takes a held object out of its slot |
| `HazardPointers.Reclaim` | src/utils/sync/HazardPointers.cpp:106-115 | hazards stay in the list, in order; all others are deleted, each once |
| `Compaction.Compact` | src/utils/sync/HazardPointers.cpp:106-115 | the in-place loop leaves the kept entries at the front in order and drops the others |
| `Compaction.KeptAndDropped` | src/utils/sync/QSBR.cpp:117-125 | every entry is kept or dropped, none lost or doubled |
| `Qsbr.GracePeriod` | src/utils/sync/QSBR.cpp:62-125 | a tick deletes an entry of its own thread only when every section that was running at its retirement is over |
| `Qsbr.RetireRecordsReaders` | src/utils/sync/QSBR.cpp:70-73 | those sections are exactly the ones between enter and leave |
| `Qsbr.NeverStuck` | src/utils/sync/QSBR.cpp:75-92 | a thread inside an operation can always take its next step |
| `Qsbr.UndisturbedTick` | src/utils/sync/QSBR.cpp:109-125 | an undisturbed tick deletes exactly the entries of its thread that no section under way is as old as |
| `Qsbr.UndisturbedTickFreesAll` | src/utils/sync/QSBR.cpp:109-125 | when no thread is in a section, it deletes all of them and starts a new epoch |
| `Qsbr.EpochIsGlobalAtEnter` | src/utils/sync/QSBR.cpp:62-66 | in every run a section announces the global epoch at the moment of its last `enter` |
| `Qsbr.YoungReadersDoNotBlock` | src/utils/sync/QSBR.cpp:109-125 | an entry older than the epoch at which every section under way was entered is deleted by the next undisturbed tick |
| `Qsbr.SectionOpensAndCloses` | src/utils/sync/QSBR.cpp:62-68 | enter opens a new section with the global epoch, leave ends it |
| `Qsbr.MinActiveEpoch` | src/utils/sync/QSBR.cpp:75-92 | without interference, the least announced epoch, or the global one if there is none |
| `Qsbr.Quiesce` | src/utils/sync/QSBR.cpp:117-125 | exactly the entries older than `safe` are deleted; the rest stays in order |
| `CancelTree.RequestedIsClosedDownward` | src/tasks/Task.cpp:46-90 | when no `request_cancel` is running everything below a requested state is requested, children linked meanwhile included |
| `CancelTree.RequestTakesEffect` | src/tasks/Task.cpp:46-58 | in every run, once `request_cancel` was called on a state and no call is under way, the state and all that is below it then are requested |
| `CancelTree.CallReturns` | src/tasks/Task.cpp:46-58 | an undisturbed call returns after finitely many steps of its own, leaves other calls as they were, and if there are none the whole subtree is requested |
| `CancelTree.LinkAndUnlink` | src/tasks/Task.cpp:60-90 | linking adds exactly the new child, requested like its parent; unlinking takes exactly one out |
| `CancelTree.RunKeepsInv` | src/tasks/Task.cpp:46-58 | at every moment a child of a requested state is requested or still to be visited by a walk under way |
| `CancelTree.LinkKeeps` | src/tasks/Task.cpp:60-73 | linking under a requested parent keeps this |
| `CancelTree.UnlinkKeeps` | src/tasks/Task.cpp:75-90 | so does unlinking, which cuts exactly this child out |
| `CancelTree.NestedCallIsTheParents` | src/tasks/Task.cpp:54-57 | a walk waits only for a call on its own child, which is under way |
| `CancelTree.NoSecondCall` | src/tasks/Task.cpp:48-49 | while a call works on a state no step begins another on it, and only its return ends it |
| `CancelTree.NeverStuck` | src/tasks/Task.cpp:54-57 | a walk can always visit its next child, or return to the walk that called it |
| `CancelTree.RequestedStays` | src/tasks/Task.cpp:48-49 | requests are never taken back |
| `CancelKick.QueuedOnceAndAlive` | src/tasks/Task.cpp:130-167 | a task is in the kick queue at most once, with a reference held while it is there, pushed or processed; a freed one has nobody inside `kick` |
| `CancelKick.NoResurrection` | include/uvent/sync/CancelState.h:34-41 | a count that came down to 0 stays 0 |
| `CancelKick.NeverBelowZero` | src/tasks/Task.cpp:156-167 | the count is never taken below 0 |
| `CancelKick.KickQueues` | src/tasks/Task.cpp:130-154 | an undisturbed kick of a task with none pending queues it once, with a reference |
| `CancelKick.WalkKicks` | src/tasks/Task.cpp:139-152 | so does the parent's walk, unless the count is 0; then the flag is taken back |
| `CancelKick.SecondKickIsIdle` | src/tasks/Task.cpp:139-140 | a kick while one is pending changes nothing |
| `CancelKick.ProcessingReleases` | src/tasks/Task.cpp:156-167 | processing clears the flag and gives the reference back |
| `CancelKick.LastDropFrees` | src/tasks/Task.cpp:35-44 | the drop of the last reference ends in unlinking and freeing |
| `LiveTasks.LiveCountsTheSubtree` | src/tasks/Task.cpp:92-108 | a state's count is always the number of tasks that count in it, and between spawns and completions the number of running tasks in its subtree |
| `LiveTasks.CountedInWholeChain` | src/tasks/Task.cpp:92-108 | a running task counts in its state and all ancestors, a finished one nowhere |
| `LiveTasks.NeverBelowZero` | src/tasks/Task.cpp:98-107 | no count is ever taken below 0, and the chain stays within the tree |
| `LiveTasks.WokenAtZero` | src/tasks/Task.cpp:23-32 | in every run, a join waiter that leaves its list other than by taking itself out is woken by a completion at its state, at a moment when the count is 0 and no task counts there |
| `LiveTasks.NoLostJoin` | include/uvent/tasks/Task.h:212-236 | nobody sleeps past its recheck at count 0 unless a completion is under way that will look after it |
| `LiveTasks.ReturnedSawZero` | include/uvent/tasks/Task.h:217-231 | in every run, a `join` that has returned had, at some moment since it began, a count of 0 with no task counted there |
| `LiveTasks.JoinWaits` | include/uvent/tasks/Task.h:217-224 | a `join` that finds tasks running has not returned after that step |
| `LiveTasks.JoinSleeps` | include/uvent/tasks/Task.h:219-231 | an undisturbed `join` with tasks running parks in the list |
| `LiveTasks.WokenJoinReturns` | include/uvent/tasks/Task.h:225-233 | a woken one returns, and one that takes itself out |
| `LiveTasks.SpawnCounts` | src/tasks/Task.cpp:92-96 | an undisturbed spawn gets to run, counted in its whole chain |
| `LiveTasks.CompletionUncounts` | src/tasks/Task.cpp:98-128 | an undisturbed completion gets to its end, counted nowhere |

## Left out

- TimerWheel.Wheel.Tick: filed timers must be within the horizon, because past it the code does not terminate; callbacks run after the tick's other work and what they do to the wheel is a later call.
- TimerWheel.Wheel.AddTimer: an expiry of exactly 0, which a 64-bit wrap of clock plus duration would give, because 0 stands for "no timer" in `nextExpiryTime_`; `TimerBuckets.FilingKeepsNextIff` shows that the minimum is kept for all others and for no such one.
- TimerWheel.Wheel.ServeOp: the destruction of withdrawn coroutines and timer objects, which touches nothing else in the wheel.
- Timer objects: a filed timer is a record found by id, and buckets hold ids; the `active` flag is membership in the map. Aliasing of one timer object under two ids is not modelled, nor is the time between `addTimer` and its drain during which the object's fields could be changed.
- The clock: every reading is a parameter; a tick may see any readings.
- SocketTeardown.ReachableIsInv: the count is unbounded, so saturation at 2^40 - 1 references is not modelled; a handle is never used after its release.
- ReadinessWord: the write word (the same protocol) and `mark_read_pending`, which nothing calls; a descriptor number that is reused between its close and the reader's next read.
- SocketTeardown: the connect timeout path, the shared-poller build and what `removeEvent` does to the file descriptor.
- Select: the check for cancellation before anything is attached, and result values.
- Semaphore: a semaphore operation inside `select`, where a wake-up can go to a select that another operation has won; 32-bit overflow of the count.
- HazardPointers: `n_records_` and the threshold that decides when to scan; a scan may start at any time. Binary search in the sorted hazards is membership.
- Qsbr: entries of detached threads that other threads adopt, which may be retired while the adopter is already searching; 64-bit overflow of the epoch.
- CancelTree: the waiters of a cancellation token; a linked child is new and has no children yet.
- InboxWakeup: a poller whose eventfd could not be created; the kick queue and the socket-op queue use the same flag and wake-up steps.
- HappyEyeballs: what `connect` and the resolver do; they end at any time with any answer.
- Weak memory orders, the shared-wheel build, io_uring, BSD and Windows, fibers, channels, barriers and the other containers.
