# Emilua runtime: a verified model

Emilua runs Lua programs as fibers on an asynchronous runtime. This project models
five parts of it in Dafny and proves what they promise.

* **The fiber runtime.** One VM runs one fiber at a time. Every other fiber is parked
  in the wait list of a mutex, a recursive mutex, a condition variable or a future,
  waits in the join slot of another fiber, is named by a resume closure posted to the
  strand, or has finished. `Runtime.dfy` is a step machine over all the calls a
  program can make; `Invariant.dfy` and the `Preservation` files show that one
  invariant survives every step; `Runs.dfy`, `Interrupters.dfy`, `Traces.dfy`,
  `Guarantees.dfy`, `Notifications.dfy`, `Outcomes.dfy`, `Promises.dfy`, `Gates.dfy`,
  `Resumptions.dfy` and `Refusals.dfy` draw the consequences for every run: who sleeps
  and wakes in which order, what is handed over to whom, and what each call answers
  after the calls before it. `VmContext.dfy` holds the same runtime as objects that
  are updated in place, each method proved to perform exactly the step of the same name.
* **The inbox of an actor.** `IpcMessage.dfy` says what a datagram from another process
  holds, `IpcSender.dfy` how it is written, `IpcLayout.dfy` which datagrams are well
  formed and that no others are accepted, `IpcSend.dfy` which Lua values send takes
  and what becomes of their descriptors, `IpcDecoders.dfy` contains the two decoders.
  `IpcInbox.dfy` is the inbox as a step machine with senders in other processes and in
  the same one, `IpcInboxGuarantees.dfy`, `IpcInboxMail.dfy`, `IpcInboxOrder.dfy` and
  `IpcInboxReasons.dfy` say what follows, and `IpcInboxService.dfy` holds the inbox as an object.
* **JSON decoding.** `JsonDecode.dfy` has the step for one token and the meaning of a
  document, `JsonRefinement.dfy` the proof that one leads to the other, `JsonPath.dfy`
  the invariant between tokens, `JsonLoop.dfy` the loop.
* **Byte spans and the bump allocator.** `InPlaceAppend.dfy` and `ByteSpans.dfy` treat
  views into shared buffers, `MonotonicAllocator.dfy` the allocator of the Lua hook.
* **Endpoints as text.** `Endpoint.dfy` has the printer and the parser.

`Wrappers.dfy`, `SizeT.dfy` and `Sequences.dfy` hold what several parts share.
`dafny verify dfyconfig.toml` checks everything.

## What turned out not to hold

Where the code does less than one would expect, the model follows the code, a lemma
shows an input for which the expectation fails, and another says exactly when it holds.

* A value that was set is lost when the promise object is finalized, although a future
  may still be there to be asked (`Promises.ValueLostWithPromise`,
  `Promises.SetIsStableIffPromiseAlive`).
* Sending one's own inbox to another process while another fiber is receiving from it
  adds a socket that nobody waits for. The receiver can then be deaf to its only sender
  (`IpcInboxGuarantees.DeafReceiver`, `IpcInboxGuarantees.ListeningIff`).
* Interrupting a receiver after the inbox was closed, and before the receiver has run
  again, posts a resume of a null fiber (`IpcInboxGuarantees.NullResumeHappens`,
  `IpcInboxGuarantees.NullResumeIff`).
* Closing an inbox that still holds a message from another process follows the null
  pointer to the VM that the message does not have (`IpcInboxOrder.NullWakeHappens`,
  `IpcInboxOrder.NullWakeIff`).
* A file descriptor object that a table names under two keys is sent once as a
  descriptor and once as none, and when the send is over the object has lost its
  descriptor (`IpcSend.ListedTwiceIsLost`, `IpcSend.HandlesComeBackIff`,
  `IpcSend.TableArrivesIff`).
* The two decoders read a message differently when it repeats a key: the queue keeps
  the first entry, the waiting fiber the last (`IpcDecoders.DecodersDisagree`,
  `IpcDecoders.AgreeIff`).
* Appending in place differs from appending to a copy when an argument overlaps the
  place where it or an earlier argument goes; one argument is enough
  (`InPlaceAppend.OwnTailDisagrees`, `InPlaceAppend.InPlaceAgreesIff`).
* The bump allocator's test for room passes when the next address plus the rounded size
  wraps around; it then moves back and hands out blocks that are in use
  (`MonotonicAllocator.WrappingHandsOutTwice`, `MonotonicAllocator.CallKeepsIff`).
* A port outside 0..65535 is printed modulo 65536 (`Endpoint.RoundTripIff`).

The reference pages say that a bad range makes `byte_span` slices raise `EINVAL`. The
code raises `result_out_of_range`, and so does the model (`ByteSpans.Slice`).

## Assumptions

* Closures posted to a strand run later, one at a time and in the order of posting;
  none runs inside the call that posts it.
* A fiber's name is never reused while the VM lives, and a handle is named after the
  fiber it was made for.
* An action that the program cannot perform in a state (a call by nobody, an object
  that does not exist) leaves the state alone.
* A machine word is stored least significant byte first.
* `EMILUA_CONFIG_IPC_ACTOR_MESSAGE_MAX_MEMBERS_NUMBER` is any number above 2.
* The JSON reader gives tokens only in an order the grammar allows, for any beginning
  of a text; whether a number converts to the Lua type is part of its token.
* `memcpy` leaves any bytes whatever in its destination when its source overlaps it,
  but copying bytes onto themselves leaves them alone.
* A sum of a pointer and a size is taken modulo the size of the address space, and
  `malloc` gives an aligned buffer that ends before the last address.
* In `Endpoint.dfy` writing and reading an address alone are function parameters that
  undo each other, and no IPv4 address begins with a bracket.

## Model

| member | source | states |
|---|---|---|
| Runs.CoherentStep | src/fiber.cpp:38-536 | every call of any fiber, every finalizer and every closure run by the strand keeps the invariant over all fibers, queues, handles and interrupters |
| Runs.ReachableCoherent | src/core.cpp:332-490 | the invariant holds after every run from a fresh VM |
| Runs.SinglePlacement | src/condition_variable.cpp:64-110 | in every reachable state each fiber is in exactly one place: running, one wait list, one join slot, one posted resume, or finished |
| Runs.NoSpuriousResume | src/core.cpp:413-477 | a posted resume, and the resume of a joiner that bypasses the strand, only ever hit a fiber that is suspended for it and held nowhere else; no two posted resumes name one fiber |
| Interrupters.InterruptCompleteness | src/fiber.cpp:226-264 | no interrupted fiber with interruption enabled sleeps in an interruptible wait; a stored interrupter names the last wait that its fiber went into: the one it is in, or one that a posted resume has ended; the running fiber has none |
| Runs.InterruptPostsOnce | src/condition_variable.cpp:64-92 | interrupting posts exactly one resume, which tells a joiner from any other sleeper, if the target sleeps interruptibly with interruption enabled, and nothing otherwise, also after a notify or a set |
| Runs.InterruptTwice | src/fiber.cpp:226-264 | interrupting a second time changes nothing |
| Runs.JoinCoherence | src/fiber.cpp:54-170 | a handle is marked as being joined exactly when a fiber sleeps in the join slot of its fiber; no fiber joins itself; no two handles hold one fiber |
| Traces.StrandFifo | src/fiber.cpp:450-465 | over any run every posted closure is run once, in order, or is still queued |
| Traces.QueueStep | src/mutex.cpp:32-110 | every step moves every wait queue in one of two ways: its front is woken and its caller joins the back, or an interruption takes one waiter out; lock queues only move the first way |
| Guarantees.LockFifo | src/mutex.cpp:93-110 | over any run a mutex or recursive mutex is granted in the order of arrival |
| Guarantees.WaitersConserved | src/condition_variable.cpp:71-162 | over any run, waits entered are waits notified, waits interrupted and waits pending, fiber by fiber |
| Guarantees.WaitersInOrder | src/condition_variable.cpp:130-162 | the fibers woken, then those still waiting, are those that waited, in order, less the interrupted ones |
| Guarantees.NoLostWakeUp | src/condition_variable.cpp:95-112 | a fiber that waited is woken, was interrupted, or is still queued |
| Notifications.NotifyWakesWhoRemains | src/condition_variable.cpp:117-164 | after any run notify_one resumes the fiber that arrived first of those neither woken nor interrupted since, notify_all resumes all of those in order of arrival, and nobody else is resumed |
| Notifications.WaitMissesNothing | src/condition_variable.cpp:53-112 | the mutex stays locked until the step that has the waiter on the list; in any run after it, as many calls of notify_one as there were waiters before and one more, or one notify_all, have the fiber woken unless it was interrupted |
| Guarantees.MutexBalance | src/mutex.cpp:48-110 | over any run, acquisitions minus releases, counting the release inside a wait, is 1 while the mutex is locked and 0 otherwise |
| Guarantees.MutexNoOvertaking | src/mutex.cpp:70-77 | while a fiber is queued neither lock nor try_lock can take the mutex, and unlock keeps it locked for the head of the queue |
| Guarantees.RMutexBalance | src/recursive_mutex.cpp:50-151 | for every fiber and every run, levels gained minus levels dropped is what the mutex records, so the count never wraps |
| Guarantees.RMutexReachable | src/recursive_mutex.cpp:50-151 | no owner exactly when the level is 0, no queue without an owner, the owner is not in its own queue, nobody is queued twice |
| Guarantees.RMutexHandOff | src/recursive_mutex.cpp:130-151 | ownership reaches the head of the queue before that fiber runs, so no try_lock slips in between |
| Outcomes.OutcomeExactlyOnce | src/core.cpp:359-487 | over any run a fiber ends at most once, and its outcome goes to exactly one join or is given up, never both: results as true and the results, an interruption as true alone, any other error as false and the error; `interruption_caught` is noted when the outcome is handed over, and says whether it was an interruption |
| Outcomes.RetriedJoin | src/fiber.cpp:107-170 | a join of a finished fiber, also one retried after an interruption, gets the outcome at once, and the handle notes it |
| Outcomes.SpawnStartsLife | src/fiber.cpp:380-448 | a spawned fiber is live under a name no other fiber has, and its handle holds it with nothing noted |
| Promises.SetAtMostOnce | src/future.cpp:78-154 | of all calls that set a promise at most one succeeds, and none once it is satisfied |
| Promises.SetIsStableIffPromiseAlive | src/future.cpp:182-226 | what was set is still there after a run exactly if the promise object has not been finalized |
| Promises.BrokenForGood | src/future.cpp:206-226 | once broken a promise stays broken |
| Promises.ValueLostWithPromise | src/future.cpp:206-206 | a run that sets a value, finalizes the promise and asks the future gets a broken promise |
| Promises.GetTellsHistory | src/future.cpp:60-301 | over any run from a promise that is empty: a get fails if the promise was finalized, else returns the value or raises the error of the one call that set it, else sleeps |
| Promises.EveryWaiterToldOnce | src/future.cpp:87-303 | over any run each wait for a promise that ends is told of by one closure: the outcome of the first step that set or lost the promise, for all who were woken, or that it was interrupted, for all who were; after that step nobody waits |
| Promises.OnlyEmptyHasWaiters | src/future.cpp:270-301 | in a reachable state a promise that is satisfied or broken has no waiters |
| Gates.GatesFollowCalls | src/core.cpp:840-879 | after any run: while a fiber has forbidden suspension more often than allowed it again, every call that might suspend it raises forbid_suspend_block and changes nothing; otherwise the four interruption points raise interrupted exactly if somebody interrupted the fiber and it has not disabled interruption more often than restored it |
| Gates.LevelsFollowCalls | src/fiber.cpp:467-536 | taking a level back is refused exactly if by the calls of the run there is none |
| Resumptions.EveryResumeExplained | include/emilua/core.hpp:961-1112 | over any run every closure that gives a fiber control was left by one action of the run, for a fiber that was where this action wakes fibers, and brings what this action says: nothing, a value, an error, a broken promise, an interruption |
| Resumptions.SchedulesOnce | src/fiber.cpp:430-465 | a new fiber, and one that yields, is posted once |
| Refusals.RefusedChangesNothing | src/fiber.cpp:38-536 | a call that raises an error, or says that it could not, leaves the whole VM as it was |
| Refusals.MutexAnswers | src/mutex.cpp:32-112 | what lock, try_lock, unlock and wait answer follows from whether the mutex was acquired once more often than released in the run |
| Refusals.RMutexAnswers | src/recursive_mutex.cpp:33-153 | the same by the levels that the caller and the others have gained and dropped; the level 2^64 - 1 overflows |
| Refusals.JoinAnswers | src/fiber.cpp:38-224 | a handle can be joined or detached exactly as long as it has its fiber and nobody sleeps in its join slot; nobody joins itself; detaching or collecting gives the fiber up |
| Refusals.SetAnswers | src/future.cpp:60-156 | a promise can be set exactly if no call of the run has set it; nil is no error, set or not |
| Refusals.NewObjects | src/mutex.cpp:144-156 | a new mutex of either kind can be taken, a new condition variable has nobody to notify, a new promise can be set |
| VmContexts.FiberTable.SetInterrupter | src/core.cpp:608-635 | the slot is written only while interruption is enabled |
| VmContexts.FiberTable.CheckSuspend | src/core.cpp:840-879 | the error of the gate whose effect on every call `Gates.GatesFollowCalls` tells from the run |
| VmContexts.VmContext.constructor | src/core.cpp:359-366 | a VM starts with its main fiber running, detached |
| VmContexts.VmContext.MutexLock | src/mutex.cpp:32-55 | a free mutex is taken, a taken one queues its caller last, and a forbidden suspension is an error |
| VmContexts.VmContext.MutexTryLock | src/mutex.cpp:57-78 | takes the mutex exactly if it is free, and never sleeps |
| VmContexts.VmContext.MutexUnlock | src/mutex.cpp:80-112 | an unlocked mutex is an error; otherwise it is unlocked, or stays locked for the head of its queue, which is posted |
| VmContexts.VmContext.RMutexLock | src/recursive_mutex.cpp:33-72 | the owner gains a level or overflows, others queue, a free mutex is taken at level 1 |
| VmContexts.VmContext.RMutexTryLock | src/recursive_mutex.cpp:74-113 | the same without queueing |
| VmContexts.VmContext.RMutexUnlock | src/recursive_mutex.cpp:115-153 | only the owner may; the last level hands the mutex to the head of the queue before that fiber runs |
| VmContexts.VmContext.CondWait | src/condition_variable.cpp:29-115 | its errors in their order; then interrupter, list and release of the mutex in one step |
| VmContexts.VmContext.NotifyOne | src/condition_variable.cpp:117-140 | the front of the list is posted |
| VmContexts.VmContext.NotifyAll | src/condition_variable.cpp:142-164 | the loop over the list posts every waiter in order and empties it |
| VmContexts.VmContext.PromiseSetValue | src/future.cpp:60-104 | an error if satisfied; otherwise the loop over the waiters posts the value to each |
| VmContexts.VmContext.PromiseSetError | src/future.cpp:106-156 | the same for an error, which may not be nil |
| VmContexts.VmContext.PromiseGc | src/future.cpp:182-228 | the state turns broken whatever it was, and the waiters are told so |
| VmContexts.VmContext.FutureGet | src/future.cpp:231-303 | gate, then what the state says, then sleep with an interrupter |
| VmContexts.VmContext.Spawn | src/fiber.cpp:380-448 | a table, a handle and a first resume for a new name |
| VmContexts.VmContext.Yield | src/fiber.cpp:450-465 | the caller is posted behind everything else |
| VmContexts.VmContext.Join | src/fiber.cpp:38-172 | its errors in their order; joins a running fiber by its join slot, reaps a finished one at once |
| VmContexts.VmContext.Detach | src/fiber.cpp:174-224 | a running fiber is on its own from now on, a finished one is forgotten |
| VmContexts.VmContext.HandleGc | src/fiber.cpp:319-378 | the finalizer does the same, and nothing if there is nothing to do |
| VmContexts.VmContext.Interrupt | src/fiber.cpp:226-264 | marks the target, runs the closure stored for it, if any, and clears the slot |
| VmContexts.VmContext.DisableInterruption | src/fiber.cpp:467-516 | one level more |
| VmContexts.VmContext.RestoreInterruption | src/fiber.cpp:488-523 | one level less, or an error when there is none |
| VmContexts.VmContext.ForbidSuspend | src/fiber.cpp:525-529 | one level more |
| VmContexts.VmContext.AllowSuspend | src/fiber.cpp:531-536 | one level less, or an error when there is none |
| VmContexts.VmContext.Finish | src/core.cpp:332-490 | a detached fiber is forgotten, an unjoined one keeps its outcome, and a joiner gets it and runs next |
| VmContexts.VmContext.RunNext | include/emilua/core.hpp:961-1112 | the oldest closure gives control to its fiber and clears its interrupter unless told otherwise or interruption is disabled |
| VmContexts.VmContext.Perform | src/core.cpp:332-490 | whatever call comes next, the objects perform the model's step and their state keeps the invariant |
| IpcMessage.PrefixDependence | src/ipc_actor.cpp:419-425 | two buffers that agree on the received bytes hold the same message or are both refused |
| IpcMessage.StringsInsidePrefix | src/ipc_actor.cpp:491-582 | every key and every string of a message lies inside the received bytes, for any number of members |
| IpcLayout.AcceptedIff | src/ipc_actor.cpp:427-742 | a message is accepted, for what it holds, exactly if it is well formed: words with a known tag, whatever their sign, up to the nil word; strings laid out as the sender does, all received; the descriptors in turn, or alone with a single value |
| IpcSend.SendTable | src/actor.ypp:2282-2463 | a table is taken exactly if it has no metatable, has a string for a key, and no pair is at fault: too many of them, a key or string over 255 bytes, a handle without its descriptor, a value of another kind. Then the entries are the keys in order with what carries each value; else the error is that of the first pair at fault, no handle changes, and the descriptors of the addresses before it are closed |
| IpcSend.SendValue | src/actor.ypp:2138-2281 | a single value goes out as the item that carries it (a number its bits, a boolean itself, a string its bytes, a handle its descriptor), or is refused by its kind; a borrowed descriptor can be given back |
| IpcSend.Return | src/actor.ypp:94-161 | when the message is gone the borrowed descriptors are put back in turn and the owned ones closed |
| IpcSend.HandlesComeBackIff | src/actor.ypp:153-161 | after the message is gone the handles are as they were exactly if none was listed twice |
| IpcSend.ListedTwiceIsLost | src/actor.ypp:2454-2460 | a handle listed twice: the second slot goes out empty and the descriptor is lost |
| IpcSend.DescriptorsSentIff | src/actor.ypp:2454-2460 | each slot carries the descriptor it stands for exactly if no handle is listed twice |
| IpcSend.TableArrivesIff | src/actor.ypp:2282-2463 | what was sent reads as the named keys in order with what carries each value, exactly if no handle is the value of two pairs |
| IpcSend.NamedIsAll | src/actor.ypp:2288-2300 | the pairs that count are all those with a string for a key, in order |
| IpcSender.WireWords | include/emilua/actor.hpp:41-49 | the words of the protocol |
| IpcSender.TableRoundTrip | src/actor.ypp:2282-2449 | the receiver reads back the table that was sent, entry by entry, whatever else is in its buffer |
| IpcSender.FlatRoundTrip | src/actor.ypp:2138-2281 | the receiver reads back a single value that was sent |
| IpcDecoders.AgreeIff | src/ipc_actor.cpp:528-690 | the two decoders give one value exactly if the first and the last entry of every key agree |
| IpcDecoders.DecodersAgree | src/ipc_actor.cpp:427-742 | with pairwise distinct keys every message means the same to both decoders |
| IpcDecoders.DecodersDisagree | src/ipc_actor.cpp:528-690 | a message with a repeated key that they read differently |
| IpcDecoders.TableDelivered | src/ipc_actor.cpp:427-742 | a table that was sent arrives as the same table either way, owning every descriptor sent |
| IpcDecoders.CloseRest | src/ipc_actor.cpp:357-364 | scope exit closes exactly the descriptors nobody has claimed |
| IpcDecoders.DecodeFlatForQueue | src/ipc_actor.cpp:431-489 | reads a single value as the format says; each descriptor is owned by it or closed |
| IpcDecoders.DecodeFlatForFiber | src/ipc_actor.cpp:601-656 | the same, with checks that throw |
| IpcDecoders.EntryForQueue | src/ipc_actor.cpp:496-582 | one entry: the bounds of a string are checked after it was cut out; all checks together are those of the format |
| IpcDecoders.EntryForFiber | src/ipc_actor.cpp:662-741 | one entry: cutting out a string throws when it is out of bounds; all checks together are those of the format |
| IpcDecoders.DecodeTableForQueue | src/ipc_actor.cpp:491-583 | the loop yields what the format says, first entry of a key winning; each descriptor is owned by the value or closed, never both |
| IpcDecoders.DecodeTableForFiber | src/ipc_actor.cpp:658-742 | the same, last entry of a key winning |
| IpcDecoders.DecodeForQueue | src/ipc_actor.cpp:427-585 | accepts exactly the messages of the format, whole, and accounts for every descriptor |
| IpcDecoders.DecodeForFiber | src/ipc_actor.cpp:593-742 | accepts the same messages, and accounts for every descriptor |
| IpcDecoders.DecodeBothWays | src/ipc_actor.cpp:427-742 | the two decoders accept the same messages, and yield one value exactly if the first and last entry of every key agree |
| IpcInbox.ReachableInv | src/ipc_actor.cpp:281-766 | after every run, with senders in any process: senders are counted exactly, a registered receiver has a sender or a pending check, every waiting fiber is registered or named by one posted resume |
| IpcInbox.OnWaitKeeps | src/ipc_actor.cpp:281-766 | every outcome of a wait keeps that invariant |
| IpcInboxGuarantees.OneSenderPerService | src/ipc_actor.cpp:386-417 | the count of senders drops by one exactly when a service is removed, and never wraps |
| IpcInboxGuarantees.MessageOutcome | src/ipc_actor.cpp:427-766 | of a datagram with at least 16 bytes, not cut short: refused, it leaves the queue as it was and removes its service; accepted, it is appended or handed to the receiver, and its socket is no longer waited for |
| IpcInboxGuarantees.RefusedUnread | src/ipc_actor.cpp:281-400 | a failed wait, and a datagram shorter than 16 bytes or cut short, removes the service and queues nothing; a receiver stays, or is told that no sender is left exactly if none is. A wait that came too early changes nothing |
| IpcInboxGuarantees.ReceiverResumedOnce | src/ipc_actor.cpp:744-766 | a wait loses the receiver only by resuming it once, with a message or with the news that no sender is left |
| IpcInboxGuarantees.SuspendedOnceResumedOnce | src/actor.ypp:898-989 | over any run a fiber has been resumed, by whatever sender, once for each time it suspended in receive, except that it may wait for the last |
| IpcInboxGuarantees.NullResumeIff | src/actor.ypp:951-976 | a resume of a null fiber is posted exactly by interrupting a receiver that close has taken away |
| IpcInboxGuarantees.NullResumeHappens | src/actor.ypp:1007-1021 | a run in which it happens |
| IpcInboxGuarantees.ListeningIff | src/actor.ypp:2248-2251 | while a fiber receives every socket is waited for, until a fiber sends the inbox itself away, and only then not |
| IpcInboxGuarantees.DeafReceiver | src/actor.ypp:2248-2251 | a run after which the receiver cannot hear its only sender |
| IpcInboxMail.ReachableMail | src/actor.ypp:752-873 | after every run each suspended send is in one place: to be delivered, queued, or with a resume posted; nobody waits while a message is queued; whatever an interrupter has posted behind a delivery is for that very send |
| IpcInboxMail.SendEndsOnce | src/actor.ypp:377-873 | over any run every suspended send ends once or has not ended, and the sends that end well are exactly those whose message was handed to a fiber that received |
| IpcInboxOrder.MessagesInOrder | src/actor.ypp:829-989 | over any run messages of all senders are handed over in the order of arrival, less those taken back or dropped by close |
| IpcInboxOrder.InterruptTakesItsSend | src/actor.ypp:779-828 | an interrupted send is looked up by its sender only, and yet takes back that send or nothing, never a later one |
| IpcInboxOrder.NullWakeIff | src/actor.ypp:1023-1028 | a null pointer is followed exactly by closing the inbox while a message from another process is queued |
| IpcInboxOrder.NullWakeHappens | src/actor.ypp:1023-1028 | a run in which it happens |
| IpcInboxReasons.EveryEndHasCause | src/actor.ypp:396-1029 | over any run every receive that ended goes back to one action on the open inbox with its fiber registered: the loss of the last sender, close, its own interruption, the message that arrived; every send that ended was handed over, was queued at close or came to a closed inbox, or was taken back |
| IpcInboxReasons.ReceiveAnswers | src/actor.ypp:898-989 | each answer of receive with exactly the states in which it is given |
| IpcInboxReasons.ReceiveLeaves | src/actor.ypp:898-989 | only a message or a suspension changes the inbox; a suspended receiver is registered, interruptible as its gate says, and every socket is waited for |
| IpcInboxReasons.InterruptReaches | src/actor.ypp:951-976 | interrupting the fiber that is receiving takes it out of the open inbox and posts its resume |
| IpcInboxReasons.InterruptedOnce | src/actor.ypp:779-976 | interrupting a receive or a send a second time does nothing |
| IpcInboxReasons.SendAnswers | src/actor.ypp:396-873 | send suspends and asks the strand of the inbox to take its message, or is refused; an interruption asks for that message back if the send is interruptible |
| IpcInboxReasons.ServiceAdded | src/actor.ypp:2210-2226 | a socket that is added is waited for at once exactly if a fiber is receiving |
| IpcInboxService.RightsInOrder | src/ipc_actor.cpp:365-380 | descriptors are collected message by message and in turn, of rights messages only and without those that are missing |
| IpcInboxService.WaitOutcome | src/ipc_actor.cpp:281-400 | which outcome of a wait the two system calls mean |
| IpcInboxService.CollectFds | src/ipc_actor.cpp:365-380 | the descriptors of all control messages that carry any, in order |
| IpcInboxService.VmInbox.OnWait | src/ipc_actor.cpp:281-766 | the object performs the model's step; each descriptor received is owned by the value handed on or closed, all of them closed when the datagram is refused unread |
| IpcInboxService.VmInbox.Receive | src/actor.ypp:898-989 | gate and errors in their order; takes the oldest message and wakes its sender, or registers the receiver and has every socket waited for |
| IpcInboxService.VmInbox.Interrupt | src/actor.ypp:951-976 | the closure of receive takes away whoever is registered and posts a resume for it |
| IpcInboxService.VmInbox.Close | src/actor.ypp:991-1029 | the receiver and, by the loop over the queue, every queued sender learn of it; messages without a sender follow a null pointer |
| IpcInboxService.VmInbox.DropAddress | include/emilua/core.hpp:1140-1168 | the count goes down, and at zero a check is posted |
| IpcInboxService.VmInbox.Send | src/actor.ypp:396-873 | the caller suspends with an interrupter, and its message is posted to the strand of the inbox |
| IpcInboxService.VmInbox.Deliver | src/actor.ypp:831-869 | a closed inbox wakes the sender, a receiver gets the message and the sender learns it, else it is queued |
| IpcInboxService.VmInbox.Erase | src/actor.ypp:797-823 | the search over the queue takes out the first message of the sender, if any |
| JsonRefinement.DecodeRefinesMeaning | src/json.cpp:158-360 | a document is decoded exactly when it fits the limits, else the error is that of its first fault; the new tables denote it (null as the sentinel, every other scalar as itself), refer to younger tables only, and nothing else changes |
| JsonRefinement.DecodeValue | src/json.cpp:185-343 | the tokens of any value, at any place of any document, store that value there and leave the loop's state as it was |
| JsonRefinement.RefuseValue | src/json.cpp:280-317 | too deep a nesting, too long an array or a number out of range makes the loop fail wherever it is, with the error of the first fault from left to right |
| JsonRefinement.ReaderFails | src/json.cpp:158-360 | a reader that fails after some tokens of a document makes decoding fail, with the error of the fault it came to first, if any |
| JsonPath.StepKeepsPath | src/json.cpp:220-350 | after every token the slots of the tree stack are the open containers, each stored in the one before under what the path says |
| JsonPath.PathInvariant | src/json.cpp:280-359 | that holds for every beginning of every document; at most one slot is left; no index exceeds what lua_rawseti takes |
| JsonLoop.DecodeText | src/json.cpp:123-361 | the loop computes the run of the token steps, with its errors |
| InPlaceAppend.InPlaceAgreesIff | src/byte_span.cpp:272-287 | appending in place gives the bytes of a copying append, whatever the bytes are and whatever memcpy does with overlapping stretches, exactly if no source overlaps where it or an earlier one goes, except that a source may be copied onto itself |
| InPlaceAppend.HarmlessIff | src/byte_span.cpp:272-287 | such a harm is one byte that a source reads after it or an earlier source has put a byte of another place there |
| InPlaceAppend.OwnTailDisagrees | src/byte_span.cpp:285-285 | three bytes from 1 on, appended at 2, are enough to go wrong |
| InPlaceAppend.ClearIsHarmless | src/byte_span.cpp:272-287 | sources clear of the room being filled are safe |
| InPlaceAppend.OnlyTheTailChanges | src/byte_span.cpp:280-287 | no byte outside the appended room changes, whatever the sources are |
| ByteSpans.New | src/byte_span.cpp:19-63 | which sizes are refused; the view covers its own buffer to the end |
| ByteSpans.SliceShows | src/byte_span.cpp:133-163 | which bounds are in range; a slice shows the bytes between them, spare ones included |
| ByteSpans.SliceOfSlice | src/byte_span.cpp:133-163 | slicing a slice is slicing once with added positions, errors included |
| ByteSpans.SliceGrows | src/byte_span.cpp:117-131 | bounds left out are those of the span; a span can be sliced up to its capacity |
| ByteSpans.Copy | src/byte_span.cpp:167-205 | the smaller number of bytes is copied as it was before, overlapping or not, and nothing else changes |
| ByteSpans.SetByte | src/byte_span.cpp:1021-1044 | one byte is set, or an error and nothing |
| ByteSpans.MemberAppend | src/byte_span.cpp:207-294 | with room it fills the bytes after the span and shares the buffer, otherwise a new one; the contents are those of a copying append unless a source was harmed |
| ByteSpans.NonMemberAppend | src/byte_span.cpp:847-922 | a new buffer holds all arguments, joined |
| ByteSpans.AppendBothWays | src/byte_span.cpp:207-922 | asked for the span and the same arguments the two forms fail together, and otherwise show the same contents unless room was filled in place and a slice was harmed |
| ByteSpans.AppendsAgree | src/byte_span.cpp:847-922 | the bytes that the two forms are to show are the same |
| ByteSpans.Trimmed | src/byte_span.cpp:768-836 | the view between the first and the last byte that is none of those given, or of the six blanks |
| MonotonicAllocator.CallKeepsIff | src/ipc_actor.cpp:66-95 | a call keeps live blocks inside, aligned and disjoint exactly if it needs no new room or the next address plus the rounded size does not wrap |
| MonotonicAllocator.WrappingHandsOutTwice | src/ipc_actor.cpp:84-84 | a size after which the next call hands out a block that is in use |
| MonotonicAllocator.CallContract | src/ipc_actor.cpp:66-95 | a call that does not wrap fails exactly for want of room; what comes back is aligned, of the size asked for, and holds the old contents |
| MonotonicAllocator.OthersKept | src/ipc_actor.cpp:66-95 | no call changes another live block |
| MonotonicAllocator.BlockLastsOverRun | src/ipc_actor.cpp:66-95 | over any run a block keeps its bytes until it is itself used or given back |
| MonotonicAllocator.Allocator.Alloc | src/ipc_actor.cpp:66-95 | the object performs the model's call, and keeps the invariant exactly if the sum does not wrap |
| Endpoint.ToString | src/ip.cpp:144-187 | prints the address, and the port modulo 65536 |
| Endpoint.ToEndpoint | src/ip.cpp:190-256 | cuts the text down to what the reference parser says, with its errors |
| Endpoint.AcceptsIff | src/ip.cpp:197-250 | exactly the texts "host:port" are accepted whose host reads and whose port is in its one canonical spelling |
| Endpoint.RefusedIff | src/ip.cpp:197-250 | a text is out of range exactly if its port begins with a number of at least 65536, whatever follows; it has a bad address exactly if the port is fine and the host does not read; any other refusal is EINVAL |
| Endpoint.NoColonIsInvalid | src/ip.cpp:198-202 | so is a text without a colon |
| Endpoint.FiveDigits | src/ip.cpp:163-168 | five characters are enough for any port |
| Endpoint.PrintedReadsBack | src/ip.cpp:161-256 | what is printed is read back as the address and the port modulo 65536 |
| Endpoint.RoundTripIff | src/ip.cpp:162-162 | an endpoint survives exactly if its port is between 0 and 65535 |

## Left out

* VM shutdown, running out of memory, panics and logging. Nested Lua coroutines: a fiber
  is one thread of control. Module fibers and the fiber that `system` runs are not told
  apart.
- VmContexts.VmContext.Finish: does not model that an error in the main fiber closes the
  VM; the main fiber is a detached fiber like any other.
- VmContexts.FiberTable.CheckSuspend: does not model the refusal for the thread that runs
  event callbacks, which is not a fiber and never waits anywhere.
* Interrupters of asynchronous IO operations other than the ones modelled.
* The wrappers in Lua bytecode: locking the mutex again after a wait, scopes, pcall, and
  JSON encoding. Mutexes are not checked for their owner, as in the code.
* The fiber that receives and the fibers that send are not joined to the fiber machine:
  what the suspension check of `Runtime` says is a parameter of receive and send. What
  closes an inbox for other reasons than a call (the end of its VM) is not told apart.
- IpcInboxService.VmInbox.Send: does not model how a Lua value becomes a message, nor an
  inbox whose VM is gone; an increment of the sender count is not wrapped.
* Between the destructor of an address dropping the count to zero, possibly in another
  thread, and its post to the strand nothing else happens in the model.
- IpcSend.SendTable: does not model the socket pair that is made for an address, nor its
  errors; the address comes as a descriptor. Whether the channel is open, sending the
  datagram itself, and the eight bits that count its descriptors are not part of this model.
* JSON: the text of numbers and strings, the reader itself, and the `path` field of
  errors. Tables live in an explicit heap of values and are not Dafny objects.
* The string searches of byte spans (`find` and its kin), which read and change nothing.
- MonotonicAllocator.Allocator.Alloc: does not model bytes outside the buffer, which a
  call that wraps may write; the end of the process is an outcome.
* `ByteSpans` has no bound on memory.
