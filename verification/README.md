# The flag-bearer wait queue and futex mutex

flag-bearer is a generic async semaphore. A queue holds a user-defined state that decides who gets
a permit; requests that are refused wait in a list, and permits are handed out from its front. The
queue can be closed, is poisoned when user code panics under its lock, and wakes its waiters in
bounded batches without holding the lock, so everything may interleave between two batches. The
lock itself is a three-state futex mutex.

Both are modelled as step machines over any number of waiters, activations and threads, and next to
that as the classes and loops the source is written in, proved against the same functions.

## Layout

- `semaphore_state.dfy`, `order.dfy`: what the queue is parametric in. User code is a set of
  functions; a callback that panics is an outcome like the others, carrying whatever state it left.
  The laws that a theorem needs (a refusal gives the params back, changes nothing, stays a refusal
  after somebody else's grant; an acquire conserves a quantity; a release undoes a grant) are
  predicates, required one by one.
- `queue_model.dfy`: the locked sections (`check`, `close_one`, `acquire_or_enqueue`, `poll`,
  `drop`) as functions on a value that holds the queue state and the pinned nodes. Its `ub` flag is
  raised where an `unsafe` block is entered with its precondition broken.
- `machine.dfy`: runs. A step is a locked section or the invocation of one waker. An activation of
  `with_queue` or `close` is a batch of wakers still to invoke, and whether it locks again after.
- `lists.dfy`, `lifecycle.dfy`, `moves.dfy`: facts about lists, the node lifecycle invariant, and
  how a step moves a future through its life.
- `answers.dfy`: exactly what attempts, polls and drops answer and do.
- `wakes.dfy`, `stranded.dfy`, `traps.dfy`, `conservation.dfy`, `ordering.dfy`, `fates.dfy`,
  `closing.dfy`, `poison.dfy`: the safety theorems over runs; `traps.dfy` holds a run for each kind
  of step that `stranded.dfy` shows to leave a waiter behind.
- `refinement.dfy`: the queue refines a plain semaphore with neither batches, wakers nor counters.
- `drain.dfy`, `confluence.dfy`: batches against one simple pass, and cancelling before or after it.
- `queue_state.dfy`, `semaphore_queue.dfy`, `drop_wrapper.dfy`, `permit.dfy`: `QueueState`,
  `SemaphoreQueue`, `WakeBatch`, `DropWrapper` and `Permit` as classes whose methods update fields
  and run the source's loops. `solo.dfy` ties them to the machine.
- `limits.dfy`: the counting semaphore and the two-dimensional limit, and what the laws give them.
- `futex.dfy`, `futex_lock.dfy`: the mutex as a machine, and its code as one thread runs it. Its
  mutual exclusion is what justifies taking a locked section of the queue as one step.

All theorems hold for any state, permit and params type, any ordering policy and any batch capacity
(32 in the source; at least 1 where a bound on rounds or termination is claimed).

## Model

| member | source | states |
|---|---|---|
| Lifecycle.RunKeepsSafe | flag-bearer-queue/src/acquire.rs:71-169 | In every run, whatever the callbacks do or however they panic, no unsafe block is entered with its precondition broken: an unlinked node is taken once, `Enqueue` finds the list open, `len` is the number of linked nodes, and a discarded list is closed and empty |
| Lifecycle.InitIsSafe | flag-bearer-queue/src/lib.rs:81-97 | A new queue satisfies that invariant |
| Lifecycle.PollKeepsSound | flag-bearer-queue/src/acquire.rs:94-178 | Every poll, first or repeated, open, closing or discarded, keeps each future on the list exactly once while it is linked and never otherwise, list and node agreeing on the waker |
| Lifecycle.DetachKeepsSound | flag-bearer-queue/src/acquire.rs:44-85 | So does dropping a future in any phase |
| Lifecycle.CheckKeepsSound | flag-bearer-queue/src/lib.rs:343-387 | So does a batch of servicing, also one that ends in a panic |
| Lifecycle.CloseKeepsSound | flag-bearer-queue/src/lib.rs:431-455 | So does a batch of closing, and it discards the list only when nothing is linked |
| Wakes.RunKeepsWakes | flag-bearer-queue/src/lib.rs:160-239 | In every run, waker and callback panics included, each wake that is due was invoked once or sits in exactly one batch once, and no other wake exists |
| Wakes.UnclaimedIsWokenOnce | flag-bearer-queue/src/acquire.rs:154-177 | In every run, an unclaimed result has exactly one wake, through the waker that the last poll of the future to answer Pending passed in; when all batches are empty it has been invoked |
| Answers.PollAnswers | flag-bearer-queue/src/acquire.rs:94-178 | Every poll of every phase: Pending exactly if the future is queued afterwards, and then with the waker of this poll; a permit or an error exactly if it ends with that; a panic exactly if it aborts or was done |
| Answers.FirstPollAnswers | flag-bearer-queue/src/acquire.rs:98-131 | Exactly when a first poll is granted, fails with its own params, panics or waits, from the one call of `acquire` it may make |
| Answers.FirstPollJoins | flag-bearer-queue/src/acquire.rs:113-130 | A first poll that waits is linked once, at the end the policy names, with its params, this waker and the newest ticket, and the rest of the list is as it was |
| Answers.LaterPollAnswers | flag-bearer-queue/src/acquire.rs:134-177 | Exactly what a later poll answers, from what the node holds and whether the queue is closed |
| Answers.PollWhileClosing | flag-bearer-queue/src/acquire.rs:134-145 | In every run a live queued future polled while a close drains leaves the list at once with its own original params |
| Answers.DropExactly | flag-bearer-queue/src/acquire.rs:44-85 | Dropping a future ends it in every phase, even when `release` unwinds: exactly an unclaimed permit is given back, exactly a queued node leaves the list, and exactly when servicing follows |
| Answers.AttemptExactly | flag-bearer-queue/src/acquire.rs:238-270 | Every outcome of an attempt exactly: granted if and only if the queue admits, `acquire` grants, and the caller is unfair, nobody is queued or the policy says front; the permit and the state are those of that one call |
| Answers.TryExactly | flag-bearer-queue/src/acquire.rs:207-226 | In every run `try_acquire` hands out exactly that permit, an unfair one past any queue, and changes nothing but the state, poison and the policy |
| Answers.StepAsksPolicy | flag-bearer-queue/src/acquire.rs:231-256 | The policy is asked once, with the number of linked nodes, by a fair attempt on a queue that admits, and by no other step |
| Wakes.WakerPanicStops | flag-bearer-queue/src/lib.rs:182-238 | A waker that panics ends its activation of `with_queue` or `close` for good, in every later run; what is left of its batch stays to be woken, in order |
| Stranded.NobodyStranded | flag-bearer-queue/src/lib.rs:214-239 | In every run, panics included, in which no step strands: if the queue is open and unpoisoned and its first live waiter would not be refused, some activation still owes a check |
| Stranded.QuietRunsStrandNobody | flag-bearer-queue/src/lib.rs:214-239 | The same in plain words: in every run in which no callback and no waker panics, if the queue is open and its front waiter would not be refused, some activation still owes a check |
| Stranded.StepAttends | flag-bearer-queue/src/acquire.rs:44-270 | Exactly which steps leave a waiter behind, for every step and every kind of panic: an attended queue stays attended if and only if the step is not `clear_poison` of a poisoned queue, a panicking waker of the only activation that owes a check, or a first poll that joins untried behind dead waiters only, each on an open queue with no other check owed whose first live waiter would then not be refused |
| Stranded.AttendedExactly | flag-bearer-queue/src/lib.rs:214-239 | A run of a new queue is attended at every point if and only if none of its steps is one of those three |
| Stranded.RecheckRecovers | flag-bearer-queue/src/lib.rs:123-130 | The documented recovery: after any run, `clear_poison` followed by a `with_state` that does not panic leaves the first live waiter refused or a check owed |
| Traps.ClearPoisonStrands | flag-bearer-queue/src/lib.rs:406-416 | A run that is attended before its last step, `clear_poison`, which leaves a live waiter whom the state would serve, with no check owed |
| Traps.DeadHeadStrands | flag-bearer-queue/src/acquire.rs:245-259 | A run that is attended before its last step, in which a FIFO newcomer whom the state would serve queues untried behind a waiter whose params were lost |
| Traps.WakerPanicStrands | flag-bearer-queue/src/lib.rs:229-238 | A run of 33 waiters that is attended before its last step, in which a panicking waker of the first batch leaves the last waiter without the permit that is there |
| Conservation.RunConserves | flag-bearer-queue/src/acquire.rs:53-84 | For every conserved quantity and every run in which no callback panics: available + granted but unclaimed + held = initial + minted - taken, through grants, claims, cancels, closing and batching |
| Conservation.ServeConserves | flag-bearer-queue/src/lib.rs:350-386 | What the state gives up in a batch is what the removed nodes receive |
| DropWrappers.ReadOnce | flag-bearer/src/drop_wrapper.rs:11-41 | No sequence of creating, amending, taking and leaving scopes, with destructors firing for every guard that is not forgotten, reads or writes a cell that was moved out; a cell is read exactly once when its guard is gone and never before, except, exactly, when the destructor of `s` unwinds inside `take`, which leaks it unread |
| DropWrappers.DropWrapper.Take | flag-bearer/src/drop_wrapper.rs:31-40 | Moves the value out with a read whose precondition holds, and the destructor does not run when `take` ends |
| DropWrappers.DropWrapper.LeaveScope | flag-bearer/src/drop_wrapper.rs:16-21 | The destructor runs for a live wrapper and for no other, and its raw read finds the value there |
| PermitLedger.PermitsReadOnce | flag-bearer/src/permit.rs:39-89 | In every run each permit handed out sits in such a wrapper, holds the value last written, is never read after it was moved out, and is read exactly once when it was given back or taken |
| Refinement.QueueRefinesPlain | flag-bearer-queue/src/lib.rs:101-158 | Every run without callback panics is a run of a plain semaphore whose only events are arrive, try, enlist, grant the head, withdraw, give back, set the state, close and fail, each allowed only where its guard says, ending in the same state, the same waiting requests in order and the same fate for each |
| Refinement.StepRefines | flag-bearer-queue/src/lib.rs:216-239 | Each step is the user's own event, a dropped permit being given back through `release`, followed by grants at the head, or by closing and failures; re-polls, claims, wakes and rounds with nothing to do are not seen |
| Refinement.ServeRefines | flag-bearer-queue/src/lib.rs:343-387 | A batch is that many grants at the head of the waiting sequence, each allowed in the state it finds |
| Refinement.CloseRefines | flag-bearer-queue/src/lib.rs:431-455 | A closing batch is that many failures at the head, each giving the request its own params back |
| Refinement.FirstPollRefines | flag-bearer-queue/src/acquire.rs:98-131 | A first poll is an immediate grant, a failure of a closed semaphore, or an enlistment that is allowed only if refused or behind others |
| Drain.BatchThenPass | flag-bearer-queue/src/lib.rs:343-387 | A batch with room for any number did the whole simple pass if it did not fill; a full one, though it rescans dead nodes, leaves exactly the rest |
| Servicing.RoundContinues | flag-bearer-queue/src/lib.rs:229-238 | A round that is followed by another leaves exactly the rest of the simple pass that began at any earlier point, in state, list, results, wake order and panic; a round that is not completes it |
| Servicing.FailsContinue | flag-bearer-queue/src/lib.rs:141-156 | A round of `close` and failing all that is left afterwards is failing all that was there before, wakes in order included |
| Solo.StepAloneIsPass | flag-bearer-queue/src/lib.rs:216-239 | In the machine, every activation left alone can be finished, and then core and wake log are those of the simple pass: the machine and the methods below agree |
| Confluence.CancelCommutes | flag-bearer-queue/src/acquire.rs:53-70 | Without interference: serve, drop any future and serve again, or drop it first and serve once, gives the same state, list, counters and nodes, except the mark that the dropped one was woken; never polled, queued, dead, granted, failed or done |
| Drain.CancelGranted | flag-bearer-queue/src/acquire.rs:57-60 | Cancelling a waiter that the pass granted: everyone else's grants survive with the same permits in the same order, and the permit serves whoever comes next |
| Drain.CancelQueued | flag-bearer-queue/src/acquire.rs:61-67 | The same for a waiter that the pass left queued, a head-of-line blocker or a dead one included |
| Drain.ReleaseCommutes | flag-bearer-queue/src/lib.rs:343-387 | Giving a permit back after a pass and passing again is giving it back first |
| Ordering.AnyPolicyShape | flag-bearer-queue/src/order.rs:8-14 | In every run under any policy, however stateful: front-joiners, youngest first, precede back-joiners, oldest first |
| Ordering.HybridRun | flag-bearer-queue/src/order.rs:46-51 | Under `Hybrid` never more than `lifo_above` + 1 back-joiners are linked, in any run |
| Ordering.HybridJoins | flag-bearer-queue/src/order.rs:34-51 | In every run a newcomer that is linked joins in front of everybody exactly when more than `lifo_above` nodes are linked, and behind everybody otherwise |
| Ordering.HybridIsFifoWhenShort | flag-bearer-queue/src/order.rs:34-39 | While at most `lifo_above` + 1 nodes were ever linked at once, the list is oldest first |
| Ordering.FairListSorted | flag-bearer-queue/src/order.rs:27-32 | Under FIFO the list is strictly ascending by the ticket drawn at first poll, under LIFO strictly descending |
| Ordering.FairGrantInRun | flag-bearer-queue/src/acquire.rs:245-259 | In every run each fair grant, at once or from the queue, goes to an older request than every live one still queued (FIFO), to a younger one (LIFO) |
| Ordering.FairFirstPoll | flag-bearer-queue/src/acquire.rs:252-266 | An immediate fair grant leaves the list alone, draws the newest ticket, and under FIFO finds nobody queued |
| Ordering.ServeGrantsLead | flag-bearer-queue/src/lib.rs:350-386 | Of a list in shape, every waiter that a batch grants may precede every live one it leaves |
| Closing.CleanCut | flag-bearer-queue/src/lib.rs:431-455 | After any run that closed the queue, a live queued waiter is, whatever runs next, still queued, failed with its own original params, or cancelled |
| Moves.ShutRunMoves | flag-bearer-queue/src/lib.rs:344-346 | While closed, or poisoned and not cleared, no future is linked or granted: each keeps its result, claims it unchanged, fails, or is cancelled |
| Moves.ShutRunTry | flag-bearer-queue/src/acquire.rs:238-248 | In every such run `try_acquire` gives the params back, with poison reported before closing, and changes nothing whatsoever |
| Moves.ShutRunHandsOut | flag-bearer-queue/src/acquire.rs:94-178 | In every such run the permits handed out are those that users mint and those that were granted before |
| Moves.StepMoves | flag-bearer-queue/src/acquire.rs:134-177 | How any step may move a future: a queue that does not admit never grants or links, and a result is claimed as it is or dropped |
| Closing.CloseRoundsBounded | flag-bearer-queue/src/lib.rs:139-157 | Whatever runs between its batches, other closes included, each `close` does at most max(1, ceil(n / capacity)) rounds, n being the nodes linked when `closed` was first set |
| Closing.CloseReturnsEmpty | flag-bearer-queue/src/lib.rs:149-155 | In runs where no waker of an unfinished activation panics, when a `close` has no round left the list is discarded and nothing is linked |
| Closing.RunKeepsOwn | flag-bearer-core/src/lib.rs:38-52 | Every request keeps its own params until it ends, and an error returns them |
| Fates.RunKeepsDoomed | flag-bearer-queue/src/acquire.rs:134-177 | A queued waiter that closing cut off, or whose params were lost, is never granted in any run: it fails with what it has, or is cancelled |
| Poison.PoisonIsUnwinding | flag-bearer-queue/src/lib.rs:285-340 | A step leaves the queue poisoned exactly if it was poisoned and the step is not `clear_poison`, or a guarded call of user code unwound in it, which was then its last |
| Poison.StateIsWhatCallsLeave | flag-bearer-queue/src/lib.rs:333-387 | Over every step and every kind of panic: each callback finds the state its predecessor left, and the state afterwards is what the last one left; nothing is rolled back |
| Poison.PanicsKeepTheirState | flag-bearer-queue/src/lib.rs:285-340 | In every run a half-updated state that a `with_state` closure, `release` or `acquire` leaves when it unwinds is the state from then on |
| Poison.UnwindingKills | flag-bearer-queue/src/lib.rs:352-365 | A batch that ends in a panic leaves the waiter whose params that call took in the list, without them |
| Poison.DeadByUnwinding | flag-bearer-queue/src/lib.rs:352-365 | A step makes a waiter dead only by an `acquire` that unwinds, and then it poisons the queue |
| Poison.DeadAreSkipped | flag-bearer-queue/src/lib.rs:352-360 | Dead waiters never stop a check: grants, wakes, state and panic are as if they were not there |
| Limits.CounterLaws | flag-bearer/src/lib.rs:51-70 | The counting semaphore satisfies every law the theorems ask for, and refuses nothing that fits |
| Limits.LimitLaws | flag-bearer-examples/examples/multi_dimensional.rs:27-45 | So does the two-dimensional limit, for requests and for bytes: it refuses exactly what exceeds one of them |
| Limits.LimitReleaseExactly | flag-bearer-examples/examples/multi_dimensional.rs:41-44 | A release returns exactly if both sums fit; one that unwinds has counted the request unless that sum did not fit, and not the bytes |
| Limits.CounterReleaseExactly | flag-bearer/src/lib.rs:67-69 | A release returns exactly if the sum fits, and otherwise leaves the count |
| Limits.Limits.Acquire | flag-bearer-examples/examples/multi_dimensional.rs:31-39 | The fields after it: both limits reserved, or neither |
| Limits.Limits.Release | flag-bearer-examples/examples/multi_dimensional.rs:41-44 | The fields after it, also where an addition overflows between them |
| Limits.NeverExceeded | flag-bearer-queue/src/acquire.rs:53-84 | While users only acquire, claim, cancel, drop and take, no callback ever panics and no more is out than was there at the start |
| Limits.LimitsHold | flag-bearer-examples/examples/multi_dimensional.rs:16-45 | For the two-dimensional limit: at any time at most the configured requests and bytes are admitted, nothing overflows |
| Limits.CounterHolds | flag-bearer/src/lib.rs:51-70 | For the counter: available, granted and held never exceed the initial permits |
| Limits.AdmitsWithinLimits | flag-bearer-queue/src/acquire.rs:207-268 | In every run in which users only acquire, claim, cancel and drop: once everything has come back, an open queue admits exactly what is within the limits it was made with, and whoever is then still first in line, no check being owed, asks for more |
| Limits.LimitsAdmit | flag-bearer-examples/examples/multi_dimensional.rs:27-45 | That for the two-dimensional limit: a reservation that fits exactly gets in |
| Limits.CounterAdmits | flag-bearer/src/lib.rs:51-70 | That for the counter |
| Limits.LimitsConserve | flag-bearer-examples/examples/multi_dimensional.rs:27-45 | Both quantities of the two-dimensional limit balance exactly over every run without panic, users' own interventions included |
| Limits.CounterConserves | flag-bearer/src/lib.rs:51-70 | The counter balances exactly over every such run |
| WaitQueue.QueueState.constructor | flag-bearer-queue/src/lib.rs:81-97 | A new queue is open, empty and unpoisoned, and valid |
| WaitQueue.QueueState.UpdateState | flag-bearer-queue/src/lib.rs:333-340 | The closure's state is kept also when it unwinds, and then poison is set; Poison.PanicsKeepTheirState says so of whole runs |
| WaitQueue.QueueState.ClearPoison | flag-bearer-queue/src/lib.rs:414-416 | Lifts the poison and nothing else |
| WaitQueue.QueueState.Check | flag-bearer-queue/src/lib.rs:343-387 | Keeps the lifecycle invariant, changes the whole state as one batch does, and collects the wakers of exactly the granted nodes in order |
| WaitQueue.QueueState.ServeList | flag-bearer-queue/src/lib.rs:350-386 | The cursor loop: served, kept, removed and woken are those of the recursive batch; the batch never overflows and the cursor is never off the list at a removal |
| WaitQueue.QueueState.CloseOne | flag-bearer-queue/src/lib.rs:431-455 | Fails the front node with its params, discards the list when nothing is left, and returns that node's waker |
| WaitQueue.QueueState.AcquireOrEnqueue | flag-bearer-queue/src/acquire.rs:238-270 | The attempt of Answers.AttemptExactly, with the policy asked once, and poison if `acquire` unwinds |
| WaitQueue.QueueState.Enroll | flag-bearer-queue/src/acquire.rs:199-205 | Creating a future adds a node that is not linked |
| WaitQueue.QueueState.PollFirst | flag-bearer-queue/src/acquire.rs:98-131 | A first poll; the unchecked branch is not reached |
| WaitQueue.QueueState.PollQueued | flag-bearer-queue/src/acquire.rs:134-160 | Polling a queued node, as Answers.LaterPollAnswers says: re-registered with the new waker, or off the list with its params when the queue is closing |
| WaitQueue.QueueState.Poll | flag-bearer-queue/src/acquire.rs:94-178 | Any poll; `take_removed_unchecked` is called only for a node with a result |
| WaitQueue.QueueState.Detach | flag-bearer-queue/src/acquire.rs:53-84 | Dropping a future: what it leaves, and whether servicing follows |
| Servicing.SemaphoreQueue.WakeAll | flag-bearer-queue/src/lib.rs:182-212 | Every waker of a batch is invoked once, in order, unlocked, even when one panics |
| Servicing.SemaphoreQueue.Service | flag-bearer-queue/src/lib.rs:220-239 | The loop of `with_queue`, whatever the wakers do: at most max(1, ceil(n / capacity)) rounds; without waker panics it leaves and wakes what one simple pass does; a waker that panics cuts it after the batch it is in, which is woken to its end, and one more pass would complete what was left |
| Servicing.SemaphoreQueue.CloseBatch | flag-bearer-queue/src/lib.rs:143-148 | The inner loop of `close` fails nodes front to back until the batch is full or none is left |
| Servicing.SemaphoreQueue.Close | flag-bearer-queue/src/lib.rs:139-157 | Alone, whatever the wakers do: it unwinds exactly if a waker it invoked panics; otherwise every linked node fails in order, each is woken once, and the list is discarded, also when an earlier close was cut short; cut short itself, the queue is closed and failing the rest completes it |
| Servicing.SemaphoreQueue.WithState | flag-bearer-queue/src/lib.rs:107-109 | A closure that unwinds poisons and serves nobody; another is followed by servicing, with or without waker panics |
| Servicing.SemaphoreQueue.Cancel | flag-bearer-queue/src/acquire.rs:44-85 | Dropping a future gives an unclaimed permit back, or leaves the list, and then serves whoever waits behind, with or without waker panics |
| Servicing.SemaphoreQueue.Poll | flag-bearer-queue/src/acquire.rs:94-178 | A poll serves nobody and wakes nobody; its answer is as Answers.PollAnswers says |
| Servicing.SemaphoreQueue.TryAcquire | flag-bearer-queue/src/acquire.rs:213-226 | A permit now or not at all, as Answers.AttemptExactly says; nobody is linked, served or woken |
| Permits.Permit.Take | flag-bearer/src/permit.rs:72-74 | Moves the value out and leaves the semaphore alone, now and when the scope of the guard ends |
| Permits.Permit.Drop | flag-bearer/src/permit.rs:86-88 | The end of the scope: a live guard gives its value back once and serves who waits for it, poisoning if release unwinds; a guard that was taken does nothing |
| Futex.RunKeepsGood | flag-bearer-mutex/src/futex.rs:24-102 | For any number of threads and any interleaving, with spurious failures and wakes: at most one holder, UNLOCKED exactly when none, and every sleeper covered |
| Futex.NextKeepsExclusive | flag-bearer-mutex/src/futex.rs:24-50 | Each access keeps at most one holder and the word in step with it |
| Futex.NextKeepsCovered | flag-bearer-mutex/src/futex.rs:42-101 | Each access keeps every sleeper covered: the word is CONTENDED, an unlocker is about to wake, or a thread is awake inside the loop |
| Futex.AcquiresExactly | flag-bearer-mutex/src/futex.rs:24-83 | A thread gets the lock at exactly three places, each finding the word UNLOCKED, and only one of them leaves CONTENDED |
| Futex.WritesExactly | flag-bearer-mutex/src/futex.rs:60-83 | A thread changes the word only by taking a free lock or marking one it saw uncontended |
| Futex.SleepsExactly | flag-bearer-mutex/src/futex.rs:85-97 | A thread sleeps only in a wait on a CONTENDED word, and waits only after marking it or seeing it marked |
| Futex.SeesExactly | flag-bearer-mutex/src/futex.rs:60-121 | What a thread goes by is the word just found; it spins on the way in and after each wait, and retries without marking exactly when the first spin finds the lock free |
| Futex.AloneIsCheap | flag-bearer-mutex/src/futex.rs:24-74 | In every run of one thread the word is never CONTENDED, and there is no wait and no wake, however often the weak exchange fails |
| Futex.NeverStuck | flag-bearer-mutex/src/futex.rs:42-50 | A free lock, a sleeper, every request asleep and no wake pending is unreachable |
| Futex.SomethingToDo | flag-bearer-mutex/src/futex.rs:60-134 | While a request or a holder is left, some willing action brings the measure down |
| Futex.Drains | flag-bearer-mutex/src/futex.rs:60-134 | From every good state a schedule of at most seven actions per thread, without new requests, empties the lock |
| Futex.EveryRequestCanObtain | flag-bearer-mutex/src/futex.rs:24-134 | After any run, one such schedule lets every outstanding request hold the lock |
| FutexLock.SharedWord.Lock | flag-bearer-mutex/src/futex.rs:24-32 | Against any words it may find, the code takes exactly the machine's turns and holds the lock only where the machine's thread does |
| FutexLock.SharedWord.LockContended | flag-bearer-mutex/src/futex.rs:60-102 | The same for the slow path with its loop |
| FutexLock.SharedWord.Spin | flag-bearer-mutex/src/futex.rs:104-121 | At most five loads; it goes on exactly while they find LOCKED, and returns the last |
| FutexLock.SharedWord.TryLock | flag-bearer-mutex/src/futex.rs:35-39 | Locks exactly a free word, and takes the machine's step in every state with the same word |
| FutexLock.SharedWord.Unlock | flag-bearer-mutex/src/futex.rs:42-50 | Frees the word and goes on to wake exactly when it was CONTENDED, which is the machine's step in every state with the same word |
| FutexLock.UnlockThenWake | flag-bearer-mutex/src/futex.rs:42-50 | The unlock of a contended word can always go on with its wake, which wakes exactly one of the sleepers there are |
| FutexLock.ThreadsRunTheCode | flag-bearer-mutex/src/futex.rs:24-121 | In any run, a thread that entered `lock` is where this code is after finding the words that thread found |

## Left out

- Pinning, the pointers of the intrusive list and the `DebugChecked` ids of pin_list: the list is a sequence of node ids beside a sequence of nodes, so aliasing is not modelled.
- Weak memory orderings and the futex system call: atomics are sequentially consistent, FUTEX_WAIT is "sleep if CONTENDED, else return", FUTEX_WAKE moves one sleeper of the kernel's choice.
- The parking_lot mutex, the loom shim and `is_locked`.
- A second panic while unwinding (the process aborts), panics of a user's `Order` or of `Waker::clone`, and where destructors of wakers and params run.
- The builder, the thin `Semaphore` wrappers, `Debug` and `Display`, error types; type-level closeability is a boolean of the rules.
- The AIMD examples (floating point) and the randomised order (Ordering.AnyPolicyShape covers any order).
- Starvation freedom and real-time liveness: LIFO and Hybrid give them up, and `with_queue` may loop while others keep joining.
- Clocks, the runtime and what a waker does when invoked are the scheduler's choice of the next step.
- Integer overflow panics, as it does with overflow checks on (`checked_add` in the counter always does); wrap-around of the two-dimensional limit in builds without them is not modelled. Limits.LimitsHold shows that neither happens unless users set the state or mint permits.
- The `len` counter and tickets are unbounded: no queue of 2^64 nodes is considered.
- Stranded.NobodyStranded: does not hold of runs with a stranding step; Stranded.AttendedExactly gives the exact condition and Traps a run for each of the three kinds.
- Conservation.RunConserves: says nothing once a callback has panicked, because the state a panic leaves is arbitrary.
- Confluence.CancelCommutes: requires that no callback panics: the pass does not unwind, and a permit that is given back is accepted.
- The methods of Servicing run uninterrupted; interference between their rounds is covered over the machine.
- DropWrappers.ReadOnce: takes for granted that only a wrapper that was not moved or dropped can be named, as the borrow checker ensures.
- Refinement.QueueRefinesPlain: covers runs without callback panics; waker panics are allowed in it.
- FutexLock.SharedWord.Lock: the loop of the source has no bound; here it gives up after a number of turns that the caller chooses, at the top of the loop.
