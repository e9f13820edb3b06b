# Verified models of libseff

libseff is a C and assembly library of shallow effect handlers with a work-stealing
scheduler on top. This project models its runtime, its queues, its scheduler and the
protocols its benchmarks build on them, and proves what they promise. It covers:

- **Work-stealing queues.** `ChaseLev`, `TlQueue` and `TkQueue` are transition systems with
  one owner and any number of thieves, where every load, store and compare-and-swap is a
  step of its own. Each is shown to refine a sequential queue (`FifoSpec` and the deque in
  `ChaseLev`) through all resizes, so nothing is lost or returned twice. `CircularArrays` is
  the buffer object with its masked indexing and its copying resize, specified by `Rings`.
- **The switch machine.** `SwitchSpec` is a machine without pointers: one stack of active
  coroutines and a captured segment for each paused one. `PointerMachine` is what
  asm/seff.S does to `parent_coroutine` and `resume_point`; `Coroutines` is the assembly
  itself over coroutine objects, with the prelude in which a coroutine starts and ends,
  handler lookup, perform and throw. `Effects` ties masks to sets of effects.
- **The segmented stack.** `SegmentedStack` is the doubly linked list of segments with its
  cursor; `SegmentSpec` is the list of sizes it stands for and what repeated calls do to it.
- **The scheduler and promises.** `Scheduler` interleaves workers over queues that behave as
  `FifoSpec`; its steps are labelled with what can be observed of them. `TaskLives` is the
  life of a task told by those labels alone, and `FetchOrder` the order in which workers
  look for tasks. `Promise` is the spin-locked promise access by access, shown to look like one
  of whole locked blocks; `Skynet` runs the benchmark's task tree over such blocks.
- **Reverse-mode differentiation.** `AutoDiff` proves the recursive handler computes the
  derivative of any straight-line program, and the closed form for the benchmark's.
- **Client protocols.** `Mailbox` (actor mailboxes), `SeffLookup` and `SmLookup` (interleaved
  binary searches), `Broker` (the chameneos broker) and `Cooperation` (the semaphore
  rendezvous).

Concurrent code is modelled as predicates `Step`/`Next` over states with one program
counter per thread, an invariant `Inv` kept by every step, and theorems about all runs.
Sequential code is modelled by classes and methods with loops. Auxiliary fields (logs,
holders, pairings) are named as such beside each state: they record what happened, and the
program's own fields develop as they would without them.

Four statements a reader might expect are false of the code. `tk_queue` keeps using an array
that was replaced meanwhile: `TkQueue.StaleStealDuplicates` gives a run in which an element
is returned twice, and `TkQueue.TakeIsFifoExactlyWhen` says exactly which takes are right.
The mailbox with two producers can hand NULL to its consumer: `Mailbox.TwoProducersCanFail`
gives a run, and `Mailbox.ReceivedInTicketOrder` says exactly when that happens. The
interleaved lookup resumes NULL when coroutines were refused by a full queue or never
started; the contract of `SeffLookup.SeffMultiLookup` says exactly when. The function of a
new coroutine may find up to 7 bytes less than the frame size asked for below its return
address; `Coroutines.FunctionHasRoomExactlyWhen` says for which frame sizes it finds them all.
`seff_resume` never marks a coroutine as running, although the declared state type has such
a value; the model follows the code.

## Model

| member | source | states |
|---|---|---|
| CircularArrays.MaskIsModulo | utils/circular_array.h:23-25 | masking an index with a power of two minus one selects the slot of the index modulo the size |
| CircularArrays.CircularArray.Get | utils/circular_array.h:23 | CA_GET reads the ring at the counter |
| CircularArrays.CircularArray.Set | utils/circular_array.h:24-25 | CA_SET changes the ring at that counter only |
| CircularArrays.CircularArray.Resize | utils/circular_array.h:27-43 | the copying loop yields a fresh array of twice the size that reads the same at every live counter, and leaves the old array as it was |
| Rings.SetGet | utils/circular_array.h:23-25 | a write at one counter is read back there and leaves every counter less than a buffer away alone |
| ChaseLev.StepRefines | utils/cl_queue.c:31-92 | each atomic step, resizes and thieves holding replaced arrays included, keeps the invariant and is one event of the sequential deque: push at the right, pop from the right, steal of the front that was looked at, or a reason for a negative answer (seen empty, front moved on) |
| ChaseLev.RunRefines | utils/cl_queue.c:25-92 | every interleaving of one owner and any number of thieves is event by event a run of the deque |
| ChaseLev.Conservation | utils/cl_queue.c:31-92 | at every point of every run the pushed occurrences of an element are those returned, in a caller's hands or in the deque |
| ChaseLev.EmptyIsJustified | utils/cl_queue.c:77-92 | a thief reports EMPTY only if at that moment the deque is empty or its one element is being popped |
| ChaseLev.AbortMeansLost | utils/cl_queue.c:86-89 | a thief aborts only if somebody took the element it was after |
| ChaseLev.GrowsOnlyIfFull | utils/cl_queue.c:59-71 | the owner resizes only if the array was full by the top it had read |
| FifoSpec.Conservation | utils/tl_queue.c:35-100 | a FIFO with an owner-only priority slot conserves elements along every run |
| FifoSpec.PopPrefersSlot | utils/tl_queue.c:62-67 | a pop called while the priority slot is full returns its element, whatever other threads do meanwhile |
| TlQueue.StepRefines | utils/tl_queue.c:35-100 | each access of any thread keeps the invariant and is one event of the FIFO with priority slot; a pop goes to the front only past an empty slot, and EMPTY is returned only by a thread that has seen the FIFO empty |
| TlQueue.RunRefines | utils/tl_queue.c:28-100 | every interleaving is event by event a run of that FIFO |
| TlQueue.RunConserves | utils/tl_queue.c:35-100 | no element is lost, duplicated or returned twice at any point of any run |
| TlQueue.MutualExclusion | utils/tl_queue.c:36-50 | at most one thread is between ACQUIRE_LOCK and RELEASE_LOCK |
| TlQueue.NoUseAfterFree | utils/tl_queue.c:41-48 | no thread is ever about to read, write or free an array that was freed |
| TlQueue.GrowsOnlyIfFull | utils/tl_queue.c:41-46 | the array is replaced only when it is full |
| TkQueue.ReadIsSource | utils/tk_queue.c:83-92 | a read at the current head through any array, replaced ones included, yields the element of a known earlier or equal counter |
| TkQueue.TakeKeeps | utils/tk_queue.c:64-98 | a successful compare-and-swap keeps the invariant and takes away exactly that element |
| TkQueue.TakeIsFifoExactlyWhen | utils/tk_queue.c:82-99 | if no task was pushed twice, a successful take is a FIFO take if and only if the thread's array is installed or was replaced after the front was pushed |
| TkQueue.OwnerHoldsFront | utils/tk_queue.c:58-80 | the owner's own takes always meet that condition |
| TkQueue.RunRefines | utils/tk_queue.c:34-99 | a run whose takes meet it is event by event a run of the FIFO with priority slot, so that EMPTY too is returned only by a thread that has seen the FIFO empty |
| TkQueue.RunConserves | utils/tk_queue.c:34-99 | with no resize between a thread's array load and its compare-and-swap nothing is lost, duplicated or returned twice |
| TkQueue.GrowsOnlyIfFull | utils/tk_queue.c:34-46 | the array is replaced only if it was full by the head the push had read |
| TkQueue.StaleStealDuplicates | utils/tk_queue.c:82-99 | a concrete run with such a resize pushes an element once and returns it twice |
| SwitchSpec.StepWellFormed | asm/seff.S:90-257 | creating, resuming, yielding and exiting keep the active stack and the captured segments free of repetitions and disjoint, and the outermost coroutine's saved stack pointer equal to the system stack |
| SwitchSpec.RunWellFormed | asm/seff.S:90-257 | hence along every run from a well-formed state |
| SwitchSpec.ActiveOccursOnce | asm/seff.S:90-257 | an active coroutine occurs once in the stack, in no segment, and is not finished |
| SwitchSpec.PausedOccursOnce | asm/seff.S:90-257 | a paused coroutine occurs only at the head of its own segment |
| SwitchSpec.ResumeRestoresYield | asm/seff.S:54-186 | a yield to a handler and the next resume of it, whatever runs in between, put back the whole context of the yielding point and push exactly the captured coroutines |
| SwitchSpec.YieldReturnsToResumer | asm/seff.S:54-258 | a yield to a coroutine or an exit from it continues where its last resume was called |
| SwitchSpec.MaskIsLatest | asm/seff.S:135-140 | a coroutine's handled effects are those of its latest resume, and none before the first |
| SwitchSpec.ExitedIsOver | asm/seff.S:224-258 | a coroutine that has exited is never running, captured, resumed, yielded to or exited again |
| SwitchSpec.FirstResumeStarts | asm/seff.S:135-186 | the first resume of a new coroutine, whatever ran since its creation, starts it alone on top of its resumer in the context it was created with |
| Effects.MaskMeans | src/seff.h:103 | a mask written as HANDLES(a), HANDLES(b), ... or-ed together handles an effect if and only if it is one of those written |
| Effects.HandlerIsInnermostNamed | src/seff.c:131-141 | after any run, what the lookup calls the handler of an effect is the innermost active coroutine whose latest resume named the effect |
| PointerMachine.ResumeRefines | asm/seff.S:135-186 | the pointer updates of resume represent pushing the captured segment |
| PointerMachine.YieldRefines | asm/seff.S:90-132 | those of yield represent splitting the active stack at the handler |
| PointerMachine.ExitRefines | asm/seff.S:224-258 | those of exit represent dropping the handler and all above it |
| PointerMachine.RunRepresents | asm/seff.S:90-258 | along every run from represented pointers on, the pointers represent the abstract machine |
| PointerMachine.RunFromStart | asm/seff.S:90-258 | a thread with no coroutines is represented, so every state reachable from it is, and no operation meets an unknown coroutine |
| PointerMachine.AncestorsAreTheStack | asm/seff.S:109-165 | following parent_coroutine from the running coroutine visits the active stack from the top down and then ends: the links have no cycle |
| Coroutines.Runtime.NewCoroutine | src/seff.c:93-129 | a new coroutine is paused alone, in the start context that `Coroutines.FirstResumeCallsFn` is about |
| Coroutines.FirstResumeCallsFn | src/seff.c:93-129 | the first resume of a new coroutine calls fn with arg on a 16-byte aligned stack pointer, more than frame_size bytes above a stack limit just past the header of its own segment, with the coroutine's address in r13 |
| Coroutines.FunctionHasRoomExactlyWhen | src/seff.c:96-129 | the function finds frame_size bytes below its return address if and only if frame_size is at most 8 above a multiple of 16 |
| Coroutines.Runtime.EnterPrelude | asm/seff.S:192-213 | up to its call the prelude passes r14 as the argument, pushes its return address and enters the function in r15 |
| Coroutines.Runtime.LeavePrelude | asm/seff.S:213-257 | when the function returns, the coroutine in r13 exits: it is finished and its resumer continues with the return effect and the function's result |
| Coroutines.Runtime.Resume | asm/seff.S:135-186 | the register, stack-limit and pointer moves of seff_resume are one resume of the pointer machine, and the argument arrives in rax |
| Coroutines.Runtime.Yield | asm/seff.S:90-132 | likewise for seff_yield, with effect and payload arriving in rax and rdx |
| Coroutines.Runtime.Exit | asm/seff.S:224-258 | likewise for seff_exit |
| Coroutines.Runtime.LocateHandler | src/seff.c:131-141 | the walk ends at the innermost active coroutine that handles the effect, or finds none if there is none; `return` is handled by the running coroutine |
| Coroutines.Runtime.Perform | src/seff.h:65-75 | performing captures exactly the coroutines from the innermost handler to the performer and hands effect and payload to its resumer; without a handler nothing is switched |
| Coroutines.Runtime.Throw | src/seff.c:154-167 | throwing exits the innermost handler of the effect (for `return`, the running coroutine), and switches nothing when there is none |
| SegmentSpec.AllocateSizes | src/mem/seff_mem_segmented.c:79-95 | a call changes no size exactly if the next spare segment has room; otherwise one segment appears there, at least as large as needed and as min_segment_size, and equal to one of them |
| SegmentSpec.ExecuteIsLocal | src/mem/seff_mem_segmented.c:74-121 | balanced calls bring the cursor back and change only the segments beyond it |
| SegmentSpec.ReplayStopsAllocating | src/mem/seff_mem_segmented.c:74-121 | replaying one call tree of height h from the same cursor allocates nothing after at most h replays |
| SegmentSpec.SecondReplayAllocates | src/mem/seff_mem_segmented.c:88-92 | a tree of height 2 whose second replay does allocate, because a large segment was pushed behind a small one |
| SegmentedStack.CoroutineStack.Insert | src/mem/seff_mem_segmented.c:88-92 | linking a segment in behind the cursor keeps the list doubly linked and acyclic |
| SegmentedStack.CoroutineStack.AllocateFrame | src/mem/seff_mem_segmented.c:74-114 | a segment is created if and only if no spare one with room comes next, with the larger of the size needed and min_segment_size; the returned stack pointer is aligned and at most 15 bytes below the end of the frame |
| SegmentedStack.CoroutineStack.AlignDown | src/mem/seff_mem_segmented.c:107-109 | the loop stops at the next lower multiple of 16 |
| SegmentedStack.CoroutineStack.MoreStack | src/mem/seff_mem_segmented.S:109-121 | the new frame holds the bytes asked for, the copied parameters end inside the segment, and the stack limit stays above the canary |
| SegmentedStack.CoroutineStack.ReleaseFrame | src/mem/seff_mem_segmented.c:116-121 | moves the cursor back one segment and the stack limit with it |
| SegmentedStack.CoroutineStack.RunCalls | src/mem/seff_mem_segmented.c:74-121 | any balanced tree of calls and returns over the linked list has exactly the effect the size specification gives it |
| SegmentedStack.CoroutineStack.RunRepeatedly | src/mem/seff_mem_segmented.c:74-121 | once such a tree has been run as often as it is high, running it again leaves the segment list as it is |
| SegmentedStack.CoroutineStack.ReleaseAll | src/seff.c:58-72 | from any cursor position every segment is freed exactly once, and links are read only of segments that are not yet freed |
| AutoDiff.TangentsAreDerivatives | bench/ad_bench/no_alloc.c:53-71 | the forward-mode tangents are derivatives: values at x + h equal values at x plus h times tangents plus h squared times a polynomial |
| AutoDiff.SpreadKeepsDot | bench/ad_bench/no_alloc.c:99-135 | spreading an adjoint over the arguments of an operation, equal arguments included, keeps the sum of adjoints weighted by tangents |
| AutoDiff.SweepInvariant | bench/ad_bench/no_alloc.c:73-138 | at every depth of the recursion that sum is the derivative of the result |
| AutoDiff.ReverseIsForward | bench/ad_bench/no_alloc.c:73-138 | the unwound recursion leaves the forward-mode derivative in the adjoint of x |
| AutoDiff.Handle | bench/ad_bench/no_alloc.c:73-138 | the recursive handler over adjoint cells leaves exactly those adjoints in them |
| AutoDiff.Reverse | bench/ad_bench/no_alloc.c:140-150 | for every straight-line program the printed number is the derivative at x |
| AutoDiff.PolynomialsDifferentiate | bench/ad_bench/no_alloc.c:53-150 | a program that computes a polynomial, of whatever coefficients, has its value, and its formal derivative's value as derivative |
| AutoDiff.ExampleAfter | bench/ad_bench/no_alloc.c:53-71 | values and tangents of the benchmark's program after any number of iterations |
| AutoDiff.Benchmark | bench/ad_bench/no_alloc.c:53-150 | its derivative is minus the sum of i (1 - x)^(i - 1) for i from 1 to iters |
| Scheduler.RunKeeps | scheduler/scheff.c:108-277 | the scheduler's invariant holds along every run of any number of workers |
| Scheduler.OnePlaceEach | scheduler/scheff.c:124-277 | each live task is in exactly one place (a queue or priority slot, a worker's hands, a registered waker), a freed one in none |
| Scheduler.CounterCovers | scheduler/scheff.c:116-219 | remaining_tasks is never below the number of live tasks |
| Scheduler.ResumesAreSafe | scheduler/scheff.c:189-209 | a resumed task is live, held by nobody else and not asleep, and the fatal error about finished coroutines is never reported |
| Scheduler.ExitAbandonsNothing | scheduler/scheff.c:190-193 | once a worker has left on reading 0 there is no task anywhere, and there never will be one again |
| TaskLives.ActsAreLegal | scheduler/scheff.c:108-277 | along every run the existing tasks are those that the observed acts say exist, the registered wakers those of the sleeping ones, and each act is legal for the life of its task |
| TaskLives.TasksLeaveWhenDone | scheduler/scheff.c:211-274 | a task ceases to exist only if its coroutine has returned or its last request was a wake with resume false |
| TaskLives.TasksStay | scheduler/scheff.c:216-272 | a task that forked, polls, sleeps or woke others with resume true exists and is in exactly one place until it is resumed, and is asleep only after sleep |
| TaskLives.ResumedWhenDue | scheduler/scheff.c:201-272 | it is resumed with its poll condition checked exactly if it polls, after its fork was made, and after sleep only if must_sleep declined or somebody woke it |
| FetchOrder.LooksEverywhere | scheduler/scheff.c:124-193 | before a worker reads remaining_tasks it has found nothing in its own queue first and then once in each other queue, since it last had a task |
| FetchOrder.OwnQueueAnswers | scheduler/scheff.c:124-128 | if a worker prefers a task, its own queue answers with that task |
| FetchOrder.RunsNext | scheduler/scheff.c:216-274 | a forked task, or the last of several woken ones, is the next task its worker gets from any queue |
| FetchOrder.ScheduledInOrder | scheduler/scheff.c:108-122 | until scheff_run the scheduled tasks wait in order in the first worker's queue |
| Promise.AwaitReturnsTheValue | bench/skynet_bench/libseff_scheff_sleep.c:53-59 | await_promise returns only the fulfilled value |
| Promise.WokenExactlyOnce | bench/skynet_bench/libseff_scheff_sleep.c:23-45 | a stored waker is woken exactly once and nothing else is woken |
| Promise.NeverAsleepAfterFulfilment | bench/skynet_bench/libseff_scheff_sleep.c:23-45 | a waker is stored only in an unfulfilled promise, and nobody sleeps once fulfil is over |
| Promise.FulfillerLetsGo | bench/skynet_bench/libseff_scheff_sleep.c:23-33 | the fulfiller does not touch the promise once the awaiter can proceed |
| Promise.NeverStuck | bench/skynet_bench/libseff_scheff_sleep.c:23-59 | until the awaiter is done some step changes the state |
| Promise.RunRefinesBlocks | bench/skynet_bench/libseff_scheff_sleep.c:23-59 | every interleaving of the single accesses looks like one of indivisible locked blocks |
| Skynet.RunKeeps | bench/skynet_bench/libseff_scheff_sleep.c:69-92 | node numbering, partial sums and sleeping parents are consistent along every interleaving |
| Skynet.TotalOfSubtree | bench/skynet_bench/libseff_scheff_sleep.c:69-98 | the leaves under a node are consecutive ids, so its sum is an arithmetic series |
| Skynet.ComputeLastLayer | bench/skynet_bench/libseff_scheff_sleep.c:96-99 | the loop yields 10^(depth-1), and 1 for a depth below 1 |
| Skynet.SkynetResult | bench/skynet_bench/libseff_scheff_sleep.c:69-118 | whatever the schedule, the root's promise holds N(N-1)/2 with N = 10^(depth-1) from the moment it is fulfilled, which is when the root task has finished |
| Skynet.NeverStuck | bench/skynet_bench/libseff_scheff_sleep.c:69-92 | while some task is unfinished some task can step |
| Skynet.SkynetTerminates | bench/skynet_bench/libseff_scheff_sleep.c:69-118 | every interleaving ends after a bounded number of steps, with all tasks finished and the root's promise holding N(N-1)/2 |
| Skynet.UsesPromises | bench/skynet_bench/libseff_scheff_sleep.c:69-92 | to each promise of the tree every step of every node is nothing or one of the blocks that the single accesses refine |
| SeffLookup.Search.Resume | bench/prefetching_lookups_bench/libseff.c:5-31 | one resume of the searching coroutine makes progress or answers whether the key occurs |
| SeffLookup.CoroQueue.Enqueue | bench/prefetching_lookups_bench/libseff_infra.h:42-50 | appends at the back, or refuses when 256 are queued |
| SeffLookup.CoroQueue.Dequeue | bench/prefetching_lookups_bench/libseff_infra.h:52-60 | takes from the front, or yields NULL when empty |
| SeffLookup.StartSearch | bench/prefetching_lookups_bench/libseff.c:52-58 | a lookup's coroutine joins the queue, or is lost if the queue is full |
| SeffLookup.ResumeFront | bench/prefetching_lookups_bench/libseff.c:61-66 | one turn of the round-robin rotates the queue or retires the front search and counts it; on an empty queue it resumes NULL |
| SeffLookup.SeffMultiLookup | bench/prefetching_lookups_bench/libseff.c:33-102 | terminates; it resumes NULL if and only if there is something to look up and streams is not positive or both streams and lookups exceed 256, and otherwise returns the number of lookups occurring in v, found and not found adding up |
| SmLookup.Frame.Run | bench/prefetching_lookups_bench/external/sm.cpp:65-89 | one step of the state machine makes progress or settles whether the key occurs |
| SmLookup.SmBinarySearch | bench/prefetching_lookups_bench/external/sm.cpp:91-97 | returns whether the key occurs |
| SmLookup.SmMultiLookup | bench/prefetching_lookups_bench/external/sm.cpp:100-142 | terminates and returns the same number |
| Mailbox.SizesStayInBounds | utils/actors.c:41-82 | with any number of producers 0 <= ready_size <= reserved_size <= capacity in every run |
| Mailbox.ReceivedInTicketOrder | utils/actors.c:53-82 | with any number of producers messages are received in the order of their write tickets, and a read yields NULL if and only if the producer with that ticket has still to write |
| Mailbox.InsertFailsOnlyIf | utils/actors.c:44-51 | with any number of producers an insert is refused only if reserved_size had reached the capacity, or is no longer what the insert had seen below it |
| Mailbox.RemoveFailsOnlyIf | utils/actors.c:65-72 | and a remove answers NULL only if nothing was ready, or ready_size is no longer the positive number it had seen |
| Mailbox.RunRefines | utils/actors.c:41-82 | with one producer the mailbox is step by step a FIFO bounded by its capacity: an insert is refused only with capacity many messages stored or in hand or after a loss to a returned one, a remove answers NULL only with nothing stored or after a loss to an inserted one, and assert(result) never fails |
| Mailbox.TwoProducersCanFail | utils/actors.c:53-80 | a concrete run with two producers in which assert(result) fails |
| Broker.NobodyMeetsItself | bench/chameneos_bench/chameneos_actor.c:51-119 | no creature meets itself, and the assertions on finish hold |
| Broker.PartnersMatch | bench/chameneos_bench/chameneos_actor.c:44-58 | a creature is told of exactly the mate it was paired with, and becomes the complement of the two colours the pair had when it was arranged, so partners end up alike |
| Broker.PairsAreOfTheGame | bench/chameneos_bench/chameneos_actor.c:24-118 | every pair is arranged with the colours its creatures have by then in the game played meeting by meeting, without messages, from the first colours on |
| Broker.FinalColours | bench/chameneos_bench/chameneos_actor.c:24-143 | when the broker ends as many pairs have met as were asked for, and every creature has the colour that game leaves it |
| Broker.ComplementIsXor | bench/chameneos_bench/chameneos_common.h:16-22 | the bit formula on the enumerators yields the third colour |
| Broker.TotalIsTwiceTheMeetings | bench/chameneos_bench/chameneos_actor.c:121-138 | when the broker ends all creatures have ended and the total is twice the number of meetings |
| Broker.NeverStuck | bench/chameneos_bench/chameneos_actor.c:24-143 | with at least two creatures some step is possible until the broker has ended |
| Broker.BrokerEnds | bench/chameneos_bench/chameneos_actor.c:24-143 | every run ends after a bounded number of steps, and with at least two creatures only with all of them gone and the total twice the number of meetings |
| Broker.NeedsTwoCreatures | bench/chameneos_bench/chameneos_actor.c:103-119 | with fewer, and meetings to arrange, no pair is ever found |
| Cooperation.ColoursAreExchanged | bench/chameneos_bench/c_solution/cooperation.c:16-41 | every completed call belongs to exactly one pair, and partners return each other's colour |
| Cooperation.SharedVariablesAreExclusive | bench/chameneos_bench/c_solution/cooperation.c:19-38 | one thread at a time uses the shared variables, although another one may release the mutex |
| Cooperation.SemaphoreBounds | bench/chameneos_bench/c_solution/cooperation.c:19-47 | AtMostTwo never exceeds 2, and Mutex and SemPriv together never exceed 1 |
| Cooperation.StuckOnlyAlone | bench/chameneos_bench/c_solution/cooperation.c:16-41 | with two calls in progress some call can go on |

## Left out

- Weak memory: every atomic access is sequentially consistent; fences and relaxed, acquire and release orders are not modelled.
- In-place form of the concurrent code: queues, scheduler, promise, mailbox, broker and rendezvous are transition systems on values, where an assignment to a shared variable is a step from one state to the next; aliasing between objects is expressed by array indices and ids.
- The copying loop inside a concurrent resize is one step, because only the owner sees the new array before it is installed; the loop itself is `CircularArrays.CircularArray.Resize`.
- 64-bit overflow of queue counters, tickets, sizes and sums, and `1 << log_size` beyond the range of int.
- TkQueue.RunConserves: does not cover a resize between a thread's array load and its compare-and-swap, because conservation fails there (`TkQueue.StaleStealDuplicates`).
- Mailbox.RunRefines: does not cover several producers, because the assertion can then fail (`Mailbox.TwoProducersCanFail`).
- SmLookup.SmMultiLookup: needs a non-empty table, because the source takes the address of its first element.
- TaskLives.ActsAreLegal: clients wake each registered waker once; what tasks ask for is otherwise arbitrary. Debug counters and debug ids are not modelled.
- Lock fairness, spin-loop liveness and scheduler loops waiting for tasks nobody wakes; termination is proved for `Skynet` and `Broker` (counting their own steps), the lookups, and the loops of the sequential code.
- Skynet: the memory of the promises inside the parent's stack frame; `Promise.FulfillerLetsGo` states why it may go.
- Floating-point rounding: `AutoDiff` works over reals. `evaluate` and its effects are collapsed to the arithmetic they answer with.
- bench/ad_bench/indirect_prop_t.c, naive.c, ptr_dbl_cast.c and tests/ad.c: the same gradient algorithm with other storage.
- Coroutines: the zeroing of saved registers in debug builds, the default handler table, registers a called function may overwrite other than those that pass arguments and results, and re-initialising a finished coroutine's memory.
- SegmentedStack: what `__morestack` saves and restores around the call, the content of the copied parameters, and malloc failure.
- Broker: the printing; mailbox operations are atomic there, as the file runs one worker thread.
- bench/skynet_bench/libseff_async.c and libseff_async_tk.c: the waiter is published while the lock inside its own stack-allocated future is held, so the lifetime claims do not carry over.
- Sockets, HTTP, thread start-up, DWARF annotations, code generation, environment reading and the benchmarks of other libraries: no hard property.
