# Kboard: the synchronisation and the ring buffer, in Dafny

The repository holds two kernel clipboards around one bounded ring of integers.

* `lab2/KboardModule.c` guards the ring with one of three readers-writers protocols built from
  semaphores (`SYNC_SOLUTION`). Writers enqueue and dequeue, readers look at a random slot.
* `lab1/kernel/os_kboard.c` guards the ring with a spinlock; `lab1/user/copy_sync_test.c` and
  `lab1/user/paste_sync_test.c` run against it to see whether numbers arrive in order.

The project models both as step machines and proves what holds in every run: any number of threads,
any capacity of at least 1, any interleaving. A `down`, an `up`, a test, a load and a store are steps
of their own, so `count++` is two steps. The right-hand side of an assignment is evaluated in one
step. `down` is possible when the semaphore is positive, and nothing is assumed about who wakes
first. A run is a sequence of choices of the scheduler; `CanRun` says that each choice is possible
and `Run` is the state it leads to, so a statement about all runs is a statement about all reachable
states.

## How the parts fit

| file | content |
|---|---|
| `Counting.dfy` | how many threads stand at given program points, and how one step changes that |
| `Zones.dfy` | outside, entering, inside, leaving; exclusion and overlap; threads cast in a role |
| `Switch.dfy` | the "first one takes it, last one returns it" pattern, which Solution 1 uses once and Solution 2 twice |
| `Solution1.dfy`, `Solution2.dfy`, `Solution3.dfy` | the three protocols and their invariants |
| `Solution3Runs.dfy`, `Solution3Trails.dfy` | runs of Solution 3, its wake-up loop in any interleaving, and runs put together from pieces |
| `Solution3Exclusion.dfy`, `Solution3Threads.dfy` | exactly when Solution 3 excludes, and the runs in which it does not |
| `Ring.dfy`, `Fifo.dfy` | the ring as a queue; the atomic bounded queue that specifies the operations, and the same said of a log by counting what it accepted and delivered |
| `Kboard.dfy`, `Linearization.dfy` | the critical sections step by step, and that they refine the atomic queue |
| `PerformCounts.dfy` | the increments of PerformWriter and PerformReader, each a load and a store |
| `Service.dfy`, `ServiceRuns.dfy` | protocol and board together, and the theorems about every run |
| `ServiceCalls.dfy` | what a thread can do: call, step, and be served with the one right answer |
| `ServiceCounts.dfy` | exactly when the two counts are right, over whole runs |
| `SectionRuns.dfy` | one thread working through its critical section while the others stand still |
| `Solution3Module.dfy` | the module under Solution 3: exact conditions for exclusion and for semaphores left as they began |
| `QuietRuns.dfy`, `WritersMeet.dfy` | runs of the module in which no writer finishes, and the run in which two writers meet |
| `Solution3Answers.dfy` | the module under Solution 3: exact conditions for answers of an atomic queue, for PerformWriter, and for storing into the ring |
| `Protocols.dfy` | the three protocols as classes whose methods update the module's variables in place |
| `Device.dfy` | the board as a class, for one thread at a time |
| `Clipboard.dfy`, `CopyPaste.dfy`, `CopyPasteLoops.dfy` | lab1: the system calls as a class, the two test programs interleaved step by step, and their loops taking turns |

In Solutions 1 and 2 a thread that finds itself in the middle of a switch may have changed the
counter while the semaphore has not followed yet; `Switch.Held` says who owns the semaphore then.

The methods `Go` of the classes in `Protocols.dfy`, with the methods they call for each section, take
one step of one thread in place, and are proved equal to the step functions the theorems are about.

### What Solution 3 does not do

A writer that leaves issues one token for each waiting reader (line 358). If one of these readers
enters and leaves again before another has used its token, and a writer waits, line 395 wakes that
writer too. A run is called safe when line 395 is never executed while a reader token is outstanding.

* Safe runs exclude, answer as the atomic queue does, and leave every semaphore as it began.
* From the first unsafe wake of any run the threads already there can go on, with no new calls, until
  a writer and a reader are inside together (`Solution3Module.UnsafeRunOverlaps`).
* A token can be left behind in SemaphoreReader when everybody has left (`TokenLeftBehind`), and any
  number of them (`TokensPileUp`).
* Two writers can be inside together (`WritersMeet.BothComeToDequeue`). A number accepted once is then
  delivered twice, and RingBufferCount is -1 when everybody has left (`Solution3Answers.DeliveredTwice`).
* With RingBufferCount at -1 and the index at 0, line 480 lets an enqueue pass and line 487 computes -1 % n,
  which is -1 in C unless n is 1: it stores in front of the ring (`Solution3Answers.StoreStrays`).

By the number of threads: the module excludes, resets, answers as the atomic queue and keeps PerformWriter
exact in every run if and only if it has at most two threads, and so it is for storing into the ring, unless
the ring has one slot only. When each thread only reads or only writes:

* it excludes and resets in every run if and only if at most one of them reads or none of them writes;
* two writers are never inside together, the answers are those of the atomic queue and PerformWriter is
  exact, in every run, if and only if at most one of them reads or at most one of them writes; and so it is
  for storing into the ring, unless the ring has one slot only.

With one writer, then, readers can be inside with it and still everything is answered as by the atomic
queue: a request takes effect when it finds the ring empty or full, or at its one store into the ring (lines
428 and 487), and the ring shows the queue at every step. A run with at most one reader at a time, whoever
it is, has none of these troubles. Freedom from deadlock holds in every run, safe or not.

### What PerformReader does not count

`PerformReader` is incremented by readers that are inside together, so increments can be lost. Under
each of the three protocols, and in every run, it never exceeds the increments made, and it equals them
if and only if no reader has stored a value that was no longer current. No caller can be sure of that
unless there is at most one thread, or at most one that reads (`ServiceCounts`).

In lab1 the counters of the test programs are 32 bits wide. The model lets `++` wrap there; the C
language leaves that overflow undefined. Up to `INT_MAX` the two agree.

## Model

| member | source | states |
|---|---|---|
| Switch.StepKeeps | lab2/KboardModule.c:299-305 | each step of the counted entry and exit keeps the counter equal to the members at its points and the mutex owned at most once, and whatever leaves or enters the room semaphore is gained or lost by the group as a whole |
| Switch.HolderMoves | lab2/KboardModule.c:301-304 | a taken mutex has a holder that can step, unless it waits for the room, and then the group does not own the room |
| Switch.GrantedImpliesHeld | lab2/KboardModule.c:299-305 | a member inside implies that its group owns the room |
| Switch.HeldHasMember | lab2/KboardModule.c:373-379 | a room the group owns has a member that is granted it or is about to return it, not necessarily the one that took it |
| Solution1.GoKeeps | lab2/KboardModule.c:267-305 | every step of Solution 1 keeps the single unit of SemaphoreWriter free, with one writer, or with the readers |
| Solution1.Exclusion | lab2/KboardModule.c:298-305 | in such a state no writer is inside with another writer or a reader |
| Solution1.Progress | lab2/KboardModule.c:298-305 | some thread in the module can step, also when a reader is blocked at 303 with SemaphoreMutex in its hands |
| Solution1.ReadersShare | lab2/KboardModule.c:299-305 | a reader on its way in with only readers inside is never blocked |
| Solution1.BlockedByOwner | lab2/KboardModule.c:267-303 | whoever is blocked is blocked by another thread that holds what it waits for: a writer by a writer or by a reader for whom the readers own SemaphoreWriter, the reader at 303 by a writer, and a mutex by the reader between its down and its up |
| Solution2.GoKeeps | lab2/KboardModule.c:270-316 | every step of Solution 2 keeps both ownership equations and both switch invariants |
| Solution2.Exclusion | lab2/KboardModule.c:310-316 | never two writers inside, never a writer with a reader |
| Solution2.GateMoves | lab2/KboardModule.c:341-347 | SemaphoreReader passes to the writers exactly at line 274 and back exactly at line 345 |
| Solution2.GateOwnership | lab2/KboardModule.c:270-276 | WriterCount is the number of writers between 271 and 342, and with SemaphoreWriterMutex free the writers own the gate iff it is positive |
| Solution2.ClosedGateStep | lab2/KboardModule.c:308-316 | with the gate closed no step adds a reader past it, and one leaves that set exactly by getting inside |
| Solution2.Progress | lab2/KboardModule.c:270-277 | some thread in the module can step, whoever is blocked at 274 or 314 |
| Solution2.ReadersShare | lab2/KboardModule.c:308-316 | a reader on its way in with only readers inside is never blocked, at the gate or after it |
| Solution2.BlockedByOwner | lab2/KboardModule.c:270-316 | the same of each of its downs, line 274 being blocked by a reader at 309 and line 308 by such a reader or by a writer for whom the writers own the gate |
| Solution3.ExactStep | lab2/KboardModule.c:281-290 | every step keeps each of the four counters equal to the number of threads at its program points |
| Solution3.GoKeeps | lab2/KboardModule.c:280-329 | every step keeps that nobody who waits is forgotten: the tokens outstanding cover the waiters, with its form in the middle of each mutex section |
| Solution3.LoopIssuesAll | lab2/KboardModule.c:356-359 | step by step: while a writer is in the wake-up loop nobody else changes the waiting readers or their tokens, each round adds one token, and the loop ends exactly at ReaderWaitingCount, the number of waiting readers |
| Solution3Runs.LoopTotal | lab2/KboardModule.c:356-359 | in every run, with any threads moving in between, one activation of the wake-up loop issues exactly as many tokens as readers wait, their number being the same at its end as at its beginning |
| Solution3Runs.LetsIn | lab2/KboardModule.c:354-396 | from the test of a leaving thread to its up(SemaphoreMutex), in every run with any threads moving in between: a writer issues a token to every waiting reader, or if none waits to one waiting writer; a reader that is the last one issues one to a waiting writer; and nobody else is let in |
| Solution3.Progress | lab2/KboardModule.c:280-291 | some thread in the module can step, whether or not exclusion holds |
| Solution3.ReadersShare | lab2/KboardModule.c:319-329 | a reader on its way in with only readers inside is never blocked, and one that sleeps finds a token |
| Solution3.BlockedByOther | lab2/KboardModule.c:280-325 | whoever is blocked waits for the holder of the mutex, or sleeps for a reason: a reader because a writer is counted or waits or another woken reader is on its way in, a writer because somebody is counted, another writer is woken, or a reader has a token to use |
| Solution3.OvertakersStep | lab2/KboardModule.c:320-324 | as long as a writer waits and nobody executes line 358, no step adds a reader to those that are at 328-329 or have a token, and one leaves them exactly by getting inside |
| Solution3Runs.BoundedBypass | lab2/KboardModule.c:318-330 | from any state, over every run of the protocol in which a writer waits throughout and line 358 is not executed, reader entries plus such readers at the end equal such readers at the start |
| Solution3.GoDescends | lab2/KboardModule.c:350-366 | each step uses up one of the steps its thread has left, the wake-up loop being bounded by the waiting readers |
| Solution3Exclusion.SafeStepKeeps | lab2/KboardModule.c:350-397 | every step other than an unsafe wake keeps the exclusion invariant |
| Solution3Exclusion.WakeKeepsExactlyWhenSafe | lab2/KboardModule.c:393-396 | line 395 keeps the exclusion invariant if and only if no reader token is outstanding |
| Solution3Exclusion.Exclusion | lab2/KboardModule.c:281-291 | the invariant gives at most one writer inside and never a writer with a reader |
| Solution3Exclusion.SafeRunExcludes | lab2/KboardModule.c:391-397 | every safe run of the protocol excludes |
| Solution3Exclusion.UnsafeWakeOverlaps | lab2/KboardModule.c:391-397 | from the very step of an unsafe wake, the threads already there can go on without new arrivals until a writer and a reader are inside together |
| Solution3Exclusion.UnsafeRunOverlaps | lab2/KboardModule.c:391-397 | a run of the protocol that is not safe, cut after its first unsafe wake, extends without new arrivals to a run with a writer and a reader inside together |
| Solution3Exclusion.ExclusionExactlyWhenSafe | lab2/KboardModule.c:279-397 | from any state of the invariant, all runs of the protocol exclude if and only if all are safe |
| Solution3Exclusion.UnsafeWakeNeedsThree | lab2/KboardModule.c:393-396 | an unsafe wake takes three threads: the reader that leaves, another reader that waits, and a writer that waits |
| Solution3Threads.OneReaderRunIsSafe | lab2/KboardModule.c:318-330 | a run with never more than one thread on the reader's side is safe |
| Solution3Threads.TwoThreadRunIsSafe | lab2/KboardModule.c:279-397 | a run of at most two threads is safe |
| Solution3Threads.HarmlessRunIsSafe | lab2/KboardModule.c:279-397 | a run of threads that keep to one role each is safe if at most one of them reads or none writes |
| Solution3Trails.LoopFinishes | lab2/KboardModule.c:356-365 | the wake-up loop run to its end by its thread alone adds one token for each index left and changes nothing else but the mutex |
| Solution3Threads.ThreeThreadsReachUnsafeWake | lab2/KboardModule.c:352-396 | from any state at rest a writer and two readers can reach an unsafe wake, the reader's token and the waiting writer being where the statement says |
| Solution3Threads.ThreeThreadsOverlap | lab2/KboardModule.c:279-397 | they can go on until the writer and a reader are inside together |
| Solution3Threads.TokenLeftBehind | lab2/KboardModule.c:350-397 | they can all leave and SemaphoreReader has one unit more than before, all else being as it was |
| Solution3Threads.TokensPileUp | lab2/KboardModule.c:350-397 | from the initial state three threads can leave any number of units in SemaphoreReader |
| Solution3Threads.TwoWritersEnter | lab2/KboardModule.c:279-397 | and if another writer comes, or the first reader comes back as one, two writers can be inside together |
| Solution3Module.ProtocolRun | lab2/KboardModule.c:409-525 | every run of the module under Solution 3 is a run of the protocol, with the same callers in the same roles |
| Solution3Module.ProtocolRunSafe | lab2/KboardModule.c:391-397 | and one is safe if and only if the other is |
| Solution3Module.ModuleRun | lab2/KboardModule.c:409-525 | every run of the protocol is what some run of the module does, with the same callers |
| Solution3Module.UnsafeRunOverlaps | lab2/KboardModule.c:391-397 | a run of the module that is not safe, cut after its first unsafe wake, extends without new calls to a run with a writer and a reader in their critical sections together |
| Solution3Module.ExclusionExactlyWhenSafe | lab2/KboardModule.c:279-397 | the module under Solution 3 excludes in every run if and only if every run is safe |
| Solution3Module.ExclusionIffTwoThreads | lab2/KboardModule.c:279-397 | the module under Solution 3 excludes in every run if and only if it has at most two threads |
| Solution3Module.ResetIffTwoThreads | lab2/KboardModule.c:234-261 | every semaphore is back at its initial value whenever a run has let everybody out, in every run, if and only if it has at most two threads |
| Solution3Module.EveryRunCanOverlap | lab2/KboardModule.c:279-397 | with three threads or more, every run, safe or not, extends to one with a writer and a reader inside together |
| Solution3Module.ExclusionIffHarmless | lab2/KboardModule.c:279-397 | when each thread only reads or only writes, exclusion holds in every run if and only if at most one of them reads or none of them writes |
| Solution3Module.ResetIffHarmless | lab2/KboardModule.c:234-261 | and so it is for the semaphores being back at their initial values |
| Solution3Answers.DeliveredTwice | lab2/KboardModule.c:415-430 | a writer, two readers and a second writer, who may be the first reader come back, have a run for any capacity that accepts one number, delivers it twice and lets everybody out with RingBufferCount at -1; no order of its answers is a history of the atomic queue |
| Solution3Answers.WritersAreTogether | lab2/KboardModule.c:279-397 | the same threads have a run with two writers in their critical sections together |
| Solution3Answers.WriterIncrementLost | lab2/KboardModule.c:417-417 | and one in which an increment of PerformWriter is lost |
| Solution3Answers.StoreStrays | lab2/KboardModule.c:480-487 | and, for any capacity of at least 2, one in which line 487 has computed the address -1 |
| Fifo.NoOrderDeliversMore | lab2/KboardModule.c:427-427 | answers that are a history of the atomic queue in some order deliver no more items than they accept |
| Solution3Answers.ApartIffTwoThreads | lab2/KboardModule.c:279-397 | under Solution 3 two writers are never inside together, in any run, if and only if the module has at most two threads |
| Solution3Answers.AtomicIffTwoThreads | lab2/KboardModule.c:409-525 | the answers under Solution 3 are those of the atomic queue in every run, in the order in which the requests took effect and in any order at all, if and only if the module has at most two threads |
| Solution3Answers.ApartIffOneOfEither | lab2/KboardModule.c:279-397 | when each thread only reads or only writes, two writers are never inside together, in any run, if and only if at most one of them reads or at most one of them writes |
| Solution3Answers.AtomicIffOneOfEither | lab2/KboardModule.c:409-525 | and under the same condition the answers are those of the atomic queue in every run, in the order in which the requests took effect and in any order at all |
| Solution3Answers.WriterCountExactIffTwoThreads | lab2/KboardModule.c:417-417 | PerformWriter is exact in every run under Solution 3 if and only if the module has at most two threads |
| Solution3Answers.WriterCountExactIffOneOfEither | lab2/KboardModule.c:417-417 | when each thread only reads or only writes, if and only if at most one of them reads or at most one of them writes |
| Solution3Answers.AddressInRangeIffTwoThreads | lab2/KboardModule.c:480-487 | the address computed at line 487, with the remainder of C, is one of the ring in every run if and only if Solution 1 or 2 is selected, or the module has at most two threads, or the ring has one slot |
| Solution3Answers.AddressInRangeIffOneOfEither | lab2/KboardModule.c:480-487 | when each thread only reads or only writes, if and only if Solution 1 or 2 is selected, or at most one of them reads, or at most one of them writes, or the ring has one slot |
| Solution3Module.OneReaderExcludes | lab2/KboardModule.c:318-330 | with at most one reader at a time, Solution 3 excludes, its answers are those of the atomic queue, and every semaphore is back at its initial value when everybody has left |
| ServiceRuns.RunKeeps | lab2/KboardModule.c:264-525 | in every run protocol and request of each thread agree, RingBufferCurrentIndex is an index of the ring and the protocol's invariant holds |
| ServiceRuns.AddressInRange | lab2/KboardModule.c:487-487 | the address computed at line 487 is one of the ring in every run of Solutions 1 and 2, in every run of Solution 3 in which two writers are never inside together, and in every run if the ring has one slot |
| ServiceRuns.RunRecorded | lab2/KboardModule.c:409-525 | in every run of each solution, exclusive or not, the answers of each thread in the log are those it has returned with, followed by the one that is fixed for it |
| ServiceRuns.Ownership | lab2/KboardModule.c:234-261 | at every micro-step of every run: each semaphore unit of Solutions 1 and 2, those of the mutexes included, is free or has exactly one owner, and so has the mutex of Solution 3; every counter of all three is the number of threads at its program points |
| ServiceRuns.MutualExclusion | lab2/KboardModule.c:264-399 | every run of Solutions 1 and 2, and every safe run of Solution 3, excludes |
| ServiceRuns.SafeRunHasSoleWriter | lab2/KboardModule.c:264-399 | in a safe run two writers are never inside together |
| ServiceRuns.Linearizable | lab2/KboardModule.c:409-525 | in every run of Solutions 1 and 2, and in every run of Solution 3 in which two writers are never inside together, the answers, in the order in which the requests took effect, form a history of the atomic bounded queue, each answer is the one that the items accepted and delivered before it determine, each thread gets its own answers in its own order, and deliveries are a prefix of accepted items |
| ServiceRuns.LogGrowsWithinCall | lab2/KboardModule.c:409-525 | at each step at most one request takes effect, that of the thread that steps, between its call and its return |
| ServiceCounts.Conservation | lab2/KboardModule.c:417-430 | in every run neither PerformWriter nor PerformReader exceeds the sections of its role past their increment; as long as two writers are never inside together PerformWriter equals them, and with no writer inside RingBufferCount is accepted enqueues less accepted dequeues |
| ServiceCounts.ExactWithoutStaleStores | lab2/KboardModule.c:515-515 | in every run, of each solution, exclusive or not, PerformReader (and so PerformWriter) equals the sections past their increment if and only if no thread stored a value that was no longer current |
| ServiceCounts.SoleRunIsCurrent | lab2/KboardModule.c:417-417 | a thread that is never inside with another of its role never stores such a value |
| ServiceCounts.TwoReadersLoseAnIncrement | lab2/KboardModule.c:513-515 | under each solution, any two threads have a run from the initial state in which PerformReader ends at 1 and is not exact |
| ServiceCounts.ReaderCountExactIffOneThread | lab2/KboardModule.c:515-515 | under each solution PerformReader is exact in every run if and only if the module has at most one thread |
| ServiceCounts.ReaderCountExactIffOneReader | lab2/KboardModule.c:515-515 | when each thread only reads or only writes, if and only if at most one of them reads |
| ServiceRuns.NoDeadlock | lab2/KboardModule.c:264-399 | in every run of each solution, some thread in the module can step as long as there is one |
| ServiceRuns.Draining | lab2/KboardModule.c:264-399 | a run without new calls is no longer than the steps its threads had left |
| ServiceRuns.CanFinish | lab2/KboardModule.c:264-399 | every run can be continued by choices none of which is a call until everybody is outside |
| ServiceRuns.StuckExactlyWhenOutside | lab2/KboardModule.c:264-399 | nothing can happen without a new call if and only if everybody is outside |
| ServiceRuns.DrainedIsReset | lab2/KboardModule.c:234-261 | a run that cannot go on without a new call has everybody outside, all counters and mutexes initial, and all other semaphores initial too in Solutions 1 and 2 and in safe runs of Solution 3 (ResetIffTwoThreads and ResetIffHarmless say when all runs are such) |
| ServiceRuns.BoundedBypass | lab2/KboardModule.c:308-316 | while the writers own the gate the readers past it only become fewer, and reader entries plus readers still on the way equal the readers that were on the way at the start |
| ServiceRuns.BoundedBypassOfWaiting | lab2/KboardModule.c:318-330 | the same of Solution 3 in the module: while a writer waits and no writer wakes readers at line 358, no reader gets in but those that were at 328-329 or had a token |
| ServiceCalls.CallExactlyWhenOutside | lab2/KboardModule.c:409-525 | under each solution, a thread can call any operation if and only if it is outside; it then goes for the critical section in the role of the operation, a negative number excepted |
| ServiceCalls.AdvancesWithProtocol | lab2/KboardModule.c:264-399 | whatever step its protocol lets a thread take, the module lets it take, once the thread has finished its own critical section if it is inside one |
| ServiceCalls.EveryCallIsServed | lab2/KboardModule.c:409-525 | under each solution, after every run that ends with everybody outside, any thread can call any operation and the run goes on without another call until all are outside again; the thread has got exactly one answer more, and if two writers were never inside together it is the one that the items accepted and delivered before determine |
| Ring.FillRepresents | lab2/KboardModule.c:487-488 | storing behind the window appends to the queue and uses an empty slot of the ring |
| Ring.ClearRepresents | lab2/KboardModule.c:427-430 | the slot at the index holds the head, and clearing it and moving on removes the head |
| Ring.OffsetIsMod | lab2/KboardModule.c:511-517 | the distance of a slot from the index is subtraction modulo the capacity |
| Fifo.FirstInFirstOut | lab2/KboardModule.c:408-493 | in a legal history what was accepted is what was delivered followed by what is queued, in order, within the capacity |
| Fifo.LegalExactlyWhenRight | lab2/KboardModule.c:420-517 | a log is a history of the atomic queue if and only if each answer is the right one: an enqueue is stored iff it is not negative and fewer than capacity accepted items are undelivered, a dequeue gets the oldest undelivered item or none iff there is none, and a peek shows the undelivered item whose number is the slot modulo the capacity, or -1 |
| Kboard.DequeueRefines | lab2/KboardModule.c:415-430 | each step of the dequeue section keeps its assertion about the counts and that the ring shows the queue; the test that finds the ring empty, or the store of line 428, does to the queue what the atomic dequeue does and fixes its answer |
| Kboard.EnqueueRefines | lab2/KboardModule.c:475-488 | the same for the enqueue section, with the test that finds the ring full or the store of line 487 |
| Kboard.PeekRefines | lab2/KboardModule.c:513-517 | a peek shows the item at offset (i - index) modulo the capacity, or -1, wherever a writer inside stands |
| Linearization.AccessKeeps | lab2/KboardModule.c:415-517 | a step inside keeps the refinement of the atomic queue if no two writers are inside, readers being inside or not |
| Linearization.RejectKeeps | lab2/KboardModule.c:469-473 | a negative number is answered as the atomic queue answers it, without a change |
| Linearization.QuietBoard | lab2/KboardModule.c:420-430 | with no writer inside the ring holds exactly the items accepted and not yet delivered |
| PerformCounts.StepCounted | lab2/KboardModule.c:515-515 | a step inside keeps a count exact if and only if it is not a stale store, and a count that has fallen behind stays behind |
| Protocols.Protocol1.LetOut | lab2/KboardModule.c:372-379 | with no new arrivals any order of steps ends, with everybody out and all as it began |
| Protocols.Protocol2.LetOut | lab2/KboardModule.c:340-347 | with no new arrivals any order of steps ends, with everybody out and all as it began |
| Protocols.Protocol3.LetOut | lab2/KboardModule.c:350-397 | with no new arrivals any order of steps ends, with everybody out, all counters 0 and the mutex free, whether or not exclusion held |
| Device.Device.InitializeKboard | lab2/KboardModule.c:216-231 | afterwards the ring stands for the empty queue and both counts are 0 |
| Device.Device.Show | lab2/KboardModule.c:417-436 | the dequeue section does and answers what the atomic dequeue does |
| Device.Device.Write | lab2/KboardModule.c:469-492 | the enqueue section with its test for negative numbers does and answers what the atomic enqueue does |
| Device.Device.Look | lab2/KboardModule.c:510-517 | the peek section shows the slot the atomic peek shows and changes nothing but PerformReader |
| Clipboard.Clipboard.Init | lab1/kernel/os_kboard.c:86-104 | afterwards the ring stands for the empty queue |
| Clipboard.Clipboard.Enqueue | lab1/kernel/os_kboard.c:16-46 | -2 for a negative item, -1 for a full ring, 0 and the item appended otherwise; a refused call changes nothing |
| Clipboard.Clipboard.Dequeue | lab1/kernel/os_kboard.c:49-83 | -1 for an empty ring, -2 for a failed copy, 0 and the head removed otherwise; a refused or failed call changes nothing |
| CopyPaste.RunKeeps | lab1/kernel/os_kboard.c:16-83 | at every micro-step the lock has at most one owner and the ring stands for the consecutive numbers accepted and not yet delivered |
| CopyPaste.PasteSeesCopiesInOrder | lab1/user/paste_sync_test.c:17-36 | in every interleaving the consumer sees 0, 1, 2, ... in order and never takes the mismatch branch |
| CopyPaste.RefusedForGoodReason | lab1/kernel/os_kboard.c:31-59 | in every run the consumer finds the ring empty only if all that was accepted is delivered, and the producer finds it full only if capacity numbers are undelivered |
| CopyPaste.EachCopyDelivers | lab1/kernel/os_kboard.c:65-80 | in every run the numbers delivered, with the one on its way out, are as many as the copies to user space that succeeded; one that fails removes nothing |
| CopyPaste.ConsumerCatchesUp | lab1/user/paste_sync_test.c:17-36 | every run in which the producer does not hold the lock goes on by steps of the consumer alone, its copies succeeding, until it has seen every number accepted |
| CopyPaste.ProducerFillsUp | lab1/user/copy_sync_test.c:11-21 | every run in which the consumer does not hold the lock goes on by steps of the producer alone until the ring is full or INT_MAX has been accepted |
| CopyPaste.ProducerStopsAtIntMax | lab1/user/copy_sync_test.c:11-21 | at most INT_MAX + 1 numbers are accepted; once they are and the producer offers its next value, in every continuation of the run it keeps offering that negative value and nothing more is accepted |
| CopyPaste.SomeoneCanStep | lab1/kernel/os_kboard.c:28-80 | in every run the spinlock is taken exactly when one of the two programs holds it, the holder can step, and with the lock free both can |
| CopyPasteLoops.TakeTurns | lab1/user/paste_sync_test.c:17-36 | the loops of both programs, taking turns in any order with failed copies among them, never report a fault; the number expected next and the numbers left on the clipboard are those that a count of the turns (Play) gives; the rows below say what that count comes to |
| CopyPasteLoops.ConsumerUsesItsTurns | lab1/user/paste_sync_test.c:22-35 | after any turns, 2 * capacity + 2 turns of the consumer with copies that succeed compare every number accepted |
| CopyPasteLoops.ProducerUsesItsTurns | lab1/user/copy_sync_test.c:14-20 | after any turns, 2 * capacity + 2 turns of the producer remove nothing and fill the ring or pass INT_MAX |
| CopyPasteLoops.FailedCopyRemovesNothing | lab1/kernel/os_kboard.c:65-71 | after any turns, a turn of the consumer whose copy fails leaves the numbers removed as they are |

## Left out

- The theorems about all runs are about step machines over values, since a method cannot show threads that interleave. Update in place is shown per step for the protocols (`Protocols`), and per critical section for the ring (`Device`, `Clipboard`).
- Starvation: nothing is claimed about a particular thread getting in, which would depend on the wake order of semaphores and on fairness. What is proved is who can block whom, that every run can be continued until everybody is outside, and how many readers can overtake a waiting writer in Solutions 2 and 3.
- Solution 3 in a single run that is not safe: it may or may not overlap, leave a token behind, deliver twice or store outside the ring; the exact conditions are about all runs.
- What a store of line 487 at an address outside the ring overwrites: in the model it changes nothing, and what is proved of a run after such a store is about that model only. That it happens is `Solution3Answers.StoreStrays`.
- The kernel's semaphores and spinlocks themselves: `down`, `up`, lock and unlock are atomic here.
- `copy_from_user` and `sscanf` in `KboardWriter_Write`, with the errors they lead to: an enqueue starts with the number. The success of `copy_to_user` in lab1 is a choice of the scheduler.
- `KboardCounter_Show` and `KboardDumper_Show` read without a lock, and promise no consistent picture.
- `do_sys_kb_init` running beside other calls: it reinitialises the lock first. Runs start after it.
- Overflow of `PerformWriter`, `PerformReader` and of the unused `iteration` of the consumer: unbounded here.
- ProcFS set-up, file operations, messages and delays, the command-line programs and the system call table.
