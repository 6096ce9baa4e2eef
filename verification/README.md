# Verified models of the Linux exercises

This project models the concurrent and algorithmic cores of a collection of small Linux programs and
proves what those cores are for. `dafny verify dfyconfig.toml` checks all of it.

| file | models |
|---|---|
| `ParallelScheduler.dfy` | the thread pool `TH-2/parallel_scheduler.hpp`: constructor, destructor, `run`, `worker_thread` |
| `BankAccounts.dfy` | `Bill`, the operations of `class Bank`, and the indivisible changes they are made of |
| `BankConcurrency.dfy` | any number of processes on one shared bank, lock by lock, load by load, store by store |
| `SharedBank.dfy` | the same shared memory as arrays that the processes update in place |
| `BankSafety.dfy` | conservation of money, freezing and the overdraw bound in every such run |
| `DiningPhilosophers.dfy` | the philosophers and their semaphores, for N >= 2 philosophers and R rounds |
| `PrimeNumbers.dfy` | trial division and the search for the m-th prime |
| `Shell.dfy` | the one-pass command line interpreter |
| `ComplexSorting.dfy` | the bubble sort of complex numbers by magnitude |
| `ArraySummary.dfy` | the chunked parallel sum |
| `Collections.dfy` | sums over sequences |

**Form.** Each concurrent program is a state machine: a `State`, a predicate saying which action of which
thread or process is enabled, and a function giving the next state. An action is one statement that reads
or writes shared memory, or one call that may block. A *run* is a sequence of enabled actions, so a lemma
about every run speaks of every interleaving. Mutexes, semaphores and condition variables are primitives
with their POSIX meaning: `pthread_cond_wait` releases the mutex and sleeps in one action,
`pthread_cond_signal` unblocks at least one waiter if there is one (which ones is part of the action),
and a waiter may wake up spuriously at any time. Beside the state machine, a class holds the same state in
fields and arrays that its methods update in place, one atomic statement at a time; every such method is
proved to make exactly the transition of the state machine. `Memory.Serve`, `Dinner.Dine` and `Summarize`
execute a whole program under an arbitrary schedule, and `Scheduler.Drain` executes the rest of one from
the moment the destructor owns the mutex. `class Bank` is the bank as one process executes it undisturbed,
and is proved to perform the same indivisible changes that the concurrent bank refines.

**What turned out to hold only under a condition.**

- The bank works to completion exactly when no process transfers between an account and itself with a
  positive sum and a valid id: such a transfer locks the same non-recursive mutex twice, and then no run
  finishes (`FinishesIffNoSelfTransfer`, `SelfTransferNeverFinishes`; `SelfTransferBlocks` is an input).
- A pool of capacity 0 shuts down without executing anything; the queue is empty after shutdown exactly
  when the capacity is positive or nothing was submitted (`ShutdownDrains`; `NoWorkersNoWork` is an input).
- For an argument of `is_prime` that is an int, some evaluated `i * i` is not an int exactly when the argument
  is a prime of at least 46340 * 46340 (`IsPrime`). What a caller can use before the call is the half
  `num < 46340 * 46340`, under which no `i * i` overflows; no prime between that bound and the largest int is
  exhibited here. For the m-th prime the condition is on the result (`CalculateMthPrimeNumber`).
- In the shell a redirection operator without a target, at the end of a line, keeps the previous target but
  sets the mode. Printing the parse of any line and parsing that gives the same commands exactly when the
  line does not end in such a `>>` in a command without an earlier target (`NormalFormIsExact`;
  `BareAppendLosesMode` is an input). As the mode of a call without output is never looked at, every line has
  a normal form that makes the same calls (`NormalFormRunsTheSame`).

## Model

| member | source | states |
|---|---|---|
| ParallelScheduler.NoLostWakeup | TH-2/parallel_scheduler.hpp:41-79 | in every reachable state with the mutex free, either no worker sleeps or there are at most as many queued tasks as workers on their way to test the queue; the bound is one looser between `emplace` and the signal |
| ParallelScheduler.TaskNeverStranded | TH-2/parallel_scheduler.hpp:46-49 | with a task queued and the mutex free some worker is awake and can move, and if anybody sleeps one that will test the queue before it runs a task |
| ParallelScheduler.StepInv | TH-2/parallel_scheduler.hpp:24-79 | every statement of every thread, and every spurious wake-up, keeps mutual exclusion, the phases of the pool, what workers learned under the mutex, FIFO order, exactly-once and the wake-up bound |
| ParallelScheduler.ExactlyOnceInOrder | TH-2/parallel_scheduler.hpp:41-50 | dequeued tasks followed by queued ones are the submitted ones in order; dequeued tasks are those in hand plus those executed, with multiplicity; a single worker executes in submission order |
| ParallelScheduler.HistoriesGrow | TH-2/parallel_scheduler.hpp:41-79 | along every run what was submitted, dequeued and executed so far stays so, in the same order |
| ParallelScheduler.SubmittedInProgramOrder | TH-2/parallel_scheduler.hpp:41-50 | with any number of submitters and any tasks, each submitted task has an origin such that every submitter's tasks in submission order, then those it has left, are exactly its list |
| ParallelScheduler.OwnTasksInOrder | TH-2/parallel_scheduler.hpp:41-50 | so the tasks of a submitter that shares none with others are submitted in the order of its calls, and all of them in the end |
| ParallelScheduler.FirstComeFirstServed | TH-2/parallel_scheduler.hpp:41-79 | with one submitter, tasks enter and leave the queue in the order of its calls; a single worker executes them in that order, and all of them by the end of the destructor |
| ParallelScheduler.TasksRunUnlocked | TH-2/parallel_scheduler.hpp:72-77 | a worker running a task does not own the mutex and can always go on |
| ParallelScheduler.AnySleeperMayWake | TH-2/parallel_scheduler.hpp:48-49 | the signal may unblock any single sleeper and nobody else |
| ParallelScheduler.StuckOnlyWhenComplete | TH-2/parallel_scheduler.hpp:13-79 | the only reachable states in which no thread can move are those where the destructor has joined everybody |
| ParallelScheduler.SomeoneCanMove | TH-2/parallel_scheduler.hpp:24-79 | progress never depends on a spurious wake-up |
| ParallelScheduler.ShutdownStep | TH-2/parallel_scheduler.hpp:24-38 | after the destructor has locked the mutex every step of any thread decreases a measure |
| ParallelScheduler.ShutdownTerminates | TH-2/parallel_scheduler.hpp:24-38 | so every run from there on is bounded |
| ParallelScheduler.ShutdownDrains | TH-2/parallel_scheduler.hpp:32-38 | when all joins have returned every worker has exited, every task of every submitting thread has run exactly once and the queue is empty; with capacity 0 exactly nothing has run |
| ParallelScheduler.RunConservesTasks | TH-2/parallel_scheduler.hpp:41-50 | tasks submitted plus tasks still to submit never change, task by task |
| ParallelScheduler.Scheduler.constructor | TH-2/parallel_scheduler.hpp:13-22 | starts in the initial state, nothing created, nothing queued |
| ParallelScheduler.Scheduler.WorkerThread | TH-2/parallel_scheduler.hpp:59-79 | the next statement of a worker, in place |
| ParallelScheduler.Scheduler.Run | TH-2/parallel_scheduler.hpp:41-50 | the next statement of `run`, in place |
| ParallelScheduler.Scheduler.Own | TH-2/parallel_scheduler.hpp:13-38 | the next statement of constructor or destructor, in place |
| ParallelScheduler.ServiceRunsEverything | TH-2/parallel_scheduler.hpp:41-79 | nothing waits for the destructor: wherever, between construction and destruction, no worker and no submitter can go on, the queue is empty and every task of every submitter has run exactly once |
| ParallelScheduler.LifeEndsDrained | TH-2/parallel_scheduler.hpp:13-79 | from construction on, every run is bounded by a fixed number plus four for each spurious wake-up; where it cannot go on the destructor has joined everybody and, with at least one worker, every task has run exactly once |
| ParallelScheduler.LifeStep | TH-2/parallel_scheduler.hpp:13-79 | every statement of every thread, construction included, lowers one measure; a spurious wake-up adds three to it |
| ParallelScheduler.NoWorkersNoWork | TH-2/parallel_scheduler.hpp:13-79 | a pool of capacity 0 with one submitted task reaches the joined state with that task queued and nothing executed |
| ParallelScheduler.QuietIsServed | TH-2/parallel_scheduler.hpp:59-79 | with nobody able to move in service, every worker sleeps, nothing is queued and what was submitted is what was executed |
| ParallelScheduler.Scheduler.Drain | TH-2/parallel_scheduler.hpp:24-38 | from the moment the destructor owns the mutex, under every schedule, the destructor returns; with at least one worker the queue is then empty and every submitted task executed exactly once |
| BankAccounts.Bank.constructor | transparent_bank/bank.cpp:6-22 | all balances 0, the widest limits, nothing frozen, no mutex locked |
| BankAccounts.Bank.Transfer | transparent_bank/bank.cpp:97-117 | field by field: takes the sum from the sender and gives it to the receiver exactly if it is positive, both ids are valid and different, the sender's balance is strictly between its limits and neither is frozen, and else changes nothing; every mutex released; never returns exactly for an effective transfer from an account to itself |
| BankAccounts.TransferMeans | transparent_bank/bank.cpp:97-117 | the indivisible change of a transfer, spelled out in the fields of the two accounts |
| BankAccounts.Bank.EnrollToAll | transparent_bank/bank.cpp:120-135 | for a positive sum adds it to exactly those balances that are strictly between their limits and not frozen, and changes nothing else; it is the serial execution of its per-account changes |
| BankAccounts.Bank.DebitFromAll | transparent_bank/bank.cpp:137-152 | for a positive sum takes it from exactly those balances that are strictly between their limits and not frozen, and changes nothing else; it is the serial execution of its per-account changes |
| BankAccounts.Bank.Froze | transparent_bank/bank.cpp:79-86 | sets the flag of the one account, if it exists, and changes nothing else |
| BankAccounts.Bank.Defroze | transparent_bank/bank.cpp:88-95 | clears the flag of the one account, if it exists, and changes nothing else |
| BankAccounts.Bank.SetMinBalance | transparent_bank/bank.cpp:155-164 | for a positive sum and an existing account stores the minimum alone, and else changes nothing |
| BankAccounts.Bank.SetMaxBalance | transparent_bank/bank.cpp:166-175 | for a positive sum and an existing account stores the maximum alone, and else changes nothing |
| BankAccounts.BulkIsPointwise | transparent_bank/bank.cpp:122-132 | a bulk operation changes each account independently, by the balance, limits and freeze of that account alone |
| BankConcurrency.StepInv | transparent_bank/bank.cpp:79-175 | every lock-level step keeps mutual exclusion and keeps true what every process has tested or loaded under its locks |
| BankConcurrency.StepRefines | transparent_bank/bank.cpp:79-175 | every lock-level step is invisible to the atomic bank or exactly one of its indivisible changes |
| BankConcurrency.Serializable | transparent_bank/bank.cpp:79-175 | in every reachable state a serial order of indivisible changes that respects every process's program yields the accounts as seen atomically; it holds changes of the given programs alone; when all are done it is complete and yields the accounts themselves |
| BankConcurrency.RealTimeOrder | transparent_bank/bank.cpp:79-175 | that order also respects real time: at any moment it holds every change of the operations already finished and none of those not begun, and from then on it only grows |
| BankConcurrency.SoloRunIsTheOperation | transparent_bank/bank.cpp:79-175 | a process alone, stepped lock by lock to the end of one operation, leaves the accounts as the corresponding method of `Bank` does |
| BankConcurrency.SoloTransfer | transparent_bank/bank.cpp:97-117 | the same in the fields of the accounts: who pays, who gets, and exactly when |
| BankConcurrency.SoloBulk | transparent_bank/bank.cpp:120-152 | the same for the bulk operations, which change each account once, in increasing id |
| BankConcurrency.SoloSingle | transparent_bank/bank.cpp:79-175 | the same for the operations on one account |
| BankConcurrency.DeadlockFree | transparent_bank/bank.cpp:100-114 | without self-transfers, some process can step unless all are finished |
| BankConcurrency.SomeoneCanMove | transparent_bank/bank.cpp:100-104 | because mutexes are taken in increasing id, following owners from a blocked process reaches one that can move |
| BankConcurrency.LocksAreTakenUpwards | transparent_bank/bank.cpp:100-104 | whoever owns a mutex and waits for another one is in a transfer between these two accounts and waits for the larger id, or the same one |
| BankConcurrency.RunsAreFinite | transparent_bank/bank.cpp:79-175 | every run is finite, whatever the schedule |
| BankConcurrency.FinishesIffNoSelfTransfer | transparent_bank/bank.cpp:97-117 | every maximal run finishes all processes if and only if no program contains an effective transfer from an account to itself |
| BankConcurrency.SelfTransferNeverFinishes | transparent_bank/bank.cpp:97-117 | with such a transfer in some program, no run at all finishes all processes |
| BankConcurrency.SelfTransferBlocks | transparent_bank/bank.cpp:97-117 | the transfer of 1 from account 0 to itself reaches a stuck state and never the end |
| SharedBank.Memory.constructor | transparent_bank/bank.cpp:6-22 | every mutex free, every process about to start its program |
| SharedBank.Memory.BeginOperation | transparent_bank/bank.cpp:79-175 | the argument checks of the next operation |
| SharedBank.Memory.TransferLocks | transparent_bank/bank.cpp:100-114 | the next lock or unlock of a transfer, in place: smaller id first, released in the opposite order |
| SharedBank.Memory.TransferTests | transparent_bank/bank.cpp:106-107 | the next test of a transfer, in place; the first that fails decides that nothing is moved |
| SharedBank.Memory.TransferUpdates | transparent_bank/bank.cpp:108-109 | the next load or store of a transfer, in place: the sender's balance before the receiver's |
| SharedBank.Memory.BulkStatement | transparent_bank/bank.cpp:122-149 | the next lock, test, load, store or unlock of a bulk operation, in place |
| SharedBank.Memory.SingleStatement | transparent_bank/bank.cpp:79-175 | the next lock, store or unlock of an operation on one account, in place |
| SharedBank.Memory.Move | transparent_bank/bank.cpp:79-175 | the next lock-level step of one process, in place |
| SharedBank.Memory.Serve | transparent_bank/bank.cpp:79-175 | under every schedule, without self-transfers, all processes finish and the accounts are the result of a serial order that respects every program and holds nothing else |
| BankSafety.MoneyIsConserved | transparent_bank/bank.cpp:97-152 | at every lock-level step all balances plus what is debited but not yet credited are the initial total plus enrollments minus debits; since the sender pays first, the balances alone are never more than that |
| BankSafety.TransfersKeepTheTotal | transparent_bank/bank.cpp:97-117 | without bulk operations the total is constant whenever no mutex is locked |
| BankSafety.StoreOfTransfer | transparent_bank/bank.cpp:106-109 | no update is lost: under every interleaving the debit and the credit change the balances of that very moment by the sum, nothing is frozen then, and the sender's limits hold at the debit |
| BankSafety.StoreOfBulk | transparent_bank/bank.cpp:125-145 | the same of every store of a bulk operation |
| BankSafety.StoreOfOne | transparent_bank/bank.cpp:79-175 | the store of `froze`, `defroze`, `set_min_balance` or `set_max_balance` changes that one field of that one account |
| BankSafety.FrozenMeansFrozen | transparent_bank/bank.cpp:79-95 | from the store of `froze` to the next store of `defroze` on the account its balance does not change, whatever interleaves |
| BankSafety.OverdrawBound | transparent_bank/bank.cpp:106-148 | while the minimum stays and amounts are at most S, an account at or above min + 1 - S never falls below it |
| DiningPhilosophers.RunInv | DiningPhilosophers/main.cpp:24-41 | in every reachable state each semaphore plus the number of holders of its stick is 1, and meals match rounds |
| DiningPhilosophers.StickMutualExclusion | DiningPhilosophers/main.cpp:31-38 | a stick has at most one holder and its semaphore is 0 exactly when it has one |
| DiningPhilosophers.SticksInHand | DiningPhilosophers/main.cpp:25-37 | in every reachable state the semaphores `id` and `(id + 1) % n` are down as the philosopher's progress says, its own first except for philosopher 0 |
| DiningPhilosophers.NeighboursNeverEatTogether | DiningPhilosophers/main.cpp:33-35 | no two neighbours eat at once in any reachable state |
| DiningPhilosophers.SomeoneCanMove | DiningPhilosophers/main.cpp:25-34 | thanks to philosopher 0's swap, following stick holders from a blocked philosopher goes up in rank and reaches one that can move |
| DiningPhilosophers.DeadlockFree | DiningPhilosophers/main.cpp:24-41 | no reachable state is stuck unless every philosopher has finished all rounds |
| DiningPhilosophers.EveryoneEatsExactly | DiningPhilosophers/main.cpp:24-53 | every run has at most 6RN calls, a run is maximal exactly when it has 6RN, and then everyone has eaten R times and every semaphore is back at 1 |
| DiningPhilosophers.Dinner.constructor | DiningPhilosophers/main.cpp:25-53 | semaphores fresh at 1, sticks assigned with the swap for id 0 |
| DiningPhilosophers.Dinner.Seat | DiningPhilosophers/main.cpp:25-29 | the sticks of one philosopher: its own first, except for philosopher 0 |
| DiningPhilosophers.Dinner.Move | DiningPhilosophers/main.cpp:31-38 | the next call of one philosopher, in place |
| DiningPhilosophers.Dinner.Dine | DiningPhilosophers/main.cpp:43-70 | under every schedule dinner ends, after exactly 6RN calls, with R meals each |
| PrimeNumbers.IsPrime | IPC-2/prime_calculator.cpp:5-15 | true exactly on primes; below 46340*46340 no evaluated i*i exceeds the largest int, and up to the largest int one does exactly for primes of at least 46340*46340 |
| PrimeNumbers.TrialDivisionSuffices | IPC-2/prime_calculator.cpp:9-14 | no divisor up to the square root means no divisor at all |
| PrimeNumbers.PrimeBeyond | IPC-2/prime_calculator.cpp:20-25 | there is a prime beyond every number, which is why the search ends |
| PrimeNumbers.EnoughPrimes | IPC-2/prime_calculator.cpp:20-25 | some bound has at least m primes below it |
| PrimeNumbers.CalculateMthPrimeNumber | IPC-2/prime_calculator.cpp:17-27 | terminates, and for m >= 1 returns the prime with exactly m primes up to it; 1 for m <= 0; with the result an int, some i*i of the search is not an int exactly if the result is at least 46340*46340 |
| PrimeNumbers.MthPrimesAreThePrimes | IPC-2/prime_calculator.cpp:17-27 | that prime is unique and strictly increasing in m |
| PrimeNumbers.MthPrimeIsOnto | IPC-2/prime_calculator.cpp:17-27 | every m >= 1 has one, and every prime is the m-th for some m >= 1 |
| Shell.ParseAndExecute | PS-2/shell.cpp:73-113 | for every token list and every status oracle the one-pass loop makes exactly the calls of parsing first and evaluating the guarded commands afterwards |
| Shell.SeparatorMeans | PS-2/shell.cpp:82-99 | after any line so far, a command followed by `;` is always called, by `&&` exactly if the last call's status is 0, by `\|\|` exactly if it is not, with status 0 before any call |
| Shell.EndMeans | PS-2/shell.cpp:111-113 | a command at the end of the line is called exactly if it has arguments |
| Shell.TokenMeans | PS-2/shell.cpp:100-109 | token by token: words become arguments, a later redirection replaces an earlier one, `>>` and only it appends, a missing target changes the mode alone |
| Shell.GuardedCall | PS-2/shell.cpp:82-99 | the calls of `a ; b && c`, `a ; b \|\| c` and `a ; b ; c` for arbitrary words |
| Shell.ShortLines | PS-2/shell.cpp:82-99 | the calls of `a ; b`, `a && b` and `a \|\| b` for arbitrary words |
| Shell.PrintThenParse | PS-2/shell.cpp:80-109 | parsing a printed command list gives it back, also when a redirection target looks like an operator |
| Shell.PrintableIffKeepsMode | PS-2/shell.cpp:80-109 | a line parses into a list that can be printed exactly when it does not end in a `>>` without target in a command without an earlier target |
| Shell.NormalFormIsExact | PS-2/shell.cpp:80-109 | exactly for these lines parsing the printed parse gives the parse back |
| Shell.BareAppendLosesMode | PS-2/shell.cpp:100-105 | `a >>` is a line for which it does not, while for `a >` it does |
| Shell.NormalFormRunsTheSame | PS-2/shell.cpp:40-113 | printing the parse of any line gives a line that makes the same calls under every status oracle, up to the mode of a last call without output |
| Shell.LastCommandAlwaysRuns | PS-2/shell.cpp:111-113 | the last command of a line, if it has arguments, is executed whatever the statuses before it |
| Shell.LeadingOrCommandsNeverRun | PS-2/shell.cpp:93-99 | commands at the start of a line that are followed by `\|\|` never run, whatever the statuses |
| ComplexSorting.SortComplexArray | ENV-2/sorting.cpp:3-13 | the first `size` elements become a stable permutation of themselves with ascending magnitudes, the rest stays, and as many exchanges are made as there were inversions |
| ComplexSorting.BubblePass | ENV-2/sorting.cpp:5-11 | one inner loop keeps a stable rearrangement, makes as many exchanges as it removes inversions and lets one more element settle at the end |
| ComplexSorting.ExchangeRemovesOne | ENV-2/sorting.cpp:6-10 | exchanging neighbours that are out of order removes exactly one inversion |
| ComplexSorting.StableSortIsUnique | ENV-2/sorting.cpp:3-13 | only one sequence is sorted and a stable rearrangement of the input, so the contract determines the result |
| ComplexSorting.StableIsPermutation | ENV-2/sorting.cpp:3-13 | a stable rearrangement has the same elements with the same multiplicities |
| ArraySummary.ChunksPartition | TH-1/array_summary.cpp:48-58 | every index lies in exactly one chunk, also with more threads than elements |
| ArraySummary.JoinOne | TH-1/array_summary.cpp:63-66 | the result of the next thread extends the sum of the prefix covered so far |
| ArraySummary.PartialSum | TH-1/array_summary.cpp:14-21 | one statement of a thread adds one element to its own result and touches no other thread's data |
| ArraySummary.Create | TH-1/array_summary.cpp:51-60 | gives the thread exactly its chunk: `n / threads` elements, the last thread the remainder as well |
| ArraySummary.Summarize | TH-1/array_summary.cpp:37-66 | under every interleaving of creation, iterations and joins the joined total is the single-threaded sum |

## Left out

- Sockets, pipes, shared-memory and semaphore files, `fork` and `exec`, signals, clocks, randomness and all printing. `set_min_balance` and `set_max_balance` read the limit once more after unlocking, only to print it.
- Fixed-width overflow of balances and of sums, and a process that dies while it holds a mutex: the programs handle neither.
- A claim that balances stay within their limits: the code tests the balance before a change, not after it, and never the receiver's limits.
- ParallelScheduler.ShutdownDrains: tasks are assumed to return and not to call `run` themselves, and `run` is not called once destruction has started.
- ParallelScheduler.StuckOnlyWhenComplete: says that some step is possible, not that a fair scheduler takes it; as spurious wake-ups are unlimited, a run before shutdown may be infinite, and `LifeEndsDrained` bounds it in their number.
- ComplexSorting.SortComplexArray: the magnitude is any function into the real numbers, so rounding inside it is covered but a result that is not a number is not.
- PrimeNumbers.CalculateMthPrimeNumber: integers are unbounded, so for indices beyond the range of int the search goes on where the program would overflow.
- ArraySummary.Summarize: at least one thread, since the program divides by their number.
- DiningPhilosophers.Dinner.constructor: every semaphore is new with value 1, as when no stale semaphore of that name exists.
- The shell's `silent` prefix, its change of `PATH` and the POSIX meaning of AND-OR lists (section 2.9.3 of the Shell Command Language), which this loop does not follow.
- Smokers, chat, RPC, HTTP and lesson servers, file copies and the counter exercises: thin I/O, or single-lock invariants that are easier than what is here.
