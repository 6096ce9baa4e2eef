/**
  The thread pool of TH-2/parallel_scheduler.hpp: one mutex, one condition variable, a FIFO queue and
  a stop flag, shared by the workers, by any number of threads that call `run`, and by the thread
  that constructs and destroys the pool. One action is one statement of the source.
 */
module ParallelScheduler {
  import opened Collections

  /** The identity of a submitted closure. */
  type Task = nat

  /** Who may own `queue_mutex`. */
  datatype Thread = WorkerThread(w: nat) | RunThread(c: nat) | OwnerThread

  /** Where a worker is in `worker_thread`. */
  datatype WorkerPc =
    | Unborn                 // pthread_create not yet called
    | Start                  // at the top of the outer loop, about to lock
    | Locked                 // owns the mutex, about to test the guard of the wait loop
    | Waiting                // owns the mutex, the guard was true, about to call pthread_cond_wait
    | Asleep                 // blocked in pthread_cond_wait, the mutex released
    | Woken                  // unblocked in pthread_cond_wait, about to re-acquire the mutex
    | Checked                // owns the mutex, has left the wait loop
    | Leaving                // owns the mutex, about to unlock and return
    | Popped(task: Task)     // owns the mutex and a task, about to unlock
    | Running(task: Task)    // about to call the task
    | Exited                 // has returned

  /** Where a submitting thread is in its current call of `run`. */
  datatype RunPc = Outside | Holding | Emplaced | Signalled

  /** A submitting thread calls `run` once for each task of `todo`, in order. */
  datatype Client = Client(todo: seq<Task>, pc: RunPc)

  /** The thread that owns the pool: constructor, then destructor. */
  datatype OwnerPc =
    | Building(created: nat) // about to create worker `created`; all created when it is the capacity
    | Stopping               // destructor owns the mutex
    | StopSet                // stop is true
    | Broadcast              // all waiters woken
    | Joining(joined: nat)   // mutex released, about to join worker `joined`; done when it is the capacity

  /** The shared object, where each thread is, and three histories of tasks. */
  datatype State = State(
    queue: seq<Task>,
    stop: bool,
    mutex: Option<Thread>,
    workers: seq<WorkerPc>,
    clients: seq<Client>,
    owner: OwnerPc,
    submitted: seq<Task>,
    dequeued: seq<Task>,
    executed: seq<Task>)

  function Init(capacity: nat, todo: seq<seq<Task>>): State {
    State([], false, None, seq(capacity, _ => Unborn),
          seq(|todo|, (c: nat) requires c < |todo| => Client(todo[c], Outside)),
          Building(0), [], [], [])
  }

  // ----- The interleaving semantics

  datatype Action =
    | WorkerAct(w: nat)
    | SpuriousWake(w: nat)
    | RunAct(c: nat, wake: set<nat>)  // `wake` is whom pthread_cond_signal unblocks
    | OwnerAct

  predicate Built(s: State) {
    s.owner == Building(|s.workers|)
  }

  predicate Idle(c: Client) {
    c.todo == [] && c.pc == Outside
  }

  predicate ClientsIdle(s: State) {
    forall c :: 0 <= c < |s.clients| ==> Idle(s.clients[c])
  }

  function Sleepers(workers: seq<WorkerPc>): set<nat> {
    set w: nat | w < |workers| && workers[w] == Asleep
  }

  /** pthread_cond_signal unblocks at least one of the waiters, if there are any. */
  predicate SignalChoice(workers: seq<WorkerPc>, wake: set<nat>) {
    && wake <= Sleepers(workers)
    && (wake == {} ==> Sleepers(workers) == {})
  }

  /** A worker is blocked by a mutex it does not own; `front()` of an empty queue has no next state. */
  predicate WorkerEnabled(s: State, w: nat) {
    && w < |s.workers|
    && match s.workers[w]
       case Unborn => false
       case Asleep => false
       case Exited => false
       case Start => s.mutex == None
       case Woken => s.mutex == None
       case Running(_) => true
       case Checked => s.mutex == Some(WorkerThread(w)) && (s.stop || s.queue != [])
       case _ => s.mutex == Some(WorkerThread(w))
  }

  predicate RunEnabled(s: State, c: nat, wake: set<nat>) {
    && c < |s.clients|
    && s.clients[c].todo != []
    && match s.clients[c].pc
       case Outside => s.mutex == None && Built(s)
       case Emplaced => s.mutex == Some(RunThread(c)) && SignalChoice(s.workers, wake)
       case _ => s.mutex == Some(RunThread(c))
  }

  /** The destructor starts only after the constructor and when no call of `run` is left. */
  predicate OwnerEnabled(s: State) {
    match s.owner
    case Building(n) => n < |s.workers| || (n == |s.workers| && s.mutex == None && ClientsIdle(s))
    case Joining(n) => n < |s.workers| && s.workers[n] == Exited
    case _ => s.mutex == Some(OwnerThread)
  }

  predicate Enabled(s: State, a: Action) {
    match a
    case WorkerAct(w) => WorkerEnabled(s, w)
    case SpuriousWake(w) => w < |s.workers| && s.workers[w] == Asleep
    case RunAct(c, wake) => RunEnabled(s, c, wake)
    case OwnerAct => OwnerEnabled(s)
  }

  function WorkerDo(s: State, w: nat): State
    requires WorkerEnabled(s, w)
  {
    match s.workers[w]
    case Start => s.(mutex := Some(WorkerThread(w)), workers := s.workers[w := Locked])
    case Woken => s.(mutex := Some(WorkerThread(w)), workers := s.workers[w := Locked])
    case Locked => s.(workers := s.workers[w := if !s.stop && s.queue == [] then Waiting else Checked])
    case Waiting => s.(mutex := None, workers := s.workers[w := Asleep])
    case Checked =>
      if s.stop && s.queue == [] then s.(workers := s.workers[w := Leaving])
      else s.(queue := s.queue[1..], workers := s.workers[w := Popped(s.queue[0])],
              dequeued := s.dequeued + [s.queue[0]])
    case Leaving => s.(mutex := None, workers := s.workers[w := Exited])
    case Popped(t) => s.(mutex := None, workers := s.workers[w := Running(t)])
    case Running(t) => s.(workers := s.workers[w := Start], executed := s.executed + [t])
  }

  function WakeAll(workers: seq<WorkerPc>, wake: set<nat>): (r: seq<WorkerPc>) {
    seq(|workers|, (w: nat) requires w < |workers| => if w in wake && workers[w] == Asleep then Woken else workers[w])
  }

  function RunDo(s: State, c: nat, wake: set<nat>): State
    requires RunEnabled(s, c, wake)
  {
    var client := s.clients[c];
    match client.pc
    case Outside => s.(mutex := Some(RunThread(c)), clients := s.clients[c := client.(pc := Holding)])
    case Holding => s.(queue := s.queue + [client.todo[0]], submitted := s.submitted + [client.todo[0]],
                       clients := s.clients[c := client.(pc := Emplaced)])
    case Emplaced => s.(workers := WakeAll(s.workers, wake), clients := s.clients[c := client.(pc := Signalled)])
    case Signalled => s.(mutex := None, clients := s.clients[c := Client(client.todo[1..], Outside)])
  }

  function OwnerDo(s: State): State
    requires OwnerEnabled(s)
  {
    match s.owner
    case Building(n) =>
      if n < |s.workers| then s.(workers := s.workers[n := Start], owner := Building(n + 1))
      else s.(mutex := Some(OwnerThread), owner := Stopping)
    case Stopping => s.(stop := true, owner := StopSet)
    case StopSet => s.(workers := WakeAll(s.workers, Sleepers(s.workers)), owner := Broadcast)
    case Broadcast => s.(mutex := None, owner := Joining(0))
    case Joining(n) => s.(owner := Joining(n + 1))
  }

  function Do(s: State, a: Action): State
    requires Enabled(s, a)
  {
    match a
    case WorkerAct(w) => WorkerDo(s, w)
    case SpuriousWake(w) => s.(workers := s.workers[w := Woken])
    case RunAct(c, wake) => RunDo(s, c, wake)
    case OwnerAct => OwnerDo(s)
  }

  ghost predicate Run(s: State, acts: seq<Action>, t: State)
    decreases |acts|
  {
    if acts == [] then s == t
    else Enabled(s, acts[0]) && Run(Do(s, acts[0]), acts[1..], t)
  }

  // ----- What every step keeps

  predicate OwnsMutex(pc: WorkerPc) {
    pc.Locked? || pc.Waiting? || pc.Checked? || pc.Leaving? || pc.Popped?
  }

  predicate OwnerInside(pc: OwnerPc) {
    pc.Stopping? || pc.StopSet? || pc.Broadcast?
  }

  /** Mutual exclusion: the owner of the mutex is exactly the one thread inside a critical section. */
  ghost predicate LockInv(s: State) {
    && (forall w :: 0 <= w < |s.workers| ==> (OwnsMutex(s.workers[w]) <==> s.mutex == Some(WorkerThread(w))))
    && (forall c :: 0 <= c < |s.clients| ==> (s.clients[c].pc != Outside <==> s.mutex == Some(RunThread(c))))
    && (OwnerInside(s.owner) <==> s.mutex == Some(OwnerThread))
    && (s.mutex.Some? && s.mutex.value.WorkerThread? ==> s.mutex.value.w < |s.workers|)
    && (s.mutex.Some? && s.mutex.value.RunThread? ==> s.mutex.value.c < |s.clients|)
  }

  /** Construction, service and destruction follow each other. */
  ghost predicate PhaseInv(s: State) {
    && (s.stop <==> s.owner.StopSet? || s.owner.Broadcast? || s.owner.Joining?)
    && (!s.owner.Building? ==> ClientsIdle(s))
    && (forall c :: 0 <= c < |s.clients| && s.clients[c].pc != Outside ==> s.clients[c].todo != [] && Built(s))
    && (s.owner.Building? ==> s.owner.created <= |s.workers| && (Built(s) || s.queue == []))
    && (forall w :: 0 <= w < |s.workers| ==>
          (s.workers[w] == Unborn <==> s.owner.Building? && s.owner.created <= w))
    && (s.owner.Broadcast? || s.owner.Joining? ==> NobodySleeps(s))
    && (s.owner.Joining? ==> s.owner.joined <= |s.workers|)
    && (s.owner.Joining? ==> forall w :: 0 <= w < s.owner.joined ==> s.workers[w] == Exited)
  }

  /** What a worker has learned under the mutex stays true until it acts on it. */
  ghost predicate WorkerInv(s: State) {
    forall w :: 0 <= w < |s.workers| ==>
      match s.workers[w]
      case Waiting => !s.stop && s.queue == []
      case Checked => s.stop || s.queue != []
      case Leaving => s.stop && s.queue == []
      case Exited => s.stop && s.queue == []
      case _ => true
  }

  /** 1 for a worker that has popped task `x` and not yet executed it. */
  function Carrying(x: Task): WorkerPc -> int {
    (pc: WorkerPc) => if pc == Popped(x) || pc == Running(x) then 1 else 0
  }

  function HandSeq(pc: WorkerPc): seq<Task> {
    match pc
    case Popped(t) => [t]
    case Running(t) => [t]
    case _ => []
  }

  /** Tasks leave the queue in the order they entered it. */
  ghost predicate FifoInv(s: State) {
    s.submitted == s.dequeued + s.queue
  }

  /** A task that left the queue is in exactly one worker's hands or has been executed once. */
  ghost predicate OnceInv(s: State) {
    forall x :: Accounted(s, x)
  }

  ghost predicate Accounted(s: State, x: Task) {
    Count(x, s.dequeued) == SumBy(Carrying(x), s.workers) + Count(x, s.executed)
  }

  function Is(x: Task): Task -> int {
    (y: Task) => if y == x then 1 else 0
  }

  /** How often task `x` occurs in `tasks`. */
  function Count(x: Task, tasks: seq<Task>): int {
    SumBy(Is(x), tasks)
  }

  lemma {:induction false} CountAppend(x: Task, tasks: seq<Task>, task: Task)
    ensures Count(x, tasks + [task]) == Count(x, tasks) + Is(x)(task)
  {
    SumByAppend(Is(x), tasks, [task]);
  }

  /** With one worker tasks are executed in the order they left the queue; with none, none leaves it. */
  ghost predicate SoloInv(s: State) {
    && (|s.workers| == 0 ==> s.dequeued == [])
    && (|s.workers| == 1 ==> s.dequeued == s.executed + HandSeq(s.workers[0]))
  }

  ghost predicate NobodySleeps(s: State) {
    forall w :: 0 <= w < |s.workers| ==> s.workers[w] != Asleep
  }

  /** 1 for a worker that will test the queue before it runs a task or sleeps. */
  function OnItsWay(pc: WorkerPc): int {
    if pc.Start? || pc.Woken? || pc.Locked? || pc.Checked? then 1 else 0
  }

  /** The bound is one looser between `emplace` and `pthread_cond_signal`. */
  function Slack(s: State): int {
    if exists c :: 0 <= c < |s.clients| && s.clients[c].pc == Emplaced then 1 else 0
  }

  ghost predicate WakeInv(s: State) {
    NobodySleeps(s) || |s.queue| <= SumBy(OnItsWay, s.workers) + Slack(s)
  }

  ghost predicate Inv(s: State) {
    LockInv(s) && PhaseInv(s) && WorkerInv(s) && FifoInv(s) && OnceInv(s) && SoloInv(s) && WakeInv(s)
  }

  lemma {:induction false} InitInv(capacity: nat, todo: seq<seq<Task>>)
    ensures Inv(Init(capacity, todo))
  {
    var s := Init(capacity, todo);
    forall x ensures SumBy(Carrying(x), s.workers) == 0 {
      SumByZero(Carrying(x), s.workers);
    }
  }

  lemma {:induction false} WorkerKeepsLocks(s: State, w: nat)
    requires LockInv(s) && WorkerEnabled(s, w)
    ensures LockInv(WorkerDo(s, w))
  {
  }

  lemma {:induction false} RunKeepsLocks(s: State, c: nat, wake: set<nat>)
    requires LockInv(s) && RunEnabled(s, c, wake)
    ensures LockInv(RunDo(s, c, wake))
  {
  }

  lemma {:induction false} OwnerKeepsLocks(s: State)
    requires LockInv(s) && PhaseInv(s) && OwnerEnabled(s)
    ensures LockInv(OwnerDo(s))
  {
  }

  lemma {:induction false} WorkerKeepsPhase(s: State, w: nat)
    requires LockInv(s) && PhaseInv(s) && WorkerInv(s) && WorkerEnabled(s, w)
    ensures PhaseInv(WorkerDo(s, w)) && WorkerInv(WorkerDo(s, w))
  {
  }

  lemma {:induction false} RunKeepsPhase(s: State, c: nat, wake: set<nat>)
    requires LockInv(s) && PhaseInv(s) && WorkerInv(s) && RunEnabled(s, c, wake)
    ensures PhaseInv(RunDo(s, c, wake)) && WorkerInv(RunDo(s, c, wake))
  {
  }

  lemma {:induction false} OwnerKeepsPhase(s: State)
    requires LockInv(s) && PhaseInv(s) && WorkerInv(s) && OwnerEnabled(s)
    ensures PhaseInv(OwnerDo(s)) && WorkerInv(OwnerDo(s))
  {
  }

  lemma {:induction false} StepKeepsFifo(s: State, a: Action)
    requires FifoInv(s) && Enabled(s, a)
    ensures FifoInv(Do(s, a))
  {
    if a.WorkerAct? && s.workers[a.w].Checked? && s.queue != [] {
      assert s.dequeued + s.queue == s.dequeued + [s.queue[0]] + s.queue[1..];
    } else if a.RunAct? && s.clients[a.c].pc.Holding? {
      var task := s.clients[a.c].todo[0];
      assert (s.dequeued + s.queue) + [task] == s.dequeued + (s.queue + [task]);
    }
  }

  lemma {:induction false} PopBalance(s: State, w: nat, x: Task)
    requires WorkerEnabled(s, w) && s.workers[w].Checked? && s.queue != []
    ensures Count(x, WorkerDo(s, w).dequeued) == Count(x, s.dequeued) + Carrying(x)(WorkerDo(s, w).workers[w])
  {
    CountAppend(x, s.dequeued, s.queue[0]);
  }

  lemma {:induction false} ExecuteBalance(s: State, w: nat, x: Task)
    requires WorkerEnabled(s, w) && s.workers[w].Running?
    ensures Count(x, WorkerDo(s, w).executed) == Count(x, s.executed) + Carrying(x)(s.workers[w])
  {
    CountAppend(x, s.executed, s.workers[w].task);
  }

  /** A worker's step changes what is dequeued by what it takes in hand plus what it executes. */
  lemma {:induction false} WorkerBalance(s: State, w: nat, x: Task)
    requires WorkerEnabled(s, w)
    ensures Count(x, WorkerDo(s, w).dequeued) - Count(x, s.dequeued)
         == Carrying(x)(WorkerDo(s, w).workers[w]) - Carrying(x)(s.workers[w])
            + Count(x, WorkerDo(s, w).executed) - Count(x, s.executed)
  {
    if s.workers[w].Checked? && s.queue != [] {
      PopBalance(s, w, x);
    } else if s.workers[w].Running? {
      ExecuteBalance(s, w, x);
    }
  }

  lemma {:induction false} WorkerKeepsAccounts(s: State, w: nat, x: Task)
    requires Accounted(s, x) && WorkerEnabled(s, w)
    ensures Accounted(WorkerDo(s, w), x)
  {
    WorkerBalance(s, w, x);
    SumByUpdate(Carrying(x), s.workers, w, WorkerDo(s, w).workers[w]);
  }

  lemma {:induction false} OthersCarryTheSame(s: State, a: Action, x: Task)
    requires PhaseInv(s) && Enabled(s, a) && !a.WorkerAct?
    ensures SumBy(Carrying(x), Do(s, a).workers) == SumBy(Carrying(x), s.workers)
    ensures Do(s, a).dequeued == s.dequeued && Do(s, a).executed == s.executed
  {
    SumBySame(Carrying(x), Do(s, a).workers, s.workers);
  }

  lemma {:induction false} StepKeepsAccounts(s: State, a: Action, x: Task)
    requires PhaseInv(s) && Accounted(s, x) && Enabled(s, a)
    ensures Accounted(Do(s, a), x)
  {
    if a.WorkerAct? {
      WorkerKeepsAccounts(s, a.w, x);
    } else {
      OthersCarryTheSame(s, a, x);
    }
  }

  lemma {:induction false} WorkerKeepsSolo(s: State, w: nat)
    requires SoloInv(s) && WorkerEnabled(s, w)
    ensures SoloInv(WorkerDo(s, w))
  {
  }

  lemma {:induction false} StepKeepsSolo(s: State, a: Action)
    requires PhaseInv(s) && SoloInv(s) && Enabled(s, a)
    ensures SoloInv(Do(s, a))
  {
    if a.WorkerAct? {
      WorkerKeepsSolo(s, a.w);
    }
  }

  lemma {:induction false} WorkerKeepsWake(s: State, w: nat)
    requires WorkerInv(s) && WakeInv(s) && WorkerEnabled(s, w)
    ensures WakeInv(WorkerDo(s, w))
  {
    var t := WorkerDo(s, w);
    SumByUpdate(OnItsWay, s.workers, w, t.workers[w]);
    SumByBounds(OnItsWay, t.workers);
    if NobodySleeps(s) && !s.workers[w].Waiting? {
      assert NobodySleeps(t);
    }
  }

  /** The signal puts at least one sleeper on its way to test the queue, if there is one. */
  lemma {:induction false} SignalWakes(workers: seq<WorkerPc>, wake: set<nat>)
    requires SignalChoice(workers, wake)
    ensures SumBy(OnItsWay, workers) <= SumBy(OnItsWay, WakeAll(workers, wake))
    ensures Sleepers(workers) != {} ==> SumBy(OnItsWay, workers) < SumBy(OnItsWay, WakeAll(workers, wake))
  {
    var woken := WakeAll(workers, wake);
    SumByMonotone(OnItsWay, workers, woken);
    if Sleepers(workers) != {} {
      var v :| v in wake;
      assert OnItsWay(workers[v]) < OnItsWay(woken[v]);
    }
  }

  /** A thread in its critical section excludes every other one from the window after `emplace`. */
  lemma {:induction false} NoSlack(s: State, c: nat)
    requires LockInv(s) && c < |s.clients| && s.clients[c].pc != Emplaced
    requires s.mutex == None || s.mutex == Some(RunThread(c))
    ensures Slack(s) == 0
  {
  }

  /** `emplace` loosens the bound by one, `pthread_cond_signal` restores it. */
  lemma {:induction false} RunKeepsWake(s: State, c: nat, wake: set<nat>)
    requires LockInv(s) && WakeInv(s) && RunEnabled(s, c, wake)
    ensures WakeInv(RunDo(s, c, wake))
  {
    var t := RunDo(s, c, wake);
    if s.clients[c].pc.Emplaced? {
      SignalWakes(s.workers, wake);
      if !NobodySleeps(s) {
        var w :| 0 <= w < |s.workers| && s.workers[w] == Asleep;
        assert w in Sleepers(s.workers);
      }
    } else {
      NoSlack(s, c);
      assert s.clients[c].pc.Holding? ==> t.clients[c].pc == Emplaced;
    }
  }

  lemma {:induction false} OthersKeepWake(s: State, a: Action)
    requires PhaseInv(s) && WakeInv(s) && Enabled(s, a) && (a.OwnerAct? || a.SpuriousWake?)
    ensures WakeInv(Do(s, a))
  {
    var t := Do(s, a);
    if !NobodySleeps(t) {
      SumByMonotone(OnItsWay, s.workers, t.workers);
    }
  }

  lemma {:induction false} StepInv(s: State, a: Action)
    requires Inv(s) && Enabled(s, a)
    ensures Inv(Do(s, a))
  {
    var t := Do(s, a);
    StepKeepsFifo(s, a);
    forall x ensures Accounted(t, x) {
      StepKeepsAccounts(s, a, x);
    }
    StepKeepsSolo(s, a);
    match a {
      case WorkerAct(w) =>
        WorkerKeepsLocks(s, w);
        WorkerKeepsPhase(s, w);
        WorkerKeepsWake(s, w);
      case RunAct(c, wake) =>
        RunKeepsLocks(s, c, wake);
        RunKeepsPhase(s, c, wake);
        RunKeepsWake(s, c, wake);
      case OwnerAct =>
        OwnerKeepsLocks(s);
        OwnerKeepsPhase(s);
        OthersKeepWake(s, a);
      case SpuriousWake(w) =>
        OthersKeepWake(s, a);
    }
  }

  lemma {:induction false} RunInv(s: State, acts: seq<Action>, t: State)
    requires Inv(s) && Run(s, acts, t)
    ensures Inv(t) && |t.workers| == |s.workers| && |t.clients| == |s.clients|
    decreases |acts|
  {
    if acts != [] {
      StepInv(s, acts[0]);
      RunInv(Do(s, acts[0]), acts[1..], t);
    }
  }

  // ----- Submission, order and exactly-once

  /** What a submitting thread will still put on the queue, in order. */
  function Left(c: Client): seq<Task> {
    if c.todo != [] && (c.pc.Emplaced? || c.pc.Signalled?) then c.todo[1..] else c.todo
  }

  /** How often a submitting thread will still put task `x` on the queue. */
  function Unsubmitted(x: Task): Client -> int {
    (c: Client) => Count(x, Left(c))
  }

  lemma {:induction false} RunSubmits(s: State, c: nat, wake: set<nat>, x: Task)
    requires RunEnabled(s, c, wake)
    ensures Count(x, RunDo(s, c, wake).submitted) - Count(x, s.submitted)
         == Unsubmitted(x)(s.clients[c]) - Unsubmitted(x)(RunDo(s, c, wake).clients[c])
  {
    if s.clients[c].pc.Holding? {
      CountAppend(x, s.submitted, s.clients[c].todo[0]);
    }
  }

  lemma {:induction false} RunConservesTasks(s: State, acts: seq<Action>, t: State, x: Task)
    requires Run(s, acts, t)
    ensures Count(x, t.submitted) + SumBy(Unsubmitted(x), t.clients)
         == Count(x, s.submitted) + SumBy(Unsubmitted(x), s.clients)
    decreases |acts|
  {
    if acts != [] {
      var a, u := acts[0], Do(s, acts[0]);
      if a.RunAct? {
        RunSubmits(s, a.c, a.wake, x);
        SumByUpdate(Unsubmitted(x), s.clients, a.c, u.clients[a.c]);
      }
      RunConservesTasks(u, acts[1..], t, x);
    }
  }

  /** All tasks of all submitting threads, each as often as it is submitted. */
  function AllTasks(todo: seq<seq<Task>>): multiset<Task> {
    if todo == [] then multiset{} else multiset(todo[0]) + AllTasks(todo[1..])
  }

  lemma {:induction false} CountIsMultiplicity(x: Task, tasks: seq<Task>)
    ensures Count(x, tasks) == multiset(tasks)[x]
  {
    if tasks != [] {
      CountIsMultiplicity(x, tasks[1..]);
      assert tasks == [tasks[0]] + tasks[1..];
    }
  }

  lemma {:induction false} UnsubmittedAtFirst(x: Task, todo: seq<seq<Task>>, clients: seq<Client>)
    requires |clients| == |todo| && forall c :: 0 <= c < |todo| ==> clients[c] == Client(todo[c], Outside)
    ensures SumBy(Unsubmitted(x), clients) == AllTasks(todo)[x]
  {
    if todo != [] {
      CountIsMultiplicity(x, todo[0]);
      UnsubmittedAtFirst(x, todo[1..], clients[1..]);
    }
  }

  lemma {:induction false} Reachable(capacity: nat, todo: seq<seq<Task>>, acts: seq<Action>, t: State)
    requires Run(Init(capacity, todo), acts, t)
    ensures Inv(t) && |t.workers| == capacity && |t.clients| == |todo|
  {
    InitInv(capacity, todo);
    RunInv(Init(capacity, todo), acts, t);
  }

  lemma {:induction false} AccountedMultiplicity(s: State, x: Task)
    requires OnceInv(s)
    ensures multiset(s.dequeued)[x] == SumBy(Carrying(x), s.workers) + multiset(s.executed)[x]
  {
    assert Accounted(s, x);
    CountIsMultiplicity(x, s.dequeued);
    CountIsMultiplicity(x, s.executed);
  }

  /** With no task in anybody's hands all dequeued tasks have been executed. */
  lemma {:induction false} EmptyHands(s: State)
    requires OnceInv(s)
    requires forall w :: 0 <= w < |s.workers| ==> !s.workers[w].Popped? && !s.workers[w].Running?
    ensures multiset(s.executed) == multiset(s.dequeued)
  {
    forall x ensures multiset(s.executed)[x] == multiset(s.dequeued)[x] {
      AccountedMultiplicity(s, x);
      SumByZero(Carrying(x), s.workers);
    }
  }

  /**
    In every reachable state the dequeued tasks followed by the queued ones are the submitted ones in
    order, every dequeued task is in hand or executed, and one worker executes in submission order.
   */
  lemma {:induction false} ExactlyOnceInOrder(capacity: nat, todo: seq<seq<Task>>, acts: seq<Action>, t: State)
    requires Run(Init(capacity, todo), acts, t)
    ensures t.submitted == t.dequeued + t.queue
    ensures forall x :: multiset(t.dequeued)[x] == SumBy(Carrying(x), t.workers) + multiset(t.executed)[x]
    ensures capacity == 1 ==> t.executed <= t.submitted
  {
    Reachable(capacity, todo, acts, t);
    forall x ensures multiset(t.dequeued)[x] == SumBy(Carrying(x), t.workers) + multiset(t.executed)[x] {
      AccountedMultiplicity(t, x);
    }
    if capacity == 1 {
      assert t.submitted == t.executed + (HandSeq(t.workers[0]) + t.queue);
    }
  }

  /** What was submitted, dequeued or executed stays so, in the same order. */
  lemma {:induction false} HistoriesGrow(s: State, acts: seq<Action>, t: State)
    requires Run(s, acts, t)
    ensures s.submitted <= t.submitted && s.dequeued <= t.dequeued && s.executed <= t.executed
    decreases |acts|
  {
    if acts != [] {
      HistoriesGrow(Do(s, acts[0]), acts[1..], t);
    }
  }

  /** Those of `tasks` that came from submitting thread `c`, where `origin` tells for each whose it was. */
  function From(c: nat, origin: seq<nat>, tasks: seq<Task>): seq<Task>
    requires |origin| == |tasks|
  {
    if tasks == [] then []
    else
      var last := |tasks| - 1;
      From(c, origin[..last], tasks[..last]) + if origin[last] == c then [tasks[last]] else []
  }

  lemma {:induction false} FromNext(c: nat, origin: seq<nat>, tasks: seq<Task>, d: nat, task: Task)
    requires |origin| == |tasks|
    ensures From(c, origin + [d], tasks + [task]) == From(c, origin, tasks) + if d == c then [task] else []
  {
    assert (origin + [d])[..|origin|] == origin && (tasks + [task])[..|tasks|] == tasks;
  }

  /** Every submitting thread's tasks in the queue's history, then those it has left, are its list. */
  ghost predicate Submits(s: State, origin: seq<nat>, todo: seq<seq<Task>>) {
    && |origin| == |s.submitted| && |s.clients| == |todo|
    && (forall k :: 0 <= k < |origin| ==> origin[k] < |todo|)
    && forall c :: 0 <= c < |todo| ==> From(c, origin, s.submitted) + Left(s.clients[c]) == todo[c]
  }

  lemma {:induction false} EmplaceSubmits(s: State, c: nat, wake: set<nat>, origin: seq<nat>, todo: seq<seq<Task>>)
    requires Submits(s, origin, todo) && RunEnabled(s, c, wake) && s.clients[c].pc.Holding?
    ensures Submits(RunDo(s, c, wake), origin + [c], todo)
  {
    var t, task := RunDo(s, c, wake), s.clients[c].todo[0];
    forall d | 0 <= d < |todo| ensures From(d, origin + [c], t.submitted) + Left(t.clients[d]) == todo[d] {
      FromNext(d, origin, s.submitted, c, task);
      if d == c {
        assert Left(s.clients[c]) == [task] + Left(t.clients[c]);
      } else {
        assert From(d, origin, s.submitted) + [] == From(d, origin, s.submitted);
      }
    }
  }

  lemma {:induction false} StepSubmits(s: State, a: Action, origin: seq<nat>, todo: seq<seq<Task>>)
    returns (next: seq<nat>)
    requires Submits(s, origin, todo) && Enabled(s, a)
    ensures Submits(Do(s, a), next, todo)
  {
    if a.RunAct? && s.clients[a.c].pc.Holding? {
      next := origin + [a.c];
      EmplaceSubmits(s, a.c, a.wake, origin, todo);
    } else {
      next := origin;
      if a.RunAct? {
        NothingSubmitted(s, a.c, a.wake);
      }
      SameSubmits(s, Do(s, a), origin, todo);
    }
  }

  lemma {:induction false} NothingSubmitted(s: State, c: nat, wake: set<nat>)
    requires RunEnabled(s, c, wake) && !s.clients[c].pc.Holding?
    ensures RunDo(s, c, wake).submitted == s.submitted
    ensures Left(RunDo(s, c, wake).clients[c]) == Left(s.clients[c])
  {
  }

  lemma {:induction false} SameSubmits(s: State, t: State, origin: seq<nat>, todo: seq<seq<Task>>)
    requires Submits(s, origin, todo) && t.submitted == s.submitted && |t.clients| == |s.clients|
    requires forall c :: 0 <= c < |s.clients| ==> Left(t.clients[c]) == Left(s.clients[c])
    ensures Submits(t, origin, todo)
  {
  }

  lemma {:induction false} RunKeepsProgramOrder(s: State, acts: seq<Action>, t: State, origin: seq<nat>,
                                                todo: seq<seq<Task>>)
    returns (all: seq<nat>)
    requires Submits(s, origin, todo) && Run(s, acts, t)
    ensures Submits(t, all, todo)
    decreases |acts|
  {
    if acts == [] {
      all := origin;
    } else {
      var next := StepSubmits(s, acts[0], origin, todo);
      all := RunKeepsProgramOrder(Do(s, acts[0]), acts[1..], t, next, todo);
    }
  }

  /**
    Submission order is the order of the calls: each submitted task came from one submitting thread, and for
    every submitting thread those that came from it, followed by those it has left, are its list.
   */
  lemma {:induction false} SubmittedInProgramOrder(capacity: nat, todo: seq<seq<Task>>, acts: seq<Action>, t: State)
    returns (origin: seq<nat>)
    requires Run(Init(capacity, todo), acts, t)
    ensures |origin| == |t.submitted| && |t.clients| == |todo|
    ensures forall k :: 0 <= k < |origin| ==> origin[k] < |todo| && t.submitted[k] in todo[origin[k]]
    ensures forall c :: 0 <= c < |todo| ==> From(c, origin, t.submitted) + Left(t.clients[c]) == todo[c]
  {
    var s := Init(capacity, todo);
    assert forall c :: 0 <= c < |todo| ==> [] + Left(s.clients[c]) == todo[c];
    origin := RunKeepsProgramOrder(s, acts, t, [], todo);
    forall k | 0 <= k < |origin| ensures t.submitted[k] in todo[origin[k]] {
      InFrom(origin, t.submitted, k);
      assert t.submitted[k] in From(origin[k], origin, t.submitted) + Left(t.clients[origin[k]]);
    }
  }

  lemma {:induction false} InFrom(origin: seq<nat>, tasks: seq<Task>, k: nat)
    requires |origin| == |tasks| && k < |origin|
    ensures tasks[k] in From(origin[k], origin, tasks)
    decreases |tasks|
  {
    if k < |tasks| - 1 {
      InFrom(origin[..|tasks| - 1], tasks[..|tasks| - 1], k);
    }
  }

  /** Those of `tasks` that occur in `own`. */
  function Among(own: seq<Task>, tasks: seq<Task>): seq<Task> {
    if tasks == [] then []
    else Among(own, tasks[..|tasks| - 1]) + if tasks[|tasks| - 1] in own then [tasks[|tasks| - 1]] else []
  }

  lemma {:induction false} AmongIsFrom(own: seq<Task>, c: nat, origin: seq<nat>, tasks: seq<Task>)
    requires |origin| == |tasks| && forall k :: 0 <= k < |origin| ==> (origin[k] == c <==> tasks[k] in own)
    ensures Among(own, tasks) == From(c, origin, tasks)
    decreases |tasks|
  {
    if tasks != [] {
      AmongIsFrom(own, c, origin[..|tasks| - 1], tasks[..|tasks| - 1]);
    }
  }

  /** A thread that shares no task with others finds its own tasks submitted in the order of its calls. */
  lemma {:induction false} OwnTasksInOrder(capacity: nat, todo: seq<seq<Task>>, acts: seq<Action>, t: State, c: nat)
    requires Run(Init(capacity, todo), acts, t) && c < |todo|
    requires forall d, x :: 0 <= d < |todo| && d != c && x in todo[d] ==> x !in todo[c]
    ensures Among(todo[c], t.submitted) <= todo[c]
    ensures ClientsIdle(t) ==> Among(todo[c], t.submitted) == todo[c]
  {
    var origin := SubmittedInProgramOrder(capacity, todo, acts, t);
    AmongIsFrom(todo[c], c, origin, t.submitted);
    assert From(c, origin, t.submitted) + Left(t.clients[c]) == todo[c];
    if ClientsIdle(t) {
      assert Idle(t.clients[c]);
    }
  }

  /**
    With one submitting thread, tasks are put on the queue and leave it in the order of its calls, and a
    single worker executes them in that order.
   */
  lemma {:induction false} FirstComeFirstServed(capacity: nat, todo: seq<Task>, acts: seq<Action>, t: State)
    requires Run(Init(capacity, [todo]), acts, t)
    ensures t.submitted <= todo && t.dequeued <= todo && t.dequeued + t.queue <= todo
    ensures ClientsIdle(t) ==> t.submitted == todo
    ensures capacity == 1 ==> t.executed <= todo
    ensures capacity == 1 && Complete(t) ==> t.executed == todo
  {
    Reachable(capacity, [todo], acts, t);
    ExactlyOnceInOrder(capacity, [todo], acts, t);
    var origin := SubmittedInProgramOrder(capacity, [todo], acts, t);
    FromAll(origin, t.submitted);
    assert t.submitted + Left(t.clients[0]) == todo;
    if ClientsIdle(t) {
      assert Idle(t.clients[0]);
    }
    if capacity == 1 && Complete(t) {
      CompleteIsDrained(t);
      assert HandSeq(t.workers[0]) == [];
    }
  }

  lemma {:induction false} FromAll(origin: seq<nat>, tasks: seq<Task>)
    requires |origin| == |tasks| && forall k :: 0 <= k < |origin| ==> origin[k] == 0
    ensures From(0, origin, tasks) == tasks
    decreases |tasks|
  {
    if tasks != [] {
      FromAll(origin[..|tasks| - 1], tasks[..|tasks| - 1]);
    }
  }

  /** A worker that runs a task does not own the mutex and waits for nobody. */
  lemma {:induction false} TasksRunUnlocked(capacity: nat, todo: seq<seq<Task>>, acts: seq<Action>, t: State, w: nat)
    requires Run(Init(capacity, todo), acts, t) && w < |t.workers| && t.workers[w].Running?
    ensures t.mutex != Some(WorkerThread(w)) && WorkerEnabled(t, w)
  {
    Reachable(capacity, todo, acts, t);
  }

  // ----- Wake-ups

  /**
    No lost wake-up: while a worker sleeps there are at most as many queued tasks as workers on their
    way to test the queue; the bound is one looser only between `emplace` and the signal.
   */
  lemma {:induction false} NoLostWakeup(capacity: nat, todo: seq<seq<Task>>, acts: seq<Action>, t: State)
    requires Run(Init(capacity, todo), acts, t)
    ensures t.mutex == None ==> NobodySleeps(t) || |t.queue| <= SumBy(OnItsWay, t.workers)
    ensures NobodySleeps(t) || |t.queue| <= SumBy(OnItsWay, t.workers) + Slack(t)
  {
    Reachable(capacity, todo, acts, t);
  }

  /** Any single sleeper may be the one that the signal unblocks, and may as well wake up without one. */
  lemma {:induction false} AnySleeperMayWake(capacity: nat, todo: seq<seq<Task>>, acts: seq<Action>, t: State,
                                             w: nat, c: nat)
    requires Run(Init(capacity, todo), acts, t) && w < |t.workers| && t.workers[w] == Asleep
    ensures Enabled(t, SpuriousWake(w))
    ensures c < |t.clients| && t.clients[c].pc.Emplaced? ==>
              Enabled(t, RunAct(c, {w})) && Do(t, RunAct(c, {w})).workers == t.workers[w := Woken]
  {
    Reachable(capacity, todo, acts, t);
  }

  /** A queued task is never stranded: if nobody owns the mutex, some worker is awake and can move. */
  lemma {:induction false} TaskNeverStranded(capacity: nat, todo: seq<seq<Task>>, acts: seq<Action>, t: State)
    returns (w: nat)
    requires capacity >= 1 && Run(Init(capacity, todo), acts, t)
    requires t.queue != [] && t.mutex == None
    ensures WorkerEnabled(t, w)
    ensures NobodySleeps(t) || OnItsWay(t.workers[w]) == 1
  {
    Reachable(capacity, todo, acts, t);
    ServiceStarted(t);
    if NobodySleeps(t) {
      w := 0;
    } else {
      w := SumByPositive(OnItsWay, t.workers);
    }
  }

  /** Nothing is submitted before the constructor has created every worker. */
  lemma {:induction false} ServiceStarted(t: State)
    requires Inv(t) && t.queue != []
    ensures forall w :: 0 <= w < |t.workers| ==> t.workers[w] != Unborn
  {
  }

  // ----- Progress and shutdown

  /** The destructor has joined every worker. */
  predicate Complete(s: State) {
    s.owner == Joining(|s.workers|)
  }

  ghost predicate Stuck(s: State) {
    forall a :: !Enabled(s, a)
  }

  /** Short of completion some thread can move, and it need not be a spurious wake-up. */
  lemma {:induction false} SomeoneCanMove(s: State) returns (a: Action)
    requires Inv(s) && !Complete(s)
    ensures Enabled(s, a) && !a.SpuriousWake?
  {
    match s.mutex {
      case Some(WorkerThread(w)) =>
        assert OwnsMutex(s.workers[w]);
        a := WorkerAct(w);
      case Some(RunThread(c)) =>
        a := RunAct(c, Sleepers(s.workers));
      case Some(OwnerThread) =>
        a := OwnerAct;
      case None =>
        if s.owner.Joining? && s.workers[s.owner.joined] != Exited {
          a := WorkerAct(s.owner.joined);
        } else if Built(s) && !ClientsIdle(s) {
          var c :| 0 <= c < |s.clients| && !Idle(s.clients[c]);
          a := RunAct(c, {});
        } else {
          a := OwnerAct;
        }
    }
  }

  lemma {:induction false} CompleteIsStuck(s: State)
    requires Inv(s) && Complete(s)
    ensures Stuck(s)
  {
    forall a ensures !Enabled(s, a) {
      match a {
        case WorkerAct(w) =>
        case SpuriousWake(w) =>
        case RunAct(c, wake) => if c < |s.clients| { assert Idle(s.clients[c]); }
        case OwnerAct =>
      }
    }
  }

  /** Deadlock freedom: the only reachable state in which nothing can happen is the completed one. */
  lemma {:induction false} StuckOnlyWhenComplete(capacity: nat, todo: seq<seq<Task>>, acts: seq<Action>, t: State)
    requires Run(Init(capacity, todo), acts, t)
    ensures Stuck(t) <==> Complete(t)
  {
    Reachable(capacity, todo, acts, t);
    if Complete(t) {
      CompleteIsStuck(t);
    } else {
      var a := SomeoneCanMove(t);
    }
  }

  /** An upper bound on the statements a worker executes after the destructor owns the mutex, with no task left. */
  function Rank(pc: WorkerPc): int {
    match pc
    case Exited => 0
    case Leaving => 1
    case Checked => 2
    case Locked => 3
    case Start => 4
    case Woken => 4
    case Running(_) => 5
    case Asleep => 5
    case _ => 6
  }

  function OwnerRank(s: State): int {
    match s.owner
    case Stopping => |s.workers| + 4
    case StopSet => |s.workers| + 3
    case Broadcast => |s.workers| + 2
    case Joining(n) => |s.workers| + 1 - n
    case Building(_) => 0
  }

  function Measure(s: State): int {
    SumBy(Rank, s.workers) + 5 * |s.queue| + OwnerRank(s)
  }

  lemma {:induction false} WorkerDecreases(s: State, w: nat)
    requires LockInv(s) && PhaseInv(s) && WorkerInv(s) && !s.owner.Building? && WorkerEnabled(s, w)
    ensures Measure(WorkerDo(s, w)) < Measure(s)
  {
    SumByUpdate(Rank, s.workers, w, WorkerDo(s, w).workers[w]);
  }

  lemma {:induction false} SpuriousDecreases(s: State, w: nat)
    requires w < |s.workers| && s.workers[w] == Asleep
    ensures Measure(Do(s, SpuriousWake(w))) < Measure(s)
  {
    SumByUpdate(Rank, s.workers, w, Woken);
  }

  lemma {:induction false} WakeAllDecreases(workers: seq<WorkerPc>, wake: set<nat>)
    ensures SumBy(Rank, WakeAll(workers, wake)) <= SumBy(Rank, workers)
  {
    SumByMonotone(Rank, WakeAll(workers, wake), workers);
  }

  lemma {:induction false} OwnerDecreases(s: State)
    requires !s.owner.Building? && OwnerEnabled(s)
    ensures Measure(OwnerDo(s)) < Measure(s) && !OwnerDo(s).owner.Building?
  {
    WakeAllDecreases(s.workers, Sleepers(s.workers));
  }

  lemma {:induction false} ShutdownDecreases(s: State, a: Action)
    requires LockInv(s) && PhaseInv(s) && WorkerInv(s) && !s.owner.Building? && Enabled(s, a)
    ensures Measure(Do(s, a)) < Measure(s) && !Do(s, a).owner.Building?
  {
    match a {
      case WorkerAct(w) => WorkerDecreases(s, w);
      case SpuriousWake(w) => SpuriousDecreases(s, w);
      case OwnerAct => OwnerDecreases(s);
      case RunAct(c, wake) =>
    }
  }

  lemma {:induction false} MeasureNonNegative(s: State)
    requires PhaseInv(s)
    ensures Measure(s) >= 0
  {
    SumByBounds(Rank, s.workers);
  }

  /** From then on every step, spurious wake-ups included, makes the measure smaller. */
  lemma {:induction false} ShutdownStep(s: State, a: Action)
    requires Inv(s) && !s.owner.Building? && Enabled(s, a)
    ensures Inv(Do(s, a)) && !Do(s, a).owner.Building?
    ensures 0 <= Measure(Do(s, a)) < Measure(s)
    ensures |Do(s, a).workers| == |s.workers| && Do(s, a).submitted == s.submitted
  {
    StepInv(s, a);
    ShutdownDecreases(s, a);
    MeasureNonNegative(Do(s, a));
  }

  /** Every run after the destructor has locked the mutex is shorter than the measure at its start. */
  lemma {:induction false} ShutdownTerminates(s: State, acts: seq<Action>, t: State)
    requires Inv(s) && !s.owner.Building? && Run(s, acts, t)
    ensures |acts| <= Measure(s) - Measure(t) && Measure(t) >= 0
    decreases |acts|
  {
    if acts != [] {
      ShutdownStep(s, acts[0]);
      ShutdownTerminates(Do(s, acts[0]), acts[1..], t);
    } else {
      MeasureNonNegative(s);
    }
  }

  /**
    When all joins have returned every worker has exited. With at least one worker the queue is empty
    and every task of every submitting thread was executed exactly once; with none, nothing was executed.
   */
  lemma {:induction false} ShutdownDrains(capacity: nat, todo: seq<seq<Task>>, acts: seq<Action>, t: State)
    requires Run(Init(capacity, todo), acts, t) && Complete(t)
    ensures |t.workers| == capacity && forall w :: 0 <= w < capacity ==> t.workers[w] == Exited
    ensures multiset(t.submitted) == AllTasks(todo)
    ensures t.queue == [] <==> capacity >= 1 || AllTasks(todo) == multiset{}
    ensures multiset(t.executed) == if capacity >= 1 then AllTasks(todo) else multiset{}
  {
    Reachable(capacity, todo, acts, t);
    EverythingSubmitted(capacity, todo, acts, t);
    CompleteIsDrained(t);
    if capacity == 0 {
      assert t.dequeued == [] && t.submitted == t.queue;
    }
  }

  lemma {:induction false} CompleteIsDrained(s: State)
    requires Inv(s) && Complete(s)
    ensures forall w :: 0 <= w < |s.workers| ==> s.workers[w] == Exited
    ensures multiset(s.executed) == multiset(s.dequeued)
    ensures |s.workers| >= 1 ==> s.queue == [] && s.dequeued == s.submitted
  {
    EmptyHands(s);
    if |s.workers| >= 1 {
      assert s.workers[0] == Exited;
    }
  }

  lemma {:induction false} EverythingSubmitted(capacity: nat, todo: seq<seq<Task>>, acts: seq<Action>, t: State)
    requires Run(Init(capacity, todo), acts, t) && ClientsIdle(t)
    ensures multiset(t.submitted) == AllTasks(todo)
  {
    Reachable(capacity, todo, acts, t);
    var s := Init(capacity, todo);
    forall x ensures multiset(t.submitted)[x] == AllTasks(todo)[x] {
      RunConservesTasks(s, acts, t, x);
      UnsubmittedAtFirst(x, todo, s.clients);
      assert forall c :: 0 <= c < |t.clients| ==> Idle(t.clients[c]);
      SumByZero(Unsubmitted(x), t.clients);
      CountIsMultiplicity(x, t.submitted);
    }
  }

  // ----- Service before destruction

  /** No worker and no submitting thread can make a statement. */
  ghost predicate Quiet(s: State) {
    && (forall w: nat :: !WorkerEnabled(s, w))
    && (forall c: nat, wake: set<nat> :: !RunEnabled(s, c, wake))
  }

  lemma {:induction false} QuietIsUnlocked(s: State)
    requires Inv(s) && Built(s) && Quiet(s)
    ensures s.mutex == None
  {
    match s.mutex {
      case Some(WorkerThread(w)) =>
        assert OwnsMutex(s.workers[w]);
        assert WorkerEnabled(s, w);
      case Some(RunThread(c)) =>
        assert s.clients[c].pc != Outside;
        assert RunEnabled(s, c, Sleepers(s.workers));
      case Some(OwnerThread) =>
      case None =>
    }
  }

  /** Then everything has been submitted and executed, and every worker sleeps. */
  lemma {:induction false} QuietIsServed(s: State)
    requires Inv(s) && Built(s) && |s.workers| >= 1 && Quiet(s)
    ensures ClientsIdle(s) && s.queue == []
    ensures forall w :: 0 <= w < |s.workers| ==> s.workers[w] == Asleep
    ensures multiset(s.executed) == multiset(s.submitted)
  {
    QuietIsUnlocked(s);
    forall c | 0 <= c < |s.clients| ensures Idle(s.clients[c]) {
      assert !RunEnabled(s, c, {});
    }
    forall w | 0 <= w < |s.workers| ensures s.workers[w] == Asleep {
      assert !WorkerEnabled(s, w);
    }
    SumByZero(OnItsWay, s.workers);
    assert s.workers[0] == Asleep;
    EmptyHands(s);
  }

  // ----- The length of a whole life

  /** The statements a worker still makes if it finds no task, but for waking up. */
  function LifeRank(pc: WorkerPc): int {
    match pc
    case Exited => 0
    case Leaving => 1
    case Asleep => 2
    case Waiting => 3
    case Checked => 3
    case Locked => 4
    case Start => 5
    case Woken => 5
    case Running(_) => 6
    case Unborn => 6
    case Popped(_) => 7
  }

  /** What one task costs at most: `run`, the way through the queue, and all workers its signal may wake. */
  function TaskCost(capacity: nat): int {
    9 + 3 * capacity
  }

  function TodoCost(todo: seq<Task>, capacity: nat): (n: int)
    ensures n >= 0 && (todo != [] ==> n >= TaskCost(capacity))
  {
    if todo == [] then 0 else TaskCost(capacity) + TodoCost(todo[1..], capacity)
  }

  /** How much of the current task's cost a call of `run` has used up. */
  function Spent(pc: RunPc, capacity: nat): int {
    match pc
    case Outside => 0
    case Holding => 1
    case Emplaced => 7
    case Signalled => 8 + 3 * capacity
  }

  function RunCost(capacity: nat): Client -> int {
    (c: Client) => if c.todo == [] then 0 else TodoCost(c.todo, capacity) - Spent(c.pc, capacity)
  }

  /** The statements of the owner, and all workers its broadcast may wake. */
  function OwnerCost(owner: OwnerPc, capacity: nat): int {
    match owner
    case Building(_) => 4 * capacity + 6
    case Stopping => 4 * capacity + 5
    case StopSet => 4 * capacity + 4
    case Broadcast => capacity + 3
    case Joining(n) => capacity + 2 - n
  }

  function LifeMeasure(s: State): int {
    SumBy(LifeRank, s.workers) + 5 * |s.queue| + SumBy(RunCost(|s.workers|), s.clients)
      + OwnerCost(s.owner, |s.workers|)
  }

  lemma {:induction false} LifeMeasureNonNegative(s: State)
    requires PhaseInv(s)
    ensures LifeMeasure(s) >= 0
  {
    SumByBounds(LifeRank, s.workers);
    SumByBounds(RunCost(|s.workers|), s.clients);
  }

  lemma {:induction false} WorkerLives(s: State, w: nat)
    requires WorkerEnabled(s, w)
    ensures LifeMeasure(WorkerDo(s, w)) < LifeMeasure(s)
  {
    SumByUpdate(LifeRank, s.workers, w, WorkerDo(s, w).workers[w]);
  }

  /** What each statement of `run` uses up of the current task's cost. */
  function Share(pc: RunPc, capacity: nat): int {
    match pc
    case Outside => 1
    case Holding => 6
    case Emplaced => 1 + 3 * capacity
    case Signalled => 1
  }

  lemma {:induction false} RunSpends(s: State, c: nat, wake: set<nat>)
    requires RunEnabled(s, c, wake)
    ensures RunCost(|s.workers|)(RunDo(s, c, wake).clients[c])
         == RunCost(|s.workers|)(s.clients[c]) - Share(s.clients[c].pc, |s.workers|)
  {
    var client, next := s.clients[c], RunDo(s, c, wake).clients[c];
    if client.pc.Signalled? {
      assert next == Client(client.todo[1..], Outside);
    } else {
      assert next.todo == client.todo;
    }
  }

  lemma {:induction false} WakingCosts(workers: seq<WorkerPc>, wake: set<nat>)
    ensures SumBy(LifeRank, WakeAll(workers, wake)) <= SumBy(LifeRank, workers) + 3 * |workers|
  {
    SumByGrowth(LifeRank, workers, WakeAll(workers, wake), 3);
  }

  lemma {:induction false} RunLives(s: State, c: nat, wake: set<nat>)
    requires RunEnabled(s, c, wake)
    ensures LifeMeasure(RunDo(s, c, wake)) < LifeMeasure(s)
  {
    SumByUpdate(RunCost(|s.workers|), s.clients, c, RunDo(s, c, wake).clients[c]);
    RunSpends(s, c, wake);
    if s.clients[c].pc.Emplaced? {
      WakingCosts(s.workers, wake);
    }
  }

  lemma {:induction false} OwnerLives(s: State)
    requires PhaseInv(s) && OwnerEnabled(s)
    ensures LifeMeasure(OwnerDo(s)) < LifeMeasure(s)
  {
    if s.owner.Building? && s.owner.created < |s.workers| {
      SumByUpdate(LifeRank, s.workers, s.owner.created, Start);
    } else if s.owner.StopSet? {
      WakingCosts(s.workers, Sleepers(s.workers));
    }
  }

  function Spurious(a: Action): int {
    if a.SpuriousWake? then 1 else 0
  }

  /** Every step of any thread makes the measure smaller, but for a spurious wake-up, which adds three. */
  lemma {:induction false} LifeStep(s: State, a: Action)
    requires PhaseInv(s) && Enabled(s, a)
    ensures LifeMeasure(Do(s, a)) < LifeMeasure(s) + 4 * Spurious(a)
  {
    match a {
      case WorkerAct(w) => WorkerLives(s, w);
      case RunAct(c, wake) => RunLives(s, c, wake);
      case OwnerAct => OwnerLives(s);
      case SpuriousWake(w) => SumByUpdate(LifeRank, s.workers, w, Woken);
    }
  }

  lemma {:induction false} RunLength(s: State, acts: seq<Action>, t: State)
    requires Inv(s) && Run(s, acts, t)
    ensures |acts| + LifeMeasure(t) <= LifeMeasure(s) + 4 * SumBy(Spurious, acts)
    decreases |acts|
  {
    if acts != [] {
      LifeStep(s, acts[0]);
      StepInv(s, acts[0]);
      RunLength(Do(s, acts[0]), acts[1..], t);
    }
  }

  /**
    A whole life of the pool, from construction on, has at most a fixed number of statements plus four for
    every spurious wake-up; where it cannot go on the destructor has returned, and with at least one worker
    every task of every submitting thread has been executed exactly once.
   */
  lemma {:induction false} LifeEndsDrained(capacity: nat, todo: seq<seq<Task>>, acts: seq<Action>, t: State)
    requires Run(Init(capacity, todo), acts, t)
    ensures |acts| <= LifeMeasure(Init(capacity, todo)) + 4 * SumBy(Spurious, acts)
    ensures Stuck(t) ==> Complete(t)
    ensures Stuck(t) && capacity >= 1 ==> t.queue == [] && multiset(t.executed) == AllTasks(todo)
  {
    InitInv(capacity, todo);
    RunLength(Init(capacity, todo), acts, t);
    Reachable(capacity, todo, acts, t);
    LifeMeasureNonNegative(t);
    StuckOnlyWhenComplete(capacity, todo, acts, t);
    if Stuck(t) {
      ShutdownDrains(capacity, todo, acts, t);
    }
  }

  /**
    Nothing waits for the destructor: where, in service, no worker and no submitting thread can go on, every
    task of every submitting thread has been executed exactly once.
   */
  lemma {:induction false} ServiceRunsEverything(capacity: nat, todo: seq<seq<Task>>, acts: seq<Action>, t: State)
    requires capacity >= 1 && Run(Init(capacity, todo), acts, t) && Built(t) && Quiet(t)
    ensures t.queue == [] && ClientsIdle(t) && multiset(t.executed) == AllTasks(todo)
  {
    Reachable(capacity, todo, acts, t);
    QuietIsServed(t);
    EverythingSubmitted(capacity, todo, acts, t);
  }

  /** A pool without workers shuts down with the task of its only submitting thread still queued. */
  lemma {:induction false} NoWorkersNoWork(x: Task) returns (acts: seq<Action>, t: State)
    ensures Run(Init(0, [[x]]), acts, t) && Complete(t)
    ensures t.queue == [x] && t.executed == []
  {
    var s0 := Init(0, [[x]]);
    var s1 := Do(s0, RunAct(0, {}));
    var s2 := Do(s1, RunAct(0, {}));
    var s3 := Do(s2, RunAct(0, {}));
    var s4 := Do(s3, RunAct(0, {}));
    var s5 := Do(s4, OwnerAct);
    var s6 := Do(s5, OwnerAct);
    var s7 := Do(s6, OwnerAct);
    t := Do(s7, OwnerAct);
    acts := [];
    acts := RunPrepend(s7, OwnerAct, acts, t);
    acts := RunPrepend(s6, OwnerAct, acts, t);
    acts := RunPrepend(s5, OwnerAct, acts, t);
    acts := RunPrepend(s4, OwnerAct, acts, t);
    acts := RunPrepend(s3, RunAct(0, {}), acts, t);
    acts := RunPrepend(s2, RunAct(0, {}), acts, t);
    acts := RunPrepend(s1, RunAct(0, {}), acts, t);
    acts := RunPrepend(s0, RunAct(0, {}), acts, t);
  }

  lemma {:induction false} RunPrepend(s: State, a: Action, acts: seq<Action>, t: State) returns (all: seq<Action>)
    requires Enabled(s, a) && Run(Do(s, a), acts, t)
    ensures Run(s, all, t)
  {
    all := [a] + acts;
    assert all[1..] == acts;
  }

  // ----- The shared object, updated in place

  /** The pool itself; every method is one atomic statement of the thread it is named after. */
  class Scheduler {
    var taskQueue: seq<Task>
    var stop: bool
    var queueMutex: Option<Thread>
    var threads: seq<WorkerPc>
    var runners: seq<Client>
    var owner: OwnerPc
    var submitted: seq<Task>
    var dequeued: seq<Task>
    var executed: seq<Task>

    function View(): State
      reads this
    {
      State(taskQueue, stop, queueMutex, threads, runners, owner, submitted, dequeued, executed)
    }

    ghost predicate Valid()
      reads this
    {
      Inv(View())
    }

    constructor (capacity: nat, todo: seq<seq<Task>>)
      ensures View() == Init(capacity, todo) && Valid()
    {
      taskQueue, stop, queueMutex := [], false, None;
      threads := seq(capacity, _ => Unborn);
      runners := seq(|todo|, (c: nat) requires c < |todo| => Client(todo[c], Outside));
      owner := Building(0);
      submitted, dequeued, executed := [], [], [];
      InitInv(capacity, todo);
    }

    /** The next statement of `worker_thread`, run by worker `w`. */
    method WorkerThread(w: nat)
      requires WorkerEnabled(View(), w)
      modifies this
      ensures View() == WorkerDo(old(View()), w)
      ensures if old(threads[w]).Checked? && old(taskQueue) != [] then [threads[w].task] + taskQueue == old(taskQueue)
              else taskQueue == old(taskQueue)
    {
      var pc := threads[w];
      if pc == Start || pc == Woken {
        queueMutex := Some(Thread.WorkerThread(w));
        pc := Locked;
      } else if pc == Locked {
        pc := if !stop && taskQueue == [] then Waiting else Checked;
      } else if pc == Waiting {
        queueMutex := None;
        pc := Asleep;
      } else if pc == Checked {
        if stop && taskQueue == [] {
          pc := Leaving;
        } else {
          var task := taskQueue[0];
          taskQueue := taskQueue[1..];
          dequeued := dequeued + [task];
          pc := Popped(task);
        }
      } else if pc == Leaving {
        queueMutex := None;
        pc := Exited;
      } else if pc.Popped? {
        queueMutex := None;
        pc := Running(pc.task);
      } else {
        executed := executed + [pc.task];
        pc := Start;
      }
      threads := threads[w := pc];
    }

    /** pthread_cond_wait returns in worker `w` without a signal. */
    method WakeSpuriously(w: nat)
      requires Enabled(View(), SpuriousWake(w))
      modifies this
      ensures View() == Do(old(View()), SpuriousWake(w))
    {
      threads := threads[w := Woken];
    }

    /** Unblocks the waiters in `wake`. */
    method Unblock(wake: set<nat>)
      modifies this`threads
      ensures threads == WakeAll(old(threads), wake)
    {
      for w := 0 to |threads|
        invariant |threads| == |old(threads)|
        invariant threads[..w] == WakeAll(old(threads), wake)[..w]
        invariant threads[w..] == old(threads)[w..]
      {
        if w in wake && threads[w] == Asleep {
          threads := threads[w := Woken];
        }
      }
    }

    /** The next statement of `run`, called by submitting thread `c`. */
    method Run(c: nat, wake: set<nat>)
      requires RunEnabled(View(), c, wake)
      modifies this
      ensures View() == RunDo(old(View()), c, wake)
      ensures var runner := old(runners[c]);
              taskQueue == if runner.pc.Holding? then old(taskQueue) + [runner.todo[0]] else old(taskQueue)
    {
      var runner := runners[c];
      match runner.pc {
        case Outside =>
          queueMutex := Some(RunThread(c));
          runner := runner.(pc := Holding);
        case Holding =>
          taskQueue := taskQueue + [runner.todo[0]];
          submitted := submitted + [runner.todo[0]];
          runner := runner.(pc := Emplaced);
        case Emplaced =>
          Unblock(wake);
          runner := runner.(pc := Signalled);
        case Signalled =>
          queueMutex := None;
          runner := Client(runner.todo[1..], Outside);
      }
      runners := runners[c := runner];
    }

    /** The next statement of the constructor or the destructor. */
    method Own()
      requires OwnerEnabled(View())
      modifies this
      ensures View() == OwnerDo(old(View()))
    {
      match owner {
        case Building(n) =>
          if n < |threads| {
            threads := threads[n := Start];
            owner := Building(n + 1);
          } else {
            queueMutex := Some(OwnerThread);
            owner := Stopping;
          }
        case Stopping =>
          stop := true;
          owner := StopSet;
        case StopSet =>
          Unblock(Sleepers(threads));
          owner := Broadcast;
        case Broadcast =>
          queueMutex := None;
          owner := Joining(0);
        case Joining(n) =>
          owner := Joining(n + 1);
      }
    }

    /** However the threads are scheduled after the destructor has locked the mutex, it returns drained. */
    method Drain()
      requires Valid() && !owner.Building?
      modifies this
      ensures Valid() && Complete(View())
      ensures |threads| == |old(threads)| && submitted == old(submitted)
      ensures |threads| >= 1 ==> taskQueue == [] && multiset(executed) == multiset(submitted)
    {
      while !Complete(View())
        invariant Valid() && !owner.Building?
        invariant |threads| == |old(threads)| && submitted == old(submitted)
        decreases Measure(View())
      {
        ghost var a := SomeoneCanMove(View());
        if {
          case exists w :: 0 <= w < |threads| && WorkerEnabled(View(), w) =>
            var w :| 0 <= w < |threads| && WorkerEnabled(View(), w);
            ShutdownStep(View(), WorkerAct(w));
            WorkerThread(w);
          case exists w :: 0 <= w < |threads| && threads[w] == Asleep =>
            var w :| 0 <= w < |threads| && threads[w] == Asleep;
            ShutdownStep(View(), SpuriousWake(w));
            WakeSpuriously(w);
          case OwnerEnabled(View()) =>
            ShutdownStep(View(), OwnerAct);
            Own();
        }
      }
      CompleteIsDrained(View());
    }
  }
}
