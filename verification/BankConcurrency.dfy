/**
  Any number of processes operating on one shared bank, interleaved at the granularity of single
  locks, tests, loads, stores and unlocks of transparent_bank/bank.cpp. Every mutex is
  process-shared and not recursive: locking one that is locked, even by the caller, blocks.
 */
module BankConcurrency {
  import opened Collections
  import opened BankAccounts

  /** What a process does next in the operation at the head of its list. */
  datatype Pc =
    | Idle
    // transfer
    | LockFirst
    | LockSecond
    | FromBelowMax
    | FromAboveMin
    | FromNotFrozen
    | ToNotFrozen
    | LoadFrom
    | StoreFrom(balance: int)
    | LoadTo
    | StoreTo(balance: int)
    | UnlockSecond
    | UnlockFirst
    // enroll_to_all and debit_from_all, at account `id`
    | LockBill(id: nat)
    | BelowMax(id: nat)
    | AboveMin(id: nat)
    | NotFrozen(id: nat)
    | Load(id: nat)
    | Store(id: nat, balance: int)
    | UnlockBill(id: nat)
    // froze, defroze, set_min_balance, set_max_balance
    | LockOne
    | Assign
    | UnlockOne

  /** A process performs the operations of `todo` in order. */
  datatype Process = Process(todo: seq<Op>, pc: Pc)

  predicate IsTransferPc(pc: Pc) {
    pc.LockFirst? || pc.LockSecond? || pc.FromBelowMax? || pc.FromAboveMin? || pc.FromNotFrozen? || pc.ToNotFrozen?
    || pc.LoadFrom? || pc.StoreFrom? || pc.LoadTo? || pc.StoreTo? || pc.UnlockSecond? || pc.UnlockFirst?
  }

  predicate IsSinglePc(pc: Pc) {
    pc.LockOne? || pc.Assign? || pc.UnlockOne?
  }

  /** The program counter is one of the operation at the head of the list. */
  predicate WellFormed(pr: Process, size: nat) {
    pr.pc.Idle? ||
    (&& pr.todo != []
     && Effective(pr.todo[0], size)
     && if IsTransferPc(pr.pc) then pr.todo[0].Transfer?
        else if IsSinglePc(pr.pc) then !pr.todo[0].Transfer? && !IsBulk(pr.todo[0])
        else IsBulk(pr.todo[0]) && pr.pc.id < size)
  }

  function First(op: Op): int
    requires op.Transfer?
  {
    if op.from < op.to then op.from else op.to
  }

  function Second(op: Op): int
    requires op.Transfer?
  {
    if op.from < op.to then op.to else op.from
  }

  /** What a process does to the shared memory in one step. */
  datatype Event =
    | Silent
    | Acquire(id: nat)
    | Release(id: nat)
    | Write(id: nat, bill: Bill)

  /** The process after its step, the effect on memory, and the indivisible change that takes effect. */
  datatype Outcome = Outcome(next: Process, event: Event, commit: Option<Atom>)

  function Finish(pr: Process): Process
    requires pr.todo != []
  {
    Process(pr.todo[1..], Idle)
  }

  function Begin(pr: Process, size: nat): Process
    requires pr.todo != []
  {
    var op := pr.todo[0];
    if !Effective(op, size) then Finish(pr)
    else pr.(pc := if op.Transfer? then LockFirst else if IsBulk(op) then LockBill(0) else LockOne)
  }

  /** Goes on to `then` if the test holds; otherwise the operation has no effect and goes on to `else`. */
  function Test(pr: Process, holds: bool, yes: Pc, no: Pc, atom: Atom): Outcome {
    if holds then Outcome(pr.(pc := yes), Silent, None) else Outcome(pr.(pc := no), Silent, Some(atom))
  }

  function TransferStep(pr: Process, bills: seq<Bill>): Outcome
    requires WellFormed(pr, |bills|) && IsTransferPc(pr.pc)
  {
    var op := pr.todo[0];
    var from, to := bills[op.from], bills[op.to];
    var atom := AtomOf(op, |bills|);
    match pr.pc
    case LockFirst => Outcome(pr.(pc := LockSecond), Acquire(First(op)), None)
    case LockSecond => Outcome(pr.(pc := FromBelowMax), Acquire(Second(op)), None)
    case FromBelowMax => Test(pr, from.cur < from.max, FromAboveMin, UnlockSecond, atom)
    case FromAboveMin => Test(pr, from.cur > from.min, FromNotFrozen, UnlockSecond, atom)
    case FromNotFrozen => Test(pr, !from.frozen, ToNotFrozen, UnlockSecond, atom)
    case ToNotFrozen => Test(pr, !to.frozen, LoadFrom, UnlockSecond, atom)
    case LoadFrom => Outcome(pr.(pc := StoreFrom(from.cur)), Silent, None)
    case StoreFrom(balance) => Outcome(pr.(pc := LoadTo), Write(op.from, from.(cur := balance - op.sum)), None)
    case LoadTo => Outcome(pr.(pc := StoreTo(to.cur)), Silent, None)
    case StoreTo(balance) => Outcome(pr.(pc := UnlockSecond), Write(op.to, to.(cur := balance + op.sum)), Some(atom))
    case UnlockSecond => Outcome(pr.(pc := UnlockFirst), Release(Second(op)), None)
    case UnlockFirst => Outcome(Finish(pr), Release(First(op)), None)
  }

  predicate IsBulkPc(pc: Pc) {
    !pc.Idle? && !IsTransferPc(pc) && !IsSinglePc(pc)
  }

  function BulkStep(pr: Process, bills: seq<Bill>): Outcome
    requires WellFormed(pr, |bills|) && IsBulkPc(pr.pc)
  {
    var id, delta := pr.pc.id, Delta(pr.todo[0]);
    var bill, atom := bills[id], Adjust(id, delta);
    match pr.pc
    case LockBill(_) => Outcome(pr.(pc := BelowMax(id)), Acquire(id), None)
    case BelowMax(_) => Test(pr, bill.cur < bill.max, AboveMin(id), UnlockBill(id), atom)
    case AboveMin(_) => Test(pr, bill.cur > bill.min, NotFrozen(id), UnlockBill(id), atom)
    case NotFrozen(_) => Test(pr, !bill.frozen, Load(id), UnlockBill(id), atom)
    case Load(_) => Outcome(pr.(pc := Store(id, bill.cur)), Silent, None)
    case Store(_, balance) =>
      Outcome(pr.(pc := UnlockBill(id)), Write(id, bill.(cur := balance + delta)), Some(atom))
    case UnlockBill(_) =>
      Outcome(if id + 1 < |bills| then pr.(pc := LockBill(id + 1)) else Finish(pr), Release(id), None)
  }

  /** The new value `froze`, `defroze`, `set_min_balance` or `set_max_balance` stores. */
  function Assigned(op: Op, bill: Bill): Bill
    requires !op.Transfer? && !IsBulk(op)
  {
    match op
    case Froze(_) => bill.(frozen := true)
    case Defroze(_) => bill.(frozen := false)
    case SetMinBalance(_, sum) => bill.(min := sum)
    case SetMaxBalance(_, sum) => bill.(max := sum)
  }

  function SingleStep(pr: Process, bills: seq<Bill>): Outcome
    requires WellFormed(pr, |bills|) && IsSinglePc(pr.pc)
  {
    var op := pr.todo[0];
    match pr.pc
    case LockOne => Outcome(pr.(pc := Assign), Acquire(op.id), None)
    case Assign => Outcome(pr.(pc := UnlockOne), Write(op.id, Assigned(op, bills[op.id])), Some(AtomOf(op, |bills|)))
    case UnlockOne => Outcome(Finish(pr), Release(op.id), None)
  }

  /** One step of a process that is not done. */
  function Step(pr: Process, bills: seq<Bill>): Outcome
    requires WellFormed(pr, |bills|) && pr.todo != []
  {
    if pr.pc.Idle? then Outcome(Begin(pr, |bills|), Silent, None)
    else if IsTransferPc(pr.pc) then TransferStep(pr, bills)
    else if IsSinglePc(pr.pc) then SingleStep(pr, bills)
    else BulkStep(pr, bills)
  }

  // ----- The shared bank

  /** The history of indivisible changes, each with the process that made it. */
  datatype Entry = Entry(p: nat, atom: Atom)

  datatype State = State(bills: seq<Bill>, locks: seq<Option<nat>>, procs: seq<Process>, log: seq<Entry>)

  function Init(bills: seq<Bill>, programs: seq<seq<Op>>): State {
    State(bills, seq(|bills|, _ => None),
          seq(|programs|, (p: nat) requires p < |programs| => Process(programs[p], Idle)), [])
  }

  predicate Enabled(s: State, p: nat) {
    && p < |s.procs|
    && s.procs[p].todo != []
    && WellFormed(s.procs[p], |s.bills|)
    && match Step(s.procs[p], s.bills).event
       case Silent => true
       case Acquire(id) => id < |s.locks| && s.locks[id] == None
       case Release(id) => id < |s.locks|
       case Write(id, _) => id < |s.bills|
  }

  function Do(s: State, p: nat): State
    requires Enabled(s, p)
  {
    var o := Step(s.procs[p], s.bills);
    State(
      if o.event.Write? then s.bills[o.event.id := o.event.bill] else s.bills,
      match o.event
      case Acquire(id) => s.locks[id := Some(p)]
      case Release(id) => s.locks[id := None]
      case _ => s.locks,
      s.procs[p := o.next],
      if o.commit.Some? then s.log + [Entry(p, o.commit.value)] else s.log)
  }

  ghost predicate Run(s: State, acts: seq<nat>, t: State)
    decreases |acts|
  {
    if acts == [] then s == t
    else Enabled(s, acts[0]) && Run(Do(s, acts[0]), acts[1..], t)
  }

  // ----- What every step keeps

  /** Process `pr` owns the mutex of account `id`. */
  predicate Holds(pr: Process, id: nat, size: nat)
    requires WellFormed(pr, size)
  {
    if pr.pc.Idle? || pr.pc.LockFirst? || pr.pc.LockBill? || pr.pc.LockOne? then false
    else if pr.pc.LockSecond? || pr.pc.UnlockFirst? then id == First(pr.todo[0])
    else if IsTransferPc(pr.pc) then id == pr.todo[0].from || id == pr.todo[0].to
    else if IsSinglePc(pr.pc) then id == pr.todo[0].id
    else id == pr.pc.id
  }

  /** What a process has established under its locks. */
  predicate Knows(pr: Process, bills: seq<Bill>)
    requires WellFormed(pr, |bills|)
  {
    if IsTransferPc(pr.pc) then
      var op := pr.todo[0];
      var from, to := bills[op.from], bills[op.to];
      var undone := from.(cur := from.cur + op.sum);
      && (pr.pc.LockFirst? || pr.pc.LockSecond? || op.from != op.to)
      && match pr.pc
         case FromAboveMin => from.cur < from.max
         case FromNotFrozen => InLimits(from)
         case ToNotFrozen => MayChange(from)
         case LoadFrom => MayMove(from, to)
         case StoreFrom(balance) => MayMove(from, to) && balance == from.cur
         case LoadTo => MayMove(undone, to)
         case StoreTo(balance) => MayMove(undone, to) && balance == to.cur
         case _ => true
    else match pr.pc
      case AboveMin(id) => bills[id].cur < bills[id].max
      case NotFrozen(id) => InLimits(bills[id])
      case Load(id) => MayChange(bills[id])
      case Store(id, balance) => MayChange(bills[id]) && balance == bills[id].cur
      case _ => true
  }

  ghost predicate Shapes(s: State) {
    && |s.locks| == |s.bills|
    && forall p :: 0 <= p < |s.procs| ==> WellFormed(s.procs[p], |s.bills|)
  }

  /** Mutual exclusion: the recorded owner of a mutex is exactly the one process that holds it. */
  ghost predicate LockInv(s: State)
    requires Shapes(s)
  {
    && (forall id, p :: 0 <= id < |s.locks| && 0 <= p < |s.procs| ==>
          (Holds(s.procs[p], id, |s.bills|) <==> s.locks[id] == Some(p)))
    && (forall id :: 0 <= id < |s.locks| && s.locks[id].Some? ==> s.locks[id].value < |s.procs|)
  }

  ghost predicate KnowledgeInv(s: State)
    requires Shapes(s)
  {
    forall p :: 0 <= p < |s.procs| ==> Knows(s.procs[p], s.bills)
  }

  ghost predicate Inv(s: State) {
    Shapes(s) && LockInv(s) && KnowledgeInv(s)
  }

  lemma {:induction false} InitInv(bills: seq<Bill>, programs: seq<seq<Op>>)
    ensures Inv(Init(bills, programs))
  {
  }

  lemma {:induction false} TransferHolds(pr: Process, bills: seq<Bill>)
    requires WellFormed(pr, |bills|) && IsTransferPc(pr.pc) && Knows(pr, bills)
    ensures WellFormed(TransferStep(pr, bills).next, |bills|)
    ensures HoldsAfter(pr, TransferStep(pr, bills).next, TransferStep(pr, bills).event, |bills|)
  {
  }

  /** A step acquires and releases the mutexes it says it does, and writes only what it holds. */
  lemma {:induction false} StepHolds(pr: Process, bills: seq<Bill>)
    requires WellFormed(pr, |bills|) && pr.todo != [] && Knows(pr, bills)
    ensures WellFormed(Step(pr, bills).next, |bills|)
    ensures HoldsAfter(pr, Step(pr, bills).next, Step(pr, bills).event, |bills|)
  {
    if IsTransferPc(pr.pc) {
      TransferHolds(pr, bills);
    }
  }

  ghost predicate HoldsAfter(pr: Process, next: Process, event: Event, size: nat)
    requires WellFormed(pr, size) && WellFormed(next, size)
  {
    match event
    case Silent => forall id: nat :: Holds(next, id, size) <==> Holds(pr, id, size)
    case Acquire(k) => k < size && forall id: nat :: Holds(next, id, size) <==> (Holds(pr, id, size) || id == k)
    case Release(k) => k < size && Holds(pr, k, size)
                       && forall id: nat :: Holds(next, id, size) <==> (Holds(pr, id, size) && id != k)
    case Write(k, _) => k < size && Holds(pr, k, size)
                        && forall id: nat :: Holds(next, id, size) <==> Holds(pr, id, size)
  }

  function Written(bills: seq<Bill>, event: Event): (r: seq<Bill>)
    ensures |r| == |bills|
  {
    if event.Write? && event.id < |bills| then bills[event.id := event.bill] else bills
  }

  lemma {:induction false} TransferKnows(pr: Process, bills: seq<Bill>)
    requires WellFormed(pr, |bills|) && IsTransferPc(pr.pc) && Knows(pr, bills)
    requires var e := TransferStep(pr, bills).event; e.Acquire? ==> !Holds(pr, e.id, |bills|)
    ensures WellFormed(TransferStep(pr, bills).next, |bills|)
    ensures Knows(TransferStep(pr, bills).next, Written(bills, TransferStep(pr, bills).event))
  {
  }

  lemma {:induction false} BulkKnows(pr: Process, bills: seq<Bill>)
    requires WellFormed(pr, |bills|) && IsBulkPc(pr.pc) && Knows(pr, bills)
    ensures WellFormed(BulkStep(pr, bills).next, |bills|)
    ensures Knows(BulkStep(pr, bills).next, Written(bills, BulkStep(pr, bills).event))
  {
  }

  /** What a process knows after its own step, given that it acquires only mutexes it does not hold. */
  lemma {:induction false} StepKnows(pr: Process, bills: seq<Bill>)
    requires WellFormed(pr, |bills|) && pr.todo != [] && Knows(pr, bills)
    requires var e := Step(pr, bills).event; e.Acquire? ==> !Holds(pr, e.id, |bills|)
    ensures WellFormed(Step(pr, bills).next, |bills|)
    ensures Knows(Step(pr, bills).next, Written(bills, Step(pr, bills).event))
  {
    if IsTransferPc(pr.pc) {
      TransferKnows(pr, bills);
    } else if IsBulkPc(pr.pc) {
      BulkKnows(pr, bills);
    }
  }

  /** What a process knows depends only on accounts whose mutex it holds. */
  lemma {:induction false} KnowledgeIsStable(pr: Process, bills: seq<Bill>, other: seq<Bill>)
    requires |bills| == |other| && WellFormed(pr, |bills|) && Knows(pr, bills)
    requires forall id :: 0 <= id < |bills| && Holds(pr, id, |bills|) ==> other[id] == bills[id]
    ensures Knows(pr, other)
  {
  }

  /** Who holds one mutex after a step, seen from one process. */
  lemma {:induction false} OneLockAfter(s: State, p: nat, id: nat, q: nat)
    requires Inv(s) && Enabled(s, p) && Shapes(Do(s, p)) && id < |s.locks| && q < |s.procs|
    requires HoldsAfter(s.procs[p], Step(s.procs[p], s.bills).next, Step(s.procs[p], s.bills).event, |s.bills|)
    ensures Holds(Do(s, p).procs[q], id, |s.bills|) <==> Do(s, p).locks[id] == Some(q)
  {
    assert Holds(s.procs[q], id, |s.bills|) <==> s.locks[id] == Some(q);
    assert Holds(s.procs[p], id, |s.bills|) <==> s.locks[id] == Some(p);
  }

  lemma {:induction false} LockStep(s: State, p: nat)
    requires Inv(s) && Enabled(s, p)
    ensures Shapes(Do(s, p)) && LockInv(Do(s, p))
  {
    StepHolds(s.procs[p], s.bills);
    forall id, q | 0 <= id < |s.locks| && 0 <= q < |s.procs|
      ensures Holds(Do(s, p).procs[q], id, |s.bills|) <==> Do(s, p).locks[id] == Some(q)
    {
      OneLockAfter(s, p, id, q);
    }
  }

  lemma {:induction false} KnowledgeStep(s: State, p: nat)
    requires Inv(s) && Enabled(s, p)
    ensures Shapes(Do(s, p)) && KnowledgeInv(Do(s, p))
  {
    var t := Do(s, p);
    var e := Step(s.procs[p], s.bills).event;
    StepHolds(s.procs[p], s.bills);
    StepKnows(s.procs[p], s.bills);
    forall q | 0 <= q < |t.procs| ensures Knows(t.procs[q], t.bills) {
      if q != p {
        assert e.Write? ==> s.locks[e.id] == Some(p);
        KnowledgeIsStable(s.procs[q], s.bills, t.bills);
      }
    }
  }

  lemma {:induction false} StepInv(s: State, p: nat)
    requires Inv(s) && Enabled(s, p)
    ensures Inv(Do(s, p))
  {
    LockStep(s, p);
    KnowledgeStep(s, p);
  }

  lemma {:induction false} RunInv(s: State, acts: seq<nat>, t: State)
    requires Inv(s) && Run(s, acts, t)
    ensures Inv(t) && |t.bills| == |s.bills| && |t.procs| == |s.procs|
    decreases |acts|
  {
    if acts != [] {
      StepInv(s, acts[0]);
      RunInv(Do(s, acts[0]), acts[1..], t);
    }
  }

  // ----- Refinement of the atomic bank

  /** Between the debit and the credit of a transfer. */
  predicate Debited(pr: Process) {
    pr.pc.LoadTo? || pr.pc.StoreTo?
  }

  /** Account `id` as the atomic bank sees it, when `pr` holds its mutex. */
  function VisibleTo(pr: Process, bills: seq<Bill>, id: nat): Bill
    requires WellFormed(pr, |bills|) && id < |bills|
  {
    if Debited(pr) && pr.todo[0].from == id then bills[id].(cur := bills[id].cur + pr.todo[0].sum) else bills[id]
  }

  /** Account `id` as the atomic bank sees it: a debit does not show before its credit. */
  function Visible(s: State, id: nat): Bill
    requires Inv(s) && id < |s.bills|
  {
    match s.locks[id]
    case None => s.bills[id]
    case Some(p) => VisibleTo(s.procs[p], s.bills, id)
  }

  function Abstract(s: State): (r: seq<Bill>)
    requires Inv(s)
    ensures |r| == |s.bills|
  {
    seq(|s.bills|, (id: nat) requires id < |s.bills| => Visible(s, id))
  }

  /** `seen` is the atomic view of every account whose mutex the process holds. */
  ghost predicate Sees(pr: Process, bills: seq<Bill>, seen: seq<Bill>)
    requires WellFormed(pr, |bills|)
  {
    && |seen| == |bills|
    && forall id :: 0 <= id < |bills| && Holds(pr, id, |bills|) ==> seen[id] == VisibleTo(pr, bills, id)
  }

  function Committed(seen: seq<Bill>, commit: Option<Atom>): seq<Bill> {
    if commit.Some? && Fits(commit.value, |seen|) then Effect(seen, commit.value) else seen
  }

  /** After its step the process sees what the step commits, and the commit touches nothing else. */
  ghost predicate Commits(pr: Process, bills: seq<Bill>, o: Outcome, seen: seq<Bill>)
    requires WellFormed(pr, |bills|) && |seen| == |bills|
  {
    && WellFormed(o.next, |bills|)
    && (o.commit.Some? ==> Fits(o.commit.value, |bills|))
    && forall id :: 0 <= id < |bills| ==>
         Committed(seen, o.commit)[id] ==
           if Holds(pr, id, |bills|) then VisibleTo(o.next, Written(bills, o.event), id) else seen[id]
  }

  /** A transfer whose guard the process has found false is an indivisible change without effect. */
  lemma {:induction false} FailedTransferCommits(pr: Process, bills: seq<Bill>, seen: seq<Bill>)
    requires WellFormed(pr, |bills|) && IsTransferPc(pr.pc) && Knows(pr, bills) && Sees(pr, bills, seen)
    requires TransferStep(pr, bills).commit.Some? && !pr.pc.StoreTo?
    ensures Commits(pr, bills, TransferStep(pr, bills), seen)
  {
    var op := pr.todo[0];
    assert !MayMove(seen[op.from], seen[op.to]);
  }

  /** The credit makes the whole transfer visible. */
  lemma {:induction false} CreditCommits(pr: Process, bills: seq<Bill>, seen: seq<Bill>)
    requires WellFormed(pr, |bills|) && pr.pc.StoreTo? && Knows(pr, bills) && Sees(pr, bills, seen)
    ensures Commits(pr, bills, TransferStep(pr, bills), seen)
  {
    var op := pr.todo[0];
    assert MayMove(seen[op.from], seen[op.to]);
  }

  lemma {:induction false} TransferCommits(pr: Process, bills: seq<Bill>, seen: seq<Bill>)
    requires WellFormed(pr, |bills|) && IsTransferPc(pr.pc) && Knows(pr, bills) && Sees(pr, bills, seen)
    ensures Commits(pr, bills, TransferStep(pr, bills), seen)
  {
    if pr.pc.StoreTo? {
      CreditCommits(pr, bills, seen);
    } else if TransferStep(pr, bills).commit.Some? {
      FailedTransferCommits(pr, bills, seen);
    }
  }

  lemma {:induction false} BulkCommits(pr: Process, bills: seq<Bill>, seen: seq<Bill>)
    requires WellFormed(pr, |bills|) && IsBulkPc(pr.pc) && Knows(pr, bills) && Sees(pr, bills, seen)
    ensures Commits(pr, bills, BulkStep(pr, bills), seen)
  {
  }

  lemma {:induction false} SingleCommits(pr: Process, bills: seq<Bill>, seen: seq<Bill>)
    requires WellFormed(pr, |bills|) && IsSinglePc(pr.pc) && Knows(pr, bills) && Sees(pr, bills, seen)
    ensures Commits(pr, bills, SingleStep(pr, bills), seen)
  {
  }

  lemma {:induction false} StepCommits(pr: Process, bills: seq<Bill>, seen: seq<Bill>)
    requires WellFormed(pr, |bills|) && pr.todo != [] && Knows(pr, bills) && Sees(pr, bills, seen)
    ensures Commits(pr, bills, Step(pr, bills), seen)
  {
    if IsTransferPc(pr.pc) {
      TransferCommits(pr, bills, seen);
    } else if IsSinglePc(pr.pc) {
      SingleCommits(pr, bills, seen);
    } else if !pr.pc.Idle? {
      BulkCommits(pr, bills, seen);
    }
  }

  /** The atomic view of account `id` before and after a step of process `p`, by who holds its mutex. */
  lemma {:induction false} VisibleAfter(s: State, p: nat, id: nat)
    requires Inv(s) && Enabled(s, p) && Inv(Do(s, p)) && id < |s.bills|
    requires HoldsAfter(s.procs[p], Step(s.procs[p], s.bills).next, Step(s.procs[p], s.bills).event, |s.bills|)
    ensures Holds(s.procs[p], id, |s.bills|) ==> Visible(s, id) == VisibleTo(s.procs[p], s.bills, id)
    ensures Visible(Do(s, p), id) ==
            if Holds(s.procs[p], id, |s.bills|)
            then VisibleTo(Do(s, p).procs[p], Do(s, p).bills, id) else Visible(s, id)
  {
    assert Holds(s.procs[p], id, |s.bills|) <==> s.locks[id] == Some(p);
  }

  /** One lock-level step is either invisible to the atomic bank or one of its indivisible changes. */
  lemma {:induction false} StepRefines(s: State, p: nat)
    requires Inv(s) && Enabled(s, p)
    ensures Inv(Do(s, p))
    ensures Step(s.procs[p], s.bills).commit.Some? ==> Fits(Step(s.procs[p], s.bills).commit.value, |s.bills|)
    ensures Abstract(Do(s, p)) == Committed(Abstract(s), Step(s.procs[p], s.bills).commit)
  {
    StepInv(s, p);
    StepHolds(s.procs[p], s.bills);
    forall id | 0 <= id < |s.bills| && Holds(s.procs[p], id, |s.bills|)
      ensures Visible(s, id) == VisibleTo(s.procs[p], s.bills, id)
    {
      VisibleAfter(s, p, id);
    }
    StepCommits(s.procs[p], s.bills, Abstract(s));
    var t := Do(s, p);
    forall id | 0 <= id < |s.bills|
      ensures Abstract(t)[id] == Committed(Abstract(s), Step(s.procs[p], s.bills).commit)[id]
    {
      VisibleAfter(s, p, id);
    }
  }

  /** The indivisible changes of a history, in order. */
  function Serial(log: seq<Entry>): (r: seq<Atom>)
    ensures |r| == |log|
  {
    seq(|log|, (k: nat) requires k < |log| => log[k].atom)
  }

  /** The history replayed serially from `bills` gives the atomic view of the current state. */
  ghost predicate Refines(s: State, bills: seq<Bill>) {
    && Inv(s) && |s.bills| == |bills|
    && AllFit(Serial(s.log), |bills|)
    && Abstract(s) == Replay(bills, Serial(s.log))
  }

  lemma {:induction false} InitRefines(bills: seq<Bill>, programs: seq<seq<Op>>)
    ensures Refines(Init(bills, programs), bills)
  {
    InitInv(bills, programs);
    assert Abstract(Init(bills, programs)) == bills;
  }

  lemma {:induction false} StepKeepsRefines(s: State, p: nat, bills: seq<Bill>)
    requires Refines(s, bills) && Enabled(s, p)
    ensures Refines(Do(s, p), bills)
  {
    var t := Do(s, p);
    StepRefines(s, p);
    var commit := Step(s.procs[p], s.bills).commit;
    if commit.Some? {
      ReplayAppend(bills, Serial(s.log), commit.value);
      assert Serial(t.log) == Serial(s.log) + [commit.value];
    }
  }

  lemma {:induction false} RunKeepsRefines(s: State, acts: seq<nat>, t: State, bills: seq<Bill>)
    requires Refines(s, bills) && Run(s, acts, t)
    ensures Refines(t, bills)
    decreases |acts|
  {
    if acts != [] {
      StepKeepsRefines(s, acts[0], bills);
      RunKeepsRefines(Do(s, acts[0]), acts[1..], t, bills);
    }
  }

  // ----- The history respects every process's program

  function AtomsOfAll(ops: seq<Op>, size: nat): seq<Atom> {
    if ops == [] then [] else Atoms(ops[0], size) + AtomsOfAll(ops[1..], size)
  }

  /** The indivisible changes process `p` made, in order. */
  function MadeBy(log: seq<Entry>, p: nat): seq<Atom> {
    if log == [] then []
    else
      var before := MadeBy(log[..|log| - 1], p);
      var last := log[|log| - 1];
      if last.p == p then before + [last.atom] else before
  }

  /** The changes of a bulk operation from account `id` on, then `rest`. */
  function BulkFrom(id: nat, size: nat, delta: int, rest: seq<Atom>): seq<Atom>
    decreases size - id
  {
    if id >= size then rest else [Adjust(id, delta)] + BulkFrom(id + 1, size, delta, rest)
  }

  lemma {:induction false} BulkFromIsSuffix(id: nat, size: nat, delta: int, rest: seq<Atom>)
    requires id <= size
    ensures BulkFrom(id, size, delta, rest) == Bulk(size, delta)[id..] + rest
    decreases size - id
  {
    if id < size {
      BulkFromIsSuffix(id + 1, size, delta, rest);
      assert Bulk(size, delta)[id..] == [Adjust(id, delta)] + Bulk(size, delta)[id + 1..];
    }
  }

  /** The indivisible changes a process still has to make. */
  function Ahead(pr: Process, size: nat): seq<Atom>
    requires WellFormed(pr, size)
  {
    if pr.pc.UnlockSecond? || pr.pc.UnlockFirst? || pr.pc.UnlockOne? then AtomsOfAll(pr.todo[1..], size)
    else if IsBulkPc(pr.pc) then
      BulkFrom(if pr.pc.UnlockBill? then pr.pc.id + 1 else pr.pc.id, size, Delta(pr.todo[0]),
               AtomsOfAll(pr.todo[1..], size))
    else AtomsOfAll(pr.todo, size)
  }

  /** The changes ahead, after `commit` was made first. */
  function After(commit: Option<Atom>, rest: seq<Atom>): seq<Atom> {
    match commit case None => rest case Some(a) => [a] + rest
  }

  lemma {:induction false} BeginAhead(pr: Process, bills: seq<Bill>)
    requires pr.pc.Idle? && pr.todo != []
    ensures WellFormed(Begin(pr, |bills|), |bills|)
    ensures Ahead(pr, |bills|) == Ahead(Begin(pr, |bills|), |bills|)
  {
    var rest := AtomsOfAll(pr.todo[1..], |bills|);
    if !Effective(pr.todo[0], |bills|) {
      assert [] + rest == rest;
    } else if IsBulk(pr.todo[0]) {
      BulkFromIsSuffix(0, |bills|, Delta(pr.todo[0]), rest);
      assert Bulk(|bills|, Delta(pr.todo[0]))[0..] == Bulk(|bills|, Delta(pr.todo[0]));
    }
  }

  lemma {:induction false} TransferAhead(pr: Process, bills: seq<Bill>)
    requires WellFormed(pr, |bills|) && IsTransferPc(pr.pc)
    ensures WellFormed(TransferStep(pr, bills).next, |bills|)
    ensures Ahead(pr, |bills|) == After(TransferStep(pr, bills).commit, Ahead(TransferStep(pr, bills).next, |bills|))
  {
  }

  lemma {:induction false} BulkAhead(pr: Process, bills: seq<Bill>)
    requires WellFormed(pr, |bills|) && IsBulkPc(pr.pc)
    ensures WellFormed(BulkStep(pr, bills).next, |bills|)
    ensures Ahead(pr, |bills|) == After(BulkStep(pr, bills).commit, Ahead(BulkStep(pr, bills).next, |bills|))
  {
  }

  lemma {:induction false} SingleAhead(pr: Process, bills: seq<Bill>)
    requires WellFormed(pr, |bills|) && IsSinglePc(pr.pc)
    ensures WellFormed(SingleStep(pr, bills).next, |bills|)
    ensures Ahead(pr, |bills|) == After(SingleStep(pr, bills).commit, Ahead(SingleStep(pr, bills).next, |bills|))
  {
  }

  /** A step commits exactly the next change ahead, or none. */
  lemma {:induction false} StepAhead(pr: Process, bills: seq<Bill>)
    requires WellFormed(pr, |bills|) && pr.todo != []
    ensures WellFormed(Step(pr, bills).next, |bills|)
    ensures Ahead(pr, |bills|) == After(Step(pr, bills).commit, Ahead(Step(pr, bills).next, |bills|))
  {
    if pr.pc.Idle? {
      BeginAhead(pr, bills);
    } else if IsTransferPc(pr.pc) {
      TransferAhead(pr, bills);
    } else if IsSinglePc(pr.pc) {
      SingleAhead(pr, bills);
    } else {
      BulkAhead(pr, bills);
    }
  }

  /** A committed change moves from what is ahead of its process to what the process has made. */
  lemma {:induction false} CommitIsMade(log: seq<Entry>, p: nat, atom: Atom, q: nat, rest: seq<Atom>)
    ensures MadeBy(log + [Entry(p, atom)], q) + rest
         == MadeBy(log, q) + After(if p == q then Some(atom) else None, rest)
  {
    assert (log + [Entry(p, atom)])[..|log|] == log;
    if p == q {
      assert MadeBy(log, q) + ([atom] + rest) == (MadeBy(log, q) + [atom]) + rest;
    }
  }

  lemma {:induction false} StepKeepsOrder(s: State, p: nat, q: nat)
    requires Inv(s) && Enabled(s, p) && Inv(Do(s, p)) && q < |s.procs|
    ensures MadeBy(Do(s, p).log, q) + Ahead(Do(s, p).procs[q], |s.bills|)
         == MadeBy(s.log, q) + Ahead(s.procs[q], |s.bills|)
  {
    StepAhead(s.procs[p], s.bills);
    var commit := Step(s.procs[p], s.bills).commit;
    if commit.Some? {
      CommitIsMade(s.log, p, commit.value, q, Ahead(Do(s, p).procs[q], |s.bills|));
    }
  }

  lemma {:induction false} RunKeepsOrder(s: State, acts: seq<nat>, t: State, p: nat)
    requires Inv(s) && Inv(t) && Run(s, acts, t) && p < |s.procs| && p < |t.procs|
    ensures MadeBy(t.log, p) + Ahead(t.procs[p], |t.bills|) == MadeBy(s.log, p) + Ahead(s.procs[p], |s.bills|)
    decreases |acts|
  {
    if acts != [] {
      StepInv(s, acts[0]);
      StepKeepsOrder(s, acts[0], p);
      RunKeepsOrder(Do(s, acts[0]), acts[1..], t, p);
    }
  }

  predicate Done(pr: Process) {
    pr.todo == [] && pr.pc == Idle
  }

  ghost predicate Finished(s: State) {
    forall p :: 0 <= p < |s.procs| ==> Done(s.procs[p])
  }

  /**
    Serializability. In every reachable state there is one serial order of indivisible changes, agreeing
    with the order of each process's program, whose execution from the initial accounts gives the atomic
    view of the accounts; once all processes are done it gives the accounts themselves and is complete.
   */
  lemma {:induction false} Serializable(bills: seq<Bill>, programs: seq<seq<Op>>, acts: seq<nat>, t: State)
    requires Run(Init(bills, programs), acts, t)
    ensures Inv(t) && |t.bills| == |bills| && |t.procs| == |programs|
    ensures AllFit(Serial(t.log), |bills|) && Abstract(t) == Replay(bills, Serial(t.log))
    ensures forall k :: 0 <= k < |t.log| ==> t.log[k].p < |programs|
    ensures forall p :: 0 <= p < |programs| ==>
              MadeBy(t.log, p) + Ahead(t.procs[p], |bills|) == AtomsOfAll(programs[p], |bills|)
    ensures Finished(t) ==> t.bills == Replay(bills, Serial(t.log))
    ensures Finished(t) ==> forall p :: 0 <= p < |programs| ==> MadeBy(t.log, p) == AtomsOfAll(programs[p], |bills|)
  {
    var s := Init(bills, programs);
    InitRefines(bills, programs);
    RunInv(s, acts, t);
    RunKeepsRefines(s, acts, t, bills);
    HistoryNamesProcesses(s, acts, t);
    forall p | 0 <= p < |programs|
      ensures MadeBy(t.log, p) + Ahead(t.procs[p], |bills|) == AtomsOfAll(programs[p], |bills|)
    {
      RunKeepsOrder(s, acts, t, p);
    }
    if Finished(t) {
      QuietIsAbstract(t);
    }
  }

  /** With no mutex locked the atomic view is the memory. */
  lemma {:induction false} QuietIsAbstract(s: State)
    requires Inv(s) && Finished(s)
    ensures Abstract(s) == s.bills
  {
    forall id, p | 0 <= id < |s.bills| && 0 <= p < |s.procs| ensures !Holds(s.procs[p], id, |s.bills|) {
      assert Done(s.procs[p]);
    }
  }

  // ----- The history respects real time

  /** A step only appends to the history. */
  lemma {:induction false} HistoryGrows(s: State, acts: seq<nat>, t: State)
    requires Run(s, acts, t)
    ensures s.log <= t.log
    decreases |acts|
  {
    if acts != [] {
      HistoryGrows(Do(s, acts[0]), acts[1..], t);
    }
  }

  /** What a process still has to do is the end of its program. */
  lemma {:induction false} TodoIsSuffix(s: State, acts: seq<nat>, t: State, p: nat, program: seq<Op>, k: nat)
      returns (n: nat)
    requires Run(s, acts, t) && p < |s.procs| && k <= |program| && s.procs[p].todo == program[k..]
    ensures p < |t.procs| && n <= |program| && t.procs[p].todo == program[n..]
    decreases |acts|
  {
    if acts == [] {
      n := k;
    } else {
      var u := Do(s, acts[0]);
      var next := k;
      if u.procs[p].todo != s.procs[p].todo {
        next := k + 1;
        TodoAfter(s.procs[p], s.bills);
        assert program[k..][1..] == program[k + 1..];
      }
      n := TodoIsSuffix(u, acts[1..], t, p, program, next);
    }
  }

  lemma {:induction false} TodoAfter(pr: Process, bills: seq<Bill>)
    requires WellFormed(pr, |bills|) && pr.todo != []
    ensures Step(pr, bills).next.todo == pr.todo || Step(pr, bills).next.todo == pr.todo[1..]
  {
  }

  lemma {:induction false} AtomsOfAllAppend(before: seq<Op>, after: seq<Op>, size: nat)
    ensures AtomsOfAll(before + after, size) == AtomsOfAll(before, size) + AtomsOfAll(after, size)
    decreases |before|
  {
    if before == [] {
      assert before + after == after;
      assert [] + AtomsOfAll(after, size) == AtomsOfAll(after, size);
    } else {
      assert (before + after)[1..] == before[1..] + after;
      AtomsOfAllAppend(before[1..], after, size);
      assert Atoms(before[0], size) + (AtomsOfAll(before[1..], size) + AtomsOfAll(after, size))
          == Atoms(before[0], size) + AtomsOfAll(before[1..], size) + AtomsOfAll(after, size);
    }
  }

  /** The changes ahead are the end of those of the current operation, then those of all later ones. */
  lemma {:induction false} AheadSplits(pr: Process, size: nat) returns (made: seq<Atom>, rest: seq<Atom>)
    requires WellFormed(pr, size) && pr.todo != []
    ensures Atoms(pr.todo[0], size) == made + rest
    ensures Ahead(pr, size) == rest + AtomsOfAll(pr.todo[1..], size)
    ensures pr.pc.Idle? ==> made == []
  {
    var atoms, later := Atoms(pr.todo[0], size), AtomsOfAll(pr.todo[1..], size);
    if pr.pc.UnlockSecond? || pr.pc.UnlockFirst? || pr.pc.UnlockOne? {
      made, rest := atoms, [];
    } else if IsBulkPc(pr.pc) {
      var id := if pr.pc.UnlockBill? then pr.pc.id + 1 else pr.pc.id;
      BulkFromIsSuffix(id, size, Delta(pr.todo[0]), later);
      made, rest := atoms[..id], atoms[id..];
    } else {
      made, rest := [], atoms;
    }
  }

  lemma {:induction false} CancelSuffix(a: seq<Atom>, b: seq<Atom>, c: seq<Atom>)
    requires a + c == b + c
    ensures a == b
  {
    assert a == (a + c)[..|a|] && b == (b + c)[..|b|];
  }

  lemma {:induction false} CancelRest(log: seq<Atom>, done: seq<Atom>, made: seq<Atom>, rest: seq<Atom>,
                                      later: seq<Atom>)
    requires log + (rest + later) == done + ((made + rest) + later)
    ensures log == done + made
    ensures done <= log && log <= done + (made + rest)
  {
    assert done + ((made + rest) + later) == (done + made) + (rest + later);
    CancelSuffix(log, done + made, rest + later);
    assert done + (made + rest) == (done + made) + rest;
  }

  /**
    When process p has finished its first k operations and is at most within the next one, the history
    holds all changes of the finished ones and none of those not begun; and it only grows. So in the
    serial order all changes of an operation that finished come before all changes of one begun later.
   */
  lemma {:induction false} RealTimeOrder(bills: seq<Bill>, programs: seq<seq<Op>>, before: seq<nat>, s: State,
                                         acts: seq<nat>, t: State, p: nat) returns (k: nat)
    requires Run(Init(bills, programs), before, s) && Run(s, acts, t) && p < |programs|
    ensures s.log <= t.log
    ensures p < |s.procs| && k <= |programs[p]| && s.procs[p].todo == programs[p][k..]
    ensures AtomsOfAll(programs[p][..k], |bills|) <= MadeBy(s.log, p)
    ensures s.procs[p].pc.Idle? ==> MadeBy(s.log, p) == AtomsOfAll(programs[p][..k], |bills|)
    ensures k < |programs[p]| ==> MadeBy(s.log, p) <= AtomsOfAll(programs[p][..k + 1], |bills|)
  {
    var program, size := programs[p], |bills|;
    HistoryGrows(s, acts, t);
    Serializable(bills, programs, before, s);
    assert program[0..] == program;
    k := TodoIsSuffix(Init(bills, programs), before, s, p, program, 0);
    MadeSoFar(program, k, s.procs[p], size, MadeBy(s.log, p));
  }

  lemma {:induction false} MadeSoFar(program: seq<Op>, k: nat, pr: Process, size: nat, log: seq<Atom>)
    requires k <= |program| && pr.todo == program[k..] && WellFormed(pr, size)
    requires log + Ahead(pr, size) == AtomsOfAll(program, size)
    ensures AtomsOfAll(program[..k], size) <= log
    ensures pr.pc.Idle? ==> log == AtomsOfAll(program[..k], size)
    ensures k < |program| ==> log <= AtomsOfAll(program[..k + 1], size)
  {
    var done := AtomsOfAll(program[..k], size);
    assert program == program[..k] + pr.todo;
    AtomsOfAllAppend(program[..k], pr.todo, size);
    if k == |program| {
      CancelSuffix(log, done, []);
    } else {
      UpToNext(program, k, size);
      var made, rest := AheadSplits(pr, size);
      CancelRest(log, done, made, rest, AtomsOfAll(pr.todo[1..], size));
    }
  }

  lemma {:induction false} UpToNext(program: seq<Op>, k: nat, size: nat)
    requires k < |program|
    ensures AtomsOfAll(program[..k + 1], size) == AtomsOfAll(program[..k], size) + Atoms(program[k], size)
  {
    assert program[..k + 1] == program[..k] + [program[k]];
    AtomsOfAllAppend(program[..k], [program[k]], size);
    AtomsOfOne(program[k], size);
  }

  lemma {:induction false} MadeByOne(log: seq<Entry>)
    requires forall k :: 0 <= k < |log| ==> log[k].p == 0
    ensures MadeBy(log, 0) == Serial(log)
    decreases |log|
  {
    if log != [] {
      MadeByOne(log[..|log| - 1]);
      assert Serial(log) == Serial(log[..|log| - 1]) + [log[|log| - 1].atom];
    }
  }

  lemma {:induction false} HistoryNamesProcesses(s: State, acts: seq<nat>, t: State)
    requires Run(s, acts, t) && forall k :: 0 <= k < |s.log| ==> s.log[k].p < |s.procs|
    ensures forall k :: 0 <= k < |t.log| ==> t.log[k].p < |s.procs|
    decreases |acts|
  {
    if acts != [] {
      HistoryNamesProcesses(Do(s, acts[0]), acts[1..], t);
    }
  }

  /** One process alone, stepped lock by lock to the end of one operation, executes what `class Bank` does. */
  lemma {:induction false} SoloRunIsTheOperation(bills: seq<Bill>, op: Op, acts: seq<nat>, t: State)
    requires Run(Init(bills, [[op]]), acts, t) && Finished(t)
    ensures AllFit(Atoms(op, |bills|), |bills|)
    ensures Serial(t.log) == Atoms(op, |bills|)
    ensures t.bills == Replay(bills, Atoms(op, |bills|))
  {
    var programs := [[op]];
    Serializable(bills, programs, acts, t);
    MadeByOne(t.log);
    AtomsOfOne(op, |bills|);
    assert MadeBy(t.log, 0) == AtomsOfAll(programs[0], |bills|);
  }

  /** The end of a transfer alone, in the fields of the accounts; a transfer to itself has no end. */
  lemma {:induction false} SoloTransfer(b: seq<Bill>, from: int, to: int, sum: int, acts: seq<nat>, t: State)
    requires Run(Init(b, [[Transfer(from, to, sum)]]), acts, t) && Finished(t)
    ensures !(sum > 0 && 0 <= from == to < |b|)
    ensures t.bills
         == if && sum > 0 && 0 <= from < |b| && 0 <= to < |b|
               && b[from].min < b[from].cur < b[from].max && !b[from].frozen && !b[to].frozen
            then b[from := b[from].(cur := b[from].cur - sum)][to := b[to].(cur := b[to].cur + sum)]
            else b
  {
    var op := Transfer(from, to, sum);
    SoloRunIsTheOperation(b, op, acts, t);
    assert Effective(op, |b|) ==> Fits(Atoms(op, |b|)[0], |b|);
    TransferMeans(b, from, to, sum);
  }

  /** The end of `enroll_to_all` or `debit_from_all` alone; the accounts are visited in increasing id. */
  lemma {:induction false} SoloBulk(b: seq<Bill>, sum: int, enroll: bool, acts: seq<nat>, t: State)
    requires Run(Init(b, [[if enroll then EnrollToAll(sum) else DebitFromAll(sum)]]), acts, t) && Finished(t)
    ensures |t.bills| == |b| && |t.log| == if sum > 0 then |b| else 0
    ensures forall id :: 0 <= id < |b| ==>
              t.bills[id] == if sum > 0 && b[id].min < b[id].cur < b[id].max && !b[id].frozen
                             then b[id].(cur := if enroll then b[id].cur + sum else b[id].cur - sum) else b[id]
    ensures forall id :: 0 <= id < |t.log| ==> t.log[id].atom == Adjust(id, if enroll then sum else -sum)
  {
    SoloRunIsTheOperation(b, if enroll then EnrollToAll(sum) else DebitFromAll(sum), acts, t);
    BulkMeans(b, sum);
    assert forall id :: 0 <= id < |t.log| ==> t.log[id].atom == Serial(t.log)[id];
  }

  /** The end of an operation on one account alone. */
  lemma {:induction false} SoloSingle(b: seq<Bill>, op: Op, acts: seq<nat>, t: State)
    requires Run(Init(b, [[op]]), acts, t) && Finished(t)
    ensures op.Froze? ==>
              t.bills == if 0 <= op.id < |b| then b[op.id := b[op.id].(frozen := true)] else b
    ensures op.Defroze? ==>
              t.bills == if 0 <= op.id < |b| then b[op.id := b[op.id].(frozen := false)] else b
    ensures op.SetMinBalance? ==>
              t.bills == if op.sum > 0 && 0 <= op.id < |b| then b[op.id := b[op.id].(min := op.sum)] else b
    ensures op.SetMaxBalance? ==>
              t.bills == if op.sum > 0 && 0 <= op.id < |b| then b[op.id := b[op.id].(max := op.sum)] else b
  {
    SoloRunIsTheOperation(b, op, acts, t);
    if op.Froze? || op.Defroze? {
      FreezeMeans(b, op.id);
    } else if op.SetMinBalance? || op.SetMaxBalance? {
      LimitsMean(b, op.id, op.sum);
    }
  }

  lemma {:induction false} AtomsOfOne(op: Op, size: nat)
    ensures AtomsOfAll([op], size) == Atoms(op, size)
  {
    assert Atoms(op, size) + AtomsOfAll([op][1..], size) == Atoms(op, size);
  }

  // ----- Termination and deadlock

  /** An upper bound on the steps of one operation, the argument checks included. */
  function OpSteps(size: nat): int {
    13 + 7 * size
  }

  function RestSteps(ops: seq<Op>, size: nat): (n: int)
    ensures n >= 0
  {
    if ops == [] then 0 else OpSteps(size) + RestSteps(ops[1..], size)
  }

  /** An upper bound on the steps left in the current operation. */
  function PcSteps(pc: Pc, size: nat): int {
    match pc
    case Idle => OpSteps(size)
    case LockFirst => 12
    case LockSecond => 11
    case FromBelowMax => 10
    case FromAboveMin => 9
    case FromNotFrozen => 8
    case ToNotFrozen => 7
    case LoadFrom => 6
    case StoreFrom(_) => 5
    case LoadTo => 4
    case StoreTo(_) => 3
    case UnlockSecond => 2
    case UnlockFirst => 1
    case LockBill(id) => 7 * (size - id)
    case BelowMax(id) => 7 * (size - id) - 1
    case AboveMin(id) => 7 * (size - id) - 2
    case NotFrozen(id) => 7 * (size - id) - 3
    case Load(id) => 7 * (size - id) - 4
    case Store(id, _) => 7 * (size - id) - 5
    case UnlockBill(id) => 7 * (size - id) - 6
    case LockOne => 3
    case Assign => 2
    case UnlockOne => 1
  }

  function StepsLeft(size: nat): Process -> int {
    (pr: Process) => if pr.todo == [] then 0 else PcSteps(pr.pc, size) + RestSteps(pr.todo[1..], size)
  }

  lemma {:induction false} TransferUsesOne(pr: Process, bills: seq<Bill>)
    requires WellFormed(pr, |bills|) && IsTransferPc(pr.pc)
    ensures StepsLeft(|bills|)(TransferStep(pr, bills).next) < StepsLeft(|bills|)(pr)
  {
  }

  lemma {:induction false} BulkUsesOne(pr: Process, bills: seq<Bill>)
    requires WellFormed(pr, |bills|) && IsBulkPc(pr.pc)
    ensures StepsLeft(|bills|)(BulkStep(pr, bills).next) < StepsLeft(|bills|)(pr)
  {
  }

  lemma {:induction false} StepUsesOne(pr: Process, bills: seq<Bill>)
    requires WellFormed(pr, |bills|) && pr.todo != []
    ensures StepsLeft(|bills|)(Step(pr, bills).next) < StepsLeft(|bills|)(pr)
  {
    if IsTransferPc(pr.pc) {
      TransferUsesOne(pr, bills);
    } else if IsBulkPc(pr.pc) {
      BulkUsesOne(pr, bills);
    }
  }

  function Measure(s: State): int {
    SumBy(StepsLeft(|s.bills|), s.procs)
  }

  lemma {:induction false} StepDecreases(s: State, p: nat)
    requires Enabled(s, p)
    ensures Measure(Do(s, p)) < Measure(s)
  {
    StepUsesOne(s.procs[p], s.bills);
    SumByUpdate(StepsLeft(|s.bills|), s.procs, p, Step(s.procs[p], s.bills).next);
  }

  lemma {:induction false} MeasureNonNegative(s: State)
    requires Shapes(s)
    ensures Measure(s) >= 0
  {
    SumByBounds(StepsLeft(|s.bills|), s.procs);
  }

  /** Whatever the schedule and the operations, every run is finite. */
  lemma {:induction false} RunsAreFinite(s: State, acts: seq<nat>, t: State)
    requires Inv(s) && Run(s, acts, t)
    ensures |acts| <= Measure(s)
    decreases |acts|
  {
    MeasureNonNegative(s);
    if acts != [] {
      StepDecreases(s, acts[0]);
      StepInv(s, acts[0]);
      RunsAreFinite(Do(s, acts[0]), acts[1..], t);
    }
  }

  ghost predicate Stuck(s: State) {
    forall p: nat :: !Enabled(s, p)
  }

  predicate HasSelfTransfer(ops: seq<Op>, size: nat) {
    exists k :: 0 <= k < |ops| && SelfTransfer(ops[k], size)
  }

  /** The account whose mutex a process is about to lock; otherwise all accounts lie behind it. */
  function Level(pr: Process, bills: seq<Bill>): nat
    requires WellFormed(pr, |bills|) && pr.todo != []
  {
    match Step(pr, bills).event case Acquire(id) => id case _ => |bills|
  }

  /**
    Without self-transfers mutexes are locked in increasing id, so following the owners of awaited
    mutexes from an unfinished process reaches one that can move.
   */
  lemma {:induction false} SomeoneCanMove(s: State, p: nat) returns (q: nat)
    requires Inv(s) && p < |s.procs| && s.procs[p].todo != []
    requires forall r :: 0 <= r < |s.procs| ==> !HasSelfTransfer(s.procs[r].todo, |s.bills|)
    ensures Enabled(s, q)
    decreases |s.bills| - Level(s.procs[p], s.bills)
  {
    StepHolds(s.procs[p], s.bills);
    if Enabled(s, p) {
      q := p;
    } else {
      var id := Step(s.procs[p], s.bills).event.id;
      q := s.locks[id].value;
      assert Holds(s.procs[q], id, |s.bills|);
      StepHolds(s.procs[q], s.bills);
      if !Enabled(s, q) {
        assert !SelfTransfer(s.procs[q].todo[0], |s.bills|);
        assert s.procs[q].pc.LockSecond?;
        q := SomeoneCanMove(s, q);
      }
    }
  }

  /** Whoever owns one mutex and waits for another is in a transfer and waits for the one with the larger id. */
  lemma {:induction false} LocksAreTakenUpwards(bills: seq<Bill>, programs: seq<seq<Op>>, acts: seq<nat>, t: State,
                                                p: nat, held: nat, awaited: nat)
    requires Run(Init(bills, programs), acts, t)
    requires p < |t.procs| && t.procs[p].todo != [] && WellFormed(t.procs[p], |t.bills|)
    requires held < |t.locks| && t.locks[held] == Some(p)
    requires Step(t.procs[p], t.bills).event == Acquire(awaited)
    ensures t.procs[p].todo[0].Transfer?
    ensures {held as int, awaited as int} == {t.procs[p].todo[0].from, t.procs[p].todo[0].to}
    ensures held <= awaited
  {
    InitInv(bills, programs);
    RunInv(Init(bills, programs), acts, t);
    assert Holds(t.procs[p], held, |t.bills|);
  }

  lemma {:induction false} StepKeepsSelfTransfer(pr: Process, bills: seq<Bill>)
    requires WellFormed(pr, |bills|) && pr.todo != [] && Knows(pr, bills)
    ensures HasSelfTransfer(Step(pr, bills).next.todo, |bills|) <==> HasSelfTransfer(pr.todo, |bills|)
  {
    if Step(pr, bills).next.todo != pr.todo {
      assert !SelfTransfer(pr.todo[0], |bills|);
      assert forall k :: 1 <= k < |pr.todo| ==> pr.todo[k] == pr.todo[1..][k - 1];
      assert forall k :: 0 <= k < |pr.todo| - 1 ==> pr.todo[1..][k] == pr.todo[k + 1];
    }
  }

  /** No process ever completes a self-transfer: it stays in the list of what is to do. */
  lemma {:induction false} SelfTransfersStay(s: State, acts: seq<nat>, t: State, p: nat)
    requires Inv(s) && Run(s, acts, t) && p < |s.procs| == |t.procs|
    ensures HasSelfTransfer(t.procs[p].todo, |s.bills|) <==> HasSelfTransfer(s.procs[p].todo, |s.bills|)
    decreases |acts|
  {
    if acts != [] {
      StepInv(s, acts[0]);
      StepKeepsSelfTransfer(s.procs[acts[0]], s.bills);
      SelfTransfersStay(Do(s, acts[0]), acts[1..], t, p);
    }
  }

  lemma {:induction false} RunToTheEnd(s: State) returns (acts: seq<nat>, t: State)
    requires Inv(s)
    ensures Run(s, acts, t) && Stuck(t)
    decreases Measure(s)
  {
    if Stuck(s) {
      acts, t := [], s;
    } else {
      var p: nat :| Enabled(s, p);
      MeasureNonNegative(s);
      StepDecreases(s, p);
      StepInv(s, p);
      var rest;
      rest, t := RunToTheEnd(Do(s, p));
      acts := [p] + rest;
      assert acts[1..] == rest;
    }
  }

  ghost predicate EveryMaximalRunFinishes(s: State) {
    forall acts, t :: Run(s, acts, t) && Stuck(t) ==> Finished(t)
  }

  /** If no program transfers between an account and itself, only the finished state is stuck. */
  lemma {:induction false} DeadlockFree(bills: seq<Bill>, programs: seq<seq<Op>>, acts: seq<nat>, t: State)
    requires forall p :: 0 <= p < |programs| ==> !HasSelfTransfer(programs[p], |bills|)
    requires Run(Init(bills, programs), acts, t)
    ensures Stuck(t) <==> Finished(t)
  {
    var s := Init(bills, programs);
    InitInv(bills, programs);
    RunInv(s, acts, t);
    forall p | 0 <= p < |t.procs| ensures !HasSelfTransfer(t.procs[p].todo, |bills|) {
      SelfTransfersStay(s, acts, t, p);
    }
    if p :| 0 <= p < |t.procs| && !Done(t.procs[p]) {
      assert WellFormed(t.procs[p], |bills|);
      var q := SomeoneCanMove(t, p);
    }
  }

  /** With an effective self-transfer in some program no run at all finishes. */
  lemma {:induction false} SelfTransferNeverFinishes(bills: seq<Bill>, programs: seq<seq<Op>>, p: nat,
                                                     acts: seq<nat>, t: State)
    requires p < |programs| && HasSelfTransfer(programs[p], |bills|)
    requires Run(Init(bills, programs), acts, t)
    ensures !Finished(t)
  {
    var s := Init(bills, programs);
    InitInv(bills, programs);
    RunInv(s, acts, t);
    SelfTransfersStay(s, acts, t, p);
    assert !Done(t.procs[p]);
  }

  /** A single transfer of 1 from account 0 to itself blocks: it reaches a stuck state, never the end. */
  lemma {:induction false} SelfTransferBlocks(bill: Bill) returns (acts: seq<nat>, t: State)
    ensures Run(Init([bill], [[Transfer(0, 0, 1)]]), acts, t) && Stuck(t)
    ensures forall acts', t' :: Run(Init([bill], [[Transfer(0, 0, 1)]]), acts', t') ==> !Finished(t')
  {
    var programs := [[Transfer(0, 0, 1)]];
    assert SelfTransfer(programs[0][0], 1);
    InitInv([bill], programs);
    acts, t := RunToTheEnd(Init([bill], programs));
    forall acts', t' | Run(Init([bill], programs), acts', t') ensures !Finished(t') {
      SelfTransferNeverFinishes([bill], programs, 0, acts', t');
    }
  }

  /**
    Exactly when the bank works to completion: every maximal run ends with all processes finished if
    and only if no program contains an effective transfer between an account and itself.
   */
  lemma {:induction false} FinishesIffNoSelfTransfer(bills: seq<Bill>, programs: seq<seq<Op>>)
    ensures EveryMaximalRunFinishes(Init(bills, programs))
       <==> forall p :: 0 <= p < |programs| ==> !HasSelfTransfer(programs[p], |bills|)
  {
    var s := Init(bills, programs);
    InitInv(bills, programs);
    if forall p :: 0 <= p < |programs| ==> !HasSelfTransfer(programs[p], |bills|) {
      forall acts, t | Run(s, acts, t) && Stuck(t) ensures Finished(t) {
        DeadlockFree(bills, programs, acts, t);
      }
    } else {
      var p :| 0 <= p < |programs| && HasSelfTransfer(programs[p], |bills|);
      var acts, t := RunToTheEnd(s);
      SelfTransferNeverFinishes(bills, programs, p, acts, t);
    }
  }
}
