/** What holds of the accounts themselves at every lock-level step of any concurrent run of the bank. */
module BankSafety {
  import opened Collections
  import opened BankAccounts
  import opened BankConcurrency

  // ----- Conservation of money

  function Cur(b: Bill): int {
    b.cur
  }

  function Total(bills: seq<Bill>): int {
    SumBy(Cur, bills)
  }

  /** What an indivisible change adds to the bank as a whole: only enrollments and debits do. */
  function Gain(bills: seq<Bill>, a: Atom): int
    requires Fits(a, |bills|)
  {
    if a.Adjust? && MayChange(bills[a.id]) then a.delta else 0
  }

  /** Enrollments minus debits of a serial execution, account by account. */
  function Net(bills: seq<Bill>, atoms: seq<Atom>): int
    requires AllFit(atoms, |bills|)
  {
    if atoms == [] then 0
    else Net(bills, atoms[..|atoms| - 1]) + Gain(Replay(bills, atoms[..|atoms| - 1]), atoms[|atoms| - 1])
  }

  /** What a process has debited and not yet credited. */
  function InTransit(pr: Process): int {
    if Debited(pr) && pr.todo != [] && pr.todo[0].Transfer? then pr.todo[0].sum else 0
  }

  ghost predicate Conserved(s: State, bills: seq<Bill>)
    requires Refines(s, bills)
  {
    Total(s.bills) + SumBy(InTransit, s.procs) == Total(bills) + Net(bills, Serial(s.log))
  }

  /** A step moves money between the accounts and what is in transit, except for its commit's gain. */
  lemma {:induction false} StepBalance(pr: Process, bills: seq<Bill>)
    requires WellFormed(pr, |bills|) && pr.todo != [] && Knows(pr, bills)
    ensures var o := Step(pr, bills);
            && (o.event.Write? ==> o.event.id < |bills|)
            && (o.commit.Some? ==> Fits(o.commit.value, |bills|))
            && (if o.event.Write? then o.event.bill.cur - bills[o.event.id].cur else 0)
               + InTransit(o.next) - InTransit(pr)
               == if o.commit.Some? then Gain(bills, o.commit.value) else 0
  {
  }

  /** The guard of a bulk change reads the same balance in memory and in the atomic view. */
  lemma {:induction false} GainIsVisible(s: State, p: nat)
    requires Inv(s) && Enabled(s, p) && Step(s.procs[p], s.bills).commit.Some?
    ensures Fits(Step(s.procs[p], s.bills).commit.value, |s.bills|)
    ensures Gain(s.bills, Step(s.procs[p], s.bills).commit.value)
         == Gain(Abstract(s), Step(s.procs[p], s.bills).commit.value)
  {
    StepBalance(s.procs[p], s.bills);
    var a := Step(s.procs[p], s.bills).commit.value;
    if a.Adjust? {
      assert Holds(s.procs[p], a.id, |s.bills|);
    }
  }

  lemma {:induction false} StepConserves(s: State, p: nat, bills: seq<Bill>)
    requires Refines(s, bills) && Conserved(s, bills) && Enabled(s, p)
    ensures Refines(Do(s, p), bills) && Conserved(Do(s, p), bills)
  {
    var o := Step(s.procs[p], s.bills);
    StepKeepsRefines(s, p, bills);
    StepBalance(s.procs[p], s.bills);
    SumByUpdate(InTransit, s.procs, p, o.next);
    if o.event.Write? {
      SumByUpdate(Cur, s.bills, o.event.id, o.event.bill);
    }
    if o.commit.Some? {
      GainIsVisible(s, p);
      var atoms := Serial(Do(s, p).log);
      assert atoms[..|atoms| - 1] == Serial(s.log);
    }
  }

  lemma {:induction false} RunConserves(s: State, acts: seq<nat>, t: State, bills: seq<Bill>)
    requires Refines(s, bills) && Conserved(s, bills) && Run(s, acts, t)
    ensures Refines(t, bills) && Conserved(t, bills)
    decreases |acts|
  {
    if acts != [] {
      StepConserves(s, acts[0], bills);
      RunConserves(Do(s, acts[0]), acts[1..], t, bills);
    }
  }

  /**
    At every lock-level step all balances plus the amounts in transit are the initial total plus the
    enrollments minus the debits made so far; as a transfer debits first, the balances are never more.
   */
  lemma {:induction false} MoneyIsConserved(bills: seq<Bill>, programs: seq<seq<Op>>, acts: seq<nat>, t: State)
    requires Run(Init(bills, programs), acts, t)
    ensures AllFit(Serial(t.log), |bills|)
    ensures Total(t.bills) + SumBy(InTransit, t.procs) == Total(bills) + Net(bills, Serial(t.log))
    ensures Total(t.bills) <= Total(bills) + Net(bills, Serial(t.log))
  {
    var s := Init(bills, programs);
    InitRefines(bills, programs);
    SumByZero(InTransit, s.procs);
    RunConserves(s, acts, t, bills);
    forall p | 0 <= p < |t.procs| ensures InTransit(t.procs[p]) >= 0 {
      assert WellFormed(t.procs[p], |t.bills|);
    }
    SumByBounds(InTransit, t.procs);
  }

  predicate NoBulk(ops: seq<Op>) {
    forall k :: 0 <= k < |ops| ==> !IsBulk(ops[k])
  }

  lemma {:induction false} NoBulkInHistory(s: State, acts: seq<nat>, t: State)
    requires Inv(s) && Run(s, acts, t)
    requires forall p :: 0 <= p < |s.procs| ==> NoBulk(s.procs[p].todo)
    requires forall k :: 0 <= k < |s.log| ==> !s.log[k].atom.Adjust?
    ensures forall k :: 0 <= k < |t.log| ==> !t.log[k].atom.Adjust?
    decreases |acts|
  {
    if acts != [] {
      StepInv(s, acts[0]);
      StepKeepsNoBulk(s.procs[acts[0]], s.bills);
      NoBulkInHistory(Do(s, acts[0]), acts[1..], t);
    }
  }

  lemma {:induction false} StepKeepsNoBulk(pr: Process, bills: seq<Bill>)
    requires WellFormed(pr, |bills|) && pr.todo != [] && NoBulk(pr.todo)
    ensures NoBulk(Step(pr, bills).next.todo)
    ensures Step(pr, bills).commit.Some? ==> !Step(pr, bills).commit.value.Adjust?
  {
  }

  lemma {:induction false} NoAdjustNoNet(bills: seq<Bill>, atoms: seq<Atom>)
    requires AllFit(atoms, |bills|) && forall k :: 0 <= k < |atoms| ==> !atoms[k].Adjust?
    ensures Net(bills, atoms) == 0
  {
    if atoms != [] {
      NoAdjustNoNet(bills, atoms[..|atoms| - 1]);
    }
  }

  lemma {:induction false} CarrierHolds(pr: Process, size: nat)
    requires WellFormed(pr, size)
    ensures InTransit(pr) != 0 ==>
              && pr.todo != [] && pr.todo[0].Transfer?
              && InRange(pr.todo[0].from, size) && Holds(pr, pr.todo[0].from, size)
  {
  }

  predicate NoneLocked(s: State) {
    forall id :: 0 <= id < |s.locks| ==> s.locks[id] == None
  }

  lemma {:induction false} NothingInTransit(s: State)
    requires Inv(s) && NoneLocked(s)
    ensures SumBy(InTransit, s.procs) == 0
  {
    forall p | 0 <= p < |s.procs| ensures InTransit(s.procs[p]) == 0 {
      forall id | 0 <= id < |s.bills| ensures !Holds(s.procs[p], id, |s.bills|) {
        assert s.locks[id] == None;
      }
      CarrierHolds(s.procs[p], |s.bills|);
    }
    SumByZero(InTransit, s.procs);
  }

  /** Without bulk operations the total of all balances is constant whenever no mutex is locked. */
  lemma {:induction false} TransfersKeepTheTotal(bills: seq<Bill>, programs: seq<seq<Op>>, acts: seq<nat>, t: State)
    requires Run(Init(bills, programs), acts, t)
    requires forall p :: 0 <= p < |programs| ==> NoBulk(programs[p])
    requires NoneLocked(t)
    ensures Total(t.bills) == Total(bills)
  {
    var s := Init(bills, programs);
    InitInv(bills, programs);
    RunInv(s, acts, t);
    MoneyIsConserved(bills, programs, acts, t);
    NoBulkInHistory(s, acts, t);
    NoAdjustNoNet(bills, Serial(t.log));
    NothingInTransit(t);
  }

  // ----- Frozen means frozen

  /** No step of the run is one that a process satisfying `bad` makes. */
  ghost predicate Avoids(s: State, acts: seq<nat>, bad: Process -> bool)
    decreases |acts|
  {
    acts == [] || (Enabled(s, acts[0]) && !bad(s.procs[acts[0]]) && Avoids(Do(s, acts[0]), acts[1..], bad))
  }

  /** About to store `is_frozen = false` in account `id`. */
  function Thawing(id: nat): Process -> bool {
    (pr: Process) => pr.pc.Assign? && pr.todo != [] && pr.todo[0] == Defroze(id)
  }

  /** About to store `is_frozen = true` in account `id`. */
  function Freezing(id: nat): Process -> bool {
    (pr: Process) => pr.pc.Assign? && pr.todo != [] && pr.todo[0] == Froze(id)
  }

  /** What the store of each operation on one account does to memory, whoever else is under way. */
  lemma {:induction false} StoreOfOne(s: State, p: nat)
    requires Inv(s) && Enabled(s, p) && s.procs[p].pc.Assign?
    ensures var op, b := s.procs[p].todo[0], s.bills;
            && (op.Froze? ==> 0 <= op.id < |b| && Do(s, p).bills == b[op.id := b[op.id].(frozen := true)])
            && (op.Defroze? ==> 0 <= op.id < |b| && Do(s, p).bills == b[op.id := b[op.id].(frozen := false)])
            && (op.SetMinBalance? ==> 0 <= op.id < |b| && Do(s, p).bills == b[op.id := b[op.id].(min := op.sum)])
            && (op.SetMaxBalance? ==> 0 <= op.id < |b| && Do(s, p).bills == b[op.id := b[op.id].(max := op.sum)])
  {
  }

  /**
    No update is lost: a transfer that stores takes its sum from what the sender has at that moment, and adds
    it to what the receiver has at that moment, although both were read earlier; its guard still holds.
   */
  lemma {:induction false} StoreOfTransfer(s: State, p: nat)
    requires Inv(s) && Enabled(s, p) && s.procs[p].todo[0].Transfer?
    ensures var op, b, pc := s.procs[p].todo[0], s.bills, s.procs[p].pc;
            && (pc.StoreFrom? || pc.StoreTo? ==> 0 <= op.from < |b| && 0 <= op.to < |b| && op.from != op.to)
            && (pc.StoreFrom? || pc.StoreTo? ==> op.sum > 0 && !b[op.from].frozen && !b[op.to].frozen)
            && (pc.StoreFrom? ==> b[op.from].min < b[op.from].cur < b[op.from].max)
            && (pc.StoreFrom? ==> Do(s, p).bills == b[op.from := b[op.from].(cur := b[op.from].cur - op.sum)])
            && (pc.StoreTo? ==> Do(s, p).bills == b[op.to := b[op.to].(cur := b[op.to].cur + op.sum)])
            && (!pc.StoreFrom? && !pc.StoreTo? ==> Do(s, p).bills == b)
  {
    assert Knows(s.procs[p], s.bills);
  }

  /** The same of a bulk operation at one account. */
  lemma {:induction false} StoreOfBulk(s: State, p: nat)
    requires Inv(s) && Enabled(s, p) && (s.procs[p].todo[0].EnrollToAll? || s.procs[p].todo[0].DebitFromAll?)
    ensures var op, b, pc := s.procs[p].todo[0], s.bills, s.procs[p].pc;
            if pc.Store? then
              && op.sum > 0 && pc.id < |b| && !b[pc.id].frozen && b[pc.id].min < b[pc.id].cur < b[pc.id].max
              && (op.EnrollToAll? ==> Do(s, p).bills == b[pc.id := b[pc.id].(cur := b[pc.id].cur + op.sum)])
              && (op.DebitFromAll? ==> Do(s, p).bills == b[pc.id := b[pc.id].(cur := b[pc.id].cur - op.sum)])
            else Do(s, p).bills == b
  {
    assert Knows(s.procs[p], s.bills);
  }

  lemma {:induction false} FrozenStep(s: State, p: nat, id: nat)
    requires Inv(s) && Enabled(s, p) && id < |s.bills|
    requires s.bills[id].frozen && !Thawing(id)(s.procs[p])
    ensures Do(s, p).bills[id].frozen && Do(s, p).bills[id].cur == s.bills[id].cur
  {
    assert Knows(s.procs[p], s.bills);
  }

  lemma {:induction false} FrozenRun(s: State, acts: seq<nat>, t: State, id: nat)
    requires Inv(s) && Run(s, acts, t) && id < |s.bills| == |t.bills|
    requires s.bills[id].frozen && Avoids(s, acts, Thawing(id))
    ensures t.bills[id].frozen && t.bills[id].cur == s.bills[id].cur
    decreases |acts|
  {
    if acts != [] {
      FrozenStep(s, acts[0], id);
      StepInv(s, acts[0]);
      FrozenRun(Do(s, acts[0]), acts[1..], t, id);
    }
  }

  /**
    From the store of `froze` on an account until the next store of `defroze` on it its balance does not
    change, whatever transfers and bulk operations are under way or start in between.
   */
  lemma {:induction false} FrozenMeansFrozen(bills: seq<Bill>, programs: seq<seq<Op>>, before: seq<nat>, s: State,
                          p: nat, acts: seq<nat>, t: State, id: nat)
    requires id < |bills| && Run(Init(bills, programs), before, s)
    requires Enabled(s, p) && Freezing(id)(s.procs[p])
    requires Run(Do(s, p), acts, t) && Avoids(Do(s, p), acts, Thawing(id))
    ensures |s.bills| == |t.bills| == |bills|
    ensures t.bills[id].frozen && t.bills[id].cur == s.bills[id].cur
  {
    InitInv(bills, programs);
    RunInv(Init(bills, programs), before, s);
    StepInv(s, p);
    RunInv(Do(s, p), acts, t);
    FrozenRun(Do(s, p), acts, t, id);
  }

  // ----- The overdraw bound

  /** About to store a new minimum in account `id`. */
  function SettingMinimum(id: nat): Process -> bool {
    (pr: Process) => pr.pc.Assign? && pr.todo != [] && pr.todo[0].SetMinBalance? && pr.todo[0].id == id
  }

  /** No transfer or debit takes more than `most` from an account. */
  predicate AmountsAtMost(ops: seq<Op>, most: int) {
    forall k :: 0 <= k < |ops| && (ops[k].Transfer? || ops[k].DebitFromAll?) ==> ops[k].sum <= most
  }

  lemma {:induction false} OverdrawStep(s: State, p: nat, id: nat, most: int)
    requires Inv(s) && Enabled(s, p) && id < |s.bills|
    requires AmountsAtMost(s.procs[p].todo, most)
    requires s.bills[id].cur >= s.bills[id].min + 1 - most && !SettingMinimum(id)(s.procs[p])
    ensures Do(s, p).bills[id].min == s.bills[id].min
    ensures Do(s, p).bills[id].cur >= s.bills[id].min + 1 - most
    ensures AmountsAtMost(Do(s, p).procs[p].todo, most)
  {
    assert Knows(s.procs[p], s.bills);
  }

  /**
    While an account's minimum stays and no amount exceeds S, an account at or above min + 1 - S never
    falls below it, although the guard tests only the balance before the debit.
   */
  lemma {:induction false} OverdrawBound(s: State, acts: seq<nat>, t: State, id: nat, most: int)
    requires Inv(s) && Run(s, acts, t) && id < |s.bills| == |t.bills|
    requires forall p :: 0 <= p < |s.procs| ==> AmountsAtMost(s.procs[p].todo, most)
    requires Avoids(s, acts, SettingMinimum(id))
    requires s.bills[id].cur >= s.bills[id].min + 1 - most
    ensures t.bills[id].min == s.bills[id].min && t.bills[id].cur >= s.bills[id].min + 1 - most
    decreases |acts|
  {
    if acts != [] {
      OverdrawStep(s, acts[0], id, most);
      StepInv(s, acts[0]);
      OverdrawBound(Do(s, acts[0]), acts[1..], t, id, most);
    }
  }
}
