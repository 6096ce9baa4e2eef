/** The bank in shared memory, updated in place by its processes one lock-level step at a time. */
module SharedBank {
  import opened Collections
  import opened BankAccounts
  import opened BankConcurrency

  class Memory {
    const bills: array<Bill>
    const locks: array<Option<nat>>
    const procs: array<Process>
    var log: seq<Entry>

    function View(): State
      reads this, bills, locks, procs
    {
      State(bills[..], locks[..], procs[..], log)
    }

    constructor (accounts: seq<Bill>, programs: seq<seq<Op>>)
      ensures fresh(bills) && fresh(locks) && fresh(procs)
      ensures View() == Init(accounts, programs)
    {
      bills := new Bill[|accounts|](id requires 0 <= id < |accounts| => accounts[id]);
      locks := new Option<nat>[|accounts|](_ => None);
      procs := new Process[|programs|](p requires 0 <= p < |programs| => Process(programs[p], Idle));
      log := [];
      new;
      assert View() == Init(accounts, programs);
    }

    /** A lock or unlock of `transfer`, executed by process `p`; the smaller id is locked first. */
    method TransferLocks(p: nat)
      requires Enabled(View(), p)
      requires procs[p].pc in {LockFirst, LockSecond, UnlockSecond, UnlockFirst}
      modifies locks, procs
      ensures View() == Do(old(View()), p)
    {
      var pr := procs[p];
      var Transfer(from, to, _) := pr.todo[0];
      var first, second := if from < to then from else to, if from < to then to else from;
      match pr.pc {
        case LockFirst =>
          locks[first] := Some(p);
          procs[p] := pr.(pc := LockSecond);
        case LockSecond =>
          locks[second] := Some(p);
          procs[p] := pr.(pc := FromBelowMax);
        case UnlockSecond =>
          locks[second] := None;
          procs[p] := pr.(pc := UnlockFirst);
        case UnlockFirst =>
          locks[first] := None;
          procs[p] := Process(pr.todo[1..], Idle);
      }
      assert View() == Do(old(View()), p);
    }

    /** A test of `transfer`, executed by process `p`; a failed one decides that nothing is moved. */
    method TransferTests(p: nat)
      requires Enabled(View(), p)
      requires procs[p].pc in {FromBelowMax, FromAboveMin, FromNotFrozen, ToNotFrozen}
      modifies this, procs
      ensures View() == Do(old(View()), p)
    {
      var pr := procs[p];
      var Transfer(from, to, sum) := pr.todo[0];
      var next := UnlockSecond;
      match pr.pc {
        case FromBelowMax =>
          if bills[from].cur < bills[from].max {
            next := FromAboveMin;
          }
        case FromAboveMin =>
          if bills[from].cur > bills[from].min {
            next := FromNotFrozen;
          }
        case FromNotFrozen =>
          if !bills[from].frozen {
            next := ToNotFrozen;
          }
        case ToNotFrozen =>
          if !bills[to].frozen {
            next := LoadFrom;
          }
      }
      if next == UnlockSecond {
        log := log + [Entry(p, Atom.Move(from, to, sum))];
      }
      procs[p] := pr.(pc := next);
      assert View() == Do(old(View()), p);
    }

    /** A load or store of `transfer`, executed by process `p`; the last one decides that the sum is moved. */
    method TransferUpdates(p: nat)
      requires Enabled(View(), p)
      requires procs[p].pc.LoadFrom? || procs[p].pc.StoreFrom? || procs[p].pc.LoadTo? || procs[p].pc.StoreTo?
      modifies this, bills, procs
      ensures View() == Do(old(View()), p)
    {
      var pr := procs[p];
      var Transfer(from, to, sum) := pr.todo[0];
      match pr.pc {
        case LoadFrom =>
          procs[p] := pr.(pc := StoreFrom(bills[from].cur));
        case StoreFrom(balance) =>
          bills[from] := bills[from].(cur := balance - sum);
          procs[p] := pr.(pc := LoadTo);
        case LoadTo =>
          procs[p] := pr.(pc := StoreTo(bills[to].cur));
        case StoreTo(balance) =>
          bills[to] := bills[to].(cur := balance + sum);
          log := log + [Entry(p, Atom.Move(from, to, sum))];
          procs[p] := pr.(pc := UnlockSecond);
      }
      assert View() == Do(old(View()), p);
    }

    /** The next statement of `enroll_to_all` or `debit_from_all`, executed by process `p`. */
    method BulkStatement(p: nat)
      requires Enabled(View(), p) && IsBulkPc(procs[p].pc)
      modifies this, bills, locks, procs
      ensures View() == Do(old(View()), p)
    {
      var pr := procs[p];
      var id := pr.pc.id;
      var delta := if pr.todo[0].EnrollToAll? then pr.todo[0].sum else -pr.todo[0].sum;
      var next := UnlockBill(id);
      match pr.pc {
        case LockBill(_) =>
          locks[id] := Some(p);
          next := BelowMax(id);
        case BelowMax(_) =>
          if bills[id].cur < bills[id].max {
            next := AboveMin(id);
          }
        case AboveMin(_) =>
          if bills[id].cur > bills[id].min {
            next := NotFrozen(id);
          }
        case NotFrozen(_) =>
          if !bills[id].frozen {
            next := Load(id);
          }
        case Load(_) =>
          next := Store(id, bills[id].cur);
        case Store(_, balance) =>
          bills[id] := bills[id].(cur := balance + delta);
        case UnlockBill(_) =>
          locks[id] := None;
          next := if id + 1 < bills.Length then LockBill(id + 1) else Idle;
      }
      if next.UnlockBill? {
        log := log + [Entry(p, Adjust(id, delta))];
      }
      procs[p] := if next.Idle? then Process(pr.todo[1..], Idle) else pr.(pc := next);
      assert View() == Do(old(View()), p);
    }

    /** The next statement of `froze`, `defroze`, `set_min_balance` or `set_max_balance`. */
    method SingleStatement(p: nat)
      requires Enabled(View(), p) && IsSinglePc(procs[p].pc)
      modifies this, bills, locks, procs
      ensures View() == Do(old(View()), p)
    {
      var pr := procs[p];
      var id := pr.todo[0].id;
      match pr.pc {
        case LockOne =>
          locks[id] := Some(p);
          procs[p] := pr.(pc := Assign);
        case Assign =>
          match pr.todo[0] {
            case Froze(_) =>
              bills[id] := bills[id].(frozen := true);
              log := log + [Entry(p, Freeze(id, true))];
            case Defroze(_) =>
              bills[id] := bills[id].(frozen := false);
              log := log + [Entry(p, Freeze(id, false))];
            case SetMinBalance(_, sum) =>
              bills[id] := bills[id].(min := sum);
              log := log + [Entry(p, Minimum(id, sum))];
            case SetMaxBalance(_, sum) =>
              bills[id] := bills[id].(max := sum);
              log := log + [Entry(p, Maximum(id, sum))];
          }
          procs[p] := pr.(pc := UnlockOne);
        case UnlockOne =>
          locks[id] := None;
          procs[p] := Process(pr.todo[1..], Idle);
      }
      assert View() == Do(old(View()), p);
    }

    /** The argument checks of the next operation of process `p`. */
    method BeginOperation(p: nat)
      requires Enabled(View(), p) && procs[p].pc.Idle?
      modifies procs
      ensures View() == Do(old(View()), p)
    {
      var pr, size := procs[p], bills.Length;
      var next := Idle;
      match pr.todo[0] {
        case Transfer(from, to, sum) =>
          if sum > 0 {
            if from >= 0 && from < size && to >= 0 && to < size {
              next := LockFirst;
            }
          }
        case EnrollToAll(sum) =>
          if sum > 0 && 0 < size {
            next := LockBill(0);
          }
        case DebitFromAll(sum) =>
          if sum > 0 && 0 < size {
            next := LockBill(0);
          }
        case Froze(id) =>
          if id >= 0 && id < size {
            next := LockOne;
          }
        case Defroze(id) =>
          if id >= 0 && id < size {
            next := LockOne;
          }
        case SetMinBalance(id, sum) =>
          if sum > 0 && id >= 0 && id < size {
            next := LockOne;
          }
        case SetMaxBalance(id, sum) =>
          if sum > 0 && id >= 0 && id < size {
            next := LockOne;
          }
      }
      procs[p] := if next.Idle? then Process(pr.todo[1..], Idle) else pr.(pc := next);
      assert View() == Do(old(View()), p);
    }

    /** Process `p` makes its next step. */
    method Move(p: nat)
      requires Enabled(View(), p)
      modifies this, bills, locks, procs
      ensures View() == Do(old(View()), p)
    {
      if procs[p].pc.Idle? {
        BeginOperation(p);
      } else if procs[p].pc in {LockFirst, LockSecond, UnlockSecond, UnlockFirst} {
        TransferLocks(p);
      } else if procs[p].pc in {FromBelowMax, FromAboveMin, FromNotFrozen, ToNotFrozen} {
        TransferTests(p);
      } else if IsTransferPc(procs[p].pc) {
        TransferUpdates(p);
      } else if IsSinglePc(procs[p].pc) {
        SingleStatement(p);
      } else {
        BulkStatement(p);
      }
    }

    /**
      Whichever process is scheduled next, without self-transfers all processes finish, and the accounts
      are the result of some serial order of the indivisible changes of all programs.
     */
    method Serve(ghost accounts: seq<Bill>, ghost programs: seq<seq<Op>>)
      requires View() == Init(accounts, programs)
      requires forall p :: 0 <= p < |programs| ==> !HasSelfTransfer(programs[p], |accounts|)
      modifies this, bills, locks, procs
      ensures Finished(View())
      ensures AllFit(Serial(log), |accounts|) && bills[..] == Replay(accounts, Serial(log))
      ensures forall k :: 0 <= k < |log| ==> log[k].p < |programs|
      ensures forall p :: 0 <= p < |programs| ==> MadeBy(log, p) == AtomsOfAll(programs[p], |accounts|)
    {
      ghost var acts: seq<nat> := [];
      InitInv(accounts, programs);
      while exists p :: 0 <= p < procs.Length && Enabled(View(), p)
        invariant Reached(accounts, programs, acts, View())
        decreases Measure(View())
      {
        var p :| 0 <= p < procs.Length && Enabled(View(), p);
        ReachedNext(accounts, programs, acts, View(), p);
        acts := acts + [p];
        Move(p);
      }
      StuckIsServed(accounts, programs, acts, View());
    }
  }

  ghost predicate Reached(accounts: seq<Bill>, programs: seq<seq<Op>>, acts: seq<nat>, s: State) {
    Inv(s) && Run(Init(accounts, programs), acts, s)
  }

  lemma {:induction false} ReachedNext(accounts: seq<Bill>, programs: seq<seq<Op>>, acts: seq<nat>, s: State, p: nat)
    requires Reached(accounts, programs, acts, s) && Enabled(s, p)
    ensures Reached(accounts, programs, acts + [p], Do(s, p))
    ensures 0 <= Measure(Do(s, p)) < Measure(s)
  {
    RunExtend(Init(accounts, programs), acts, s, p);
    StepInv(s, p);
    StepDecreases(s, p);
    MeasureNonNegative(Do(s, p));
  }

  lemma {:induction false} StuckIsServed(accounts: seq<Bill>, programs: seq<seq<Op>>, acts: seq<nat>, s: State)
    requires forall p :: 0 <= p < |programs| ==> !HasSelfTransfer(programs[p], |accounts|)
    requires Reached(accounts, programs, acts, s) && forall p :: 0 <= p < |s.procs| ==> !Enabled(s, p)
    ensures Finished(s) && |s.bills| == |accounts|
    ensures AllFit(Serial(s.log), |accounts|) && s.bills == Replay(accounts, Serial(s.log))
    ensures forall k :: 0 <= k < |s.log| ==> s.log[k].p < |programs|
    ensures forall p :: 0 <= p < |programs| ==> MadeBy(s.log, p) == AtomsOfAll(programs[p], |accounts|)
  {
    assert Stuck(s);
    DeadlockFree(accounts, programs, acts, s);
    Serializable(accounts, programs, acts, s);
  }

  lemma {:induction false} RunExtend(s: State, acts: seq<nat>, t: State, p: nat)
    requires Run(s, acts, t) && Enabled(t, p)
    ensures Run(s, acts + [p], Do(t, p))
    decreases |acts|
  {
    if acts == [] {
      assert (acts + [p])[1..] == [];
    } else {
      RunExtend(Do(s, acts[0]), acts[1..], t, p);
      assert (acts + [p])[1..] == acts[1..] + [p];
    }
  }
}
