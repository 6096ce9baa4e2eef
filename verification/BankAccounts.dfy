/**
  The accounts of transparent_bank: what one indivisible change of the `bills` array does, which
  indivisible changes each `Bank` operation is made of, and the operations themselves as one
  process executes them undisturbed.
 */
module BankAccounts {

  import opened Ints

  datatype Bill = Bill(cur: int, min: int, max: int, frozen: bool)

  predicate InLimits(b: Bill) {
    b.cur < b.max && b.cur > b.min
  }

  /** The guard of a change of one account. */
  predicate MayChange(b: Bill) {
    InLimits(b) && !b.frozen
  }

  /** The guard of a transfer: nothing is asked of the receiver's limits. */
  predicate MayMove(from: Bill, to: Bill) {
    MayChange(from) && !to.frozen
  }

  /** An indivisible change. */
  datatype Atom =
    | Move(from: nat, to: nat, sum: int)
    | Adjust(id: nat, delta: int)
    | Freeze(id: nat, on: bool)
    | Minimum(id: nat, value: int)
    | Maximum(id: nat, value: int)

  predicate Fits(a: Atom, size: nat) {
    match a
    case Move(from, to, _) => from < size && to < size && from != to
    case _ => a.id < size
  }

  function Effect(bills: seq<Bill>, a: Atom): (r: seq<Bill>)
    requires Fits(a, |bills|)
    ensures |r| == |bills|
  {
    match a
    case Move(from, to, sum) =>
      if MayMove(bills[from], bills[to])
      then bills[from := bills[from].(cur := bills[from].cur - sum)][to := bills[to].(cur := bills[to].cur + sum)]
      else bills
    case Adjust(id, delta) =>
      if MayChange(bills[id]) then bills[id := bills[id].(cur := bills[id].cur + delta)] else bills
    case Freeze(id, on) => bills[id := bills[id].(frozen := on)]
    case Minimum(id, value) => bills[id := bills[id].(min := value)]
    case Maximum(id, value) => bills[id := bills[id].(max := value)]
  }

  ghost predicate AllFit(atoms: seq<Atom>, size: nat) {
    forall k :: 0 <= k < |atoms| ==> Fits(atoms[k], size)
  }

  /** The serial execution of `atoms`. */
  function Replay(bills: seq<Bill>, atoms: seq<Atom>): (r: seq<Bill>)
    requires AllFit(atoms, |bills|)
    ensures |r| == |bills|
  {
    if atoms == [] then bills
    else Effect(Replay(bills, atoms[..|atoms| - 1]), atoms[|atoms| - 1])
  }

  lemma {:induction false} ReplayAppend(bills: seq<Bill>, atoms: seq<Atom>, a: Atom)
    requires AllFit(atoms, |bills|) && Fits(a, |bills|)
    ensures AllFit(atoms + [a], |bills|)
    ensures Replay(bills, atoms + [a]) == Effect(Replay(bills, atoms), a)
  {
    assert (atoms + [a])[..|atoms|] == atoms;
  }

  // ----- The operations of class Bank

  datatype Op =
    | Transfer(from: int, to: int, sum: int)
    | EnrollToAll(sum: int)
    | DebitFromAll(sum: int)
    | Froze(id: int)
    | Defroze(id: int)
    | SetMinBalance(id: int, sum: int)
    | SetMaxBalance(id: int, sum: int)

  predicate InRange(id: int, size: nat) {
    0 <= id < size
  }

  predicate IsBulk(op: Op) {
    op.EnrollToAll? || op.DebitFromAll?
  }

  /** The argument checks of an operation succeed and it has at least one account to touch. */
  predicate Effective(op: Op, size: nat) {
    match op
    case Transfer(from, to, sum) => sum > 0 && InRange(from, size) && InRange(to, size)
    case EnrollToAll(sum) => sum > 0 && size > 0
    case DebitFromAll(sum) => sum > 0 && size > 0
    case Froze(id) => InRange(id, size)
    case Defroze(id) => InRange(id, size)
    case SetMinBalance(id, sum) => sum > 0 && InRange(id, size)
    case SetMaxBalance(id, sum) => sum > 0 && InRange(id, size)
  }

  /** A transfer that locks the same mutex twice. */
  predicate SelfTransfer(op: Op, size: nat) {
    op.Transfer? && Effective(op, size) && op.from == op.to
  }

  /** What a bulk operation adds to each account. */
  function Delta(op: Op): int
    requires IsBulk(op)
  {
    if op.EnrollToAll? then op.sum else -op.sum
  }

  function Bulk(size: nat, delta: int): seq<Atom> {
    seq(size, (id: nat) => Adjust(id, delta))
  }

  /** The one indivisible change of a transfer or of an operation on one account. */
  function AtomOf(op: Op, size: nat): (a: Atom)
    requires !IsBulk(op) && Effective(op, size)
  {
    match op
    case Transfer(from, to, sum) => Move(from, to, sum)
    case Froze(id) => Freeze(id, true)
    case Defroze(id) => Freeze(id, false)
    case SetMinBalance(id, sum) => Minimum(id, sum)
    case SetMaxBalance(id, sum) => Maximum(id, sum)
  }

  /** The indivisible changes of an operation, in order. */
  function Atoms(op: Op, size: nat): seq<Atom> {
    if !Effective(op, size) then []
    else if IsBulk(op) then Bulk(size, Delta(op))
    else [AtomOf(op, size)]
  }

  function Changed(b: Bill, delta: int): Bill {
    if MayChange(b) then b.(cur := b.cur + delta) else b
  }

  /** A bulk operation changes every account independently, by its own guard. */
  lemma {:induction false} BulkIsPointwise(bills: seq<Bill>, delta: int, n: nat)
    requires n <= |bills|
    ensures AllFit(Bulk(|bills|, delta)[..n], |bills|)
    ensures forall id :: 0 <= id < |bills| ==>
              var b := bills[id];
              Replay(bills, Bulk(|bills|, delta)[..n])[id]
              == if id < n && b.min < b.cur < b.max && !b.frozen then b.(cur := b.cur + delta) else b
  {
    if n > 0 {
      BulkIsPointwise(bills, delta, n - 1);
      var bulk := Bulk(|bills|, delta);
      assert bulk[..n] == bulk[..n - 1] + [bulk[n - 1]];
      ReplayAppend(bills, bulk[..n - 1], bulk[n - 1]);
    }
  }

  // ----- What the operations mean for the fields of the accounts

  /** The sender pays and the receiver gets, or nothing changes at all. */
  lemma {:induction false} TransferMeans(b: seq<Bill>, from: int, to: int, sum: int)
    requires !(sum > 0 && 0 <= from == to < |b|)
    ensures AllFit(Atoms(Transfer(from, to, sum), |b|), |b|)
    ensures Replay(b, Atoms(Transfer(from, to, sum), |b|))
         == if && sum > 0 && 0 <= from < |b| && 0 <= to < |b|
               && b[from].min < b[from].cur < b[from].max && !b[from].frozen && !b[to].frozen
            then b[from := b[from].(cur := b[from].cur - sum)][to := b[to].(cur := b[to].cur + sum)]
            else b
  {
    if sum > 0 && 0 <= from < |b| && 0 <= to < |b| {
      ReplayOne(b, Move(from, to, sum));
      MoveMeans(b, from, to, sum);
    }
  }

  lemma {:induction false} MoveMeans(b: seq<Bill>, from: nat, to: nat, sum: int)
    requires from < |b| && to < |b| && from != to
    ensures Effect(b, Move(from, to, sum))
         == if b[from].min < b[from].cur < b[from].max && !b[from].frozen && !b[to].frozen
            then b[from := b[from].(cur := b[from].cur - sum)][to := b[to].(cur := b[to].cur + sum)]
            else b
  {
  }

  lemma {:induction false} ReplayOne(b: seq<Bill>, a: Atom)
    requires Fits(a, |b|)
    ensures AllFit([a], |b|) && Replay(b, [a]) == Effect(b, a)
  {
    assert [a][..0] == [];
  }

  /** Every account on its own gains or loses the sum, by its own balance, limits and freeze. */
  lemma {:induction false} BulkMeans(b: seq<Bill>, sum: int)
    ensures AllFit(Atoms(EnrollToAll(sum), |b|), |b|) && AllFit(Atoms(DebitFromAll(sum), |b|), |b|)
    ensures forall id :: 0 <= id < |b| ==>
              Replay(b, Atoms(EnrollToAll(sum), |b|))[id]
              == if sum > 0 && b[id].min < b[id].cur < b[id].max && !b[id].frozen
                 then b[id].(cur := b[id].cur + sum) else b[id]
    ensures forall id :: 0 <= id < |b| ==>
              Replay(b, Atoms(DebitFromAll(sum), |b|))[id]
              == if sum > 0 && b[id].min < b[id].cur < b[id].max && !b[id].frozen
                 then b[id].(cur := b[id].cur - sum) else b[id]
  {
    if sum > 0 {
      BulkReplayed(b, sum);
      BulkReplayed(b, -sum);
    }
  }

  /** `froze` and `defroze` store the flag of one account. */
  lemma {:induction false} FreezeMeans(b: seq<Bill>, id: int)
    ensures AllFit(Atoms(Froze(id), |b|), |b|) && AllFit(Atoms(Defroze(id), |b|), |b|)
    ensures Replay(b, Atoms(Froze(id), |b|)) == if 0 <= id < |b| then b[id := b[id].(frozen := true)] else b
    ensures Replay(b, Atoms(Defroze(id), |b|)) == if 0 <= id < |b| then b[id := b[id].(frozen := false)] else b
  {
    if 0 <= id < |b| {
      ReplayOne(b, Freeze(id, true));
      ReplayOne(b, Freeze(id, false));
    }
  }

  /** `set_min_balance` and `set_max_balance` store one limit of one account. */
  lemma {:induction false} LimitsMean(b: seq<Bill>, id: int, sum: int)
    ensures AllFit(Atoms(SetMinBalance(id, sum), |b|), |b|) && AllFit(Atoms(SetMaxBalance(id, sum), |b|), |b|)
    ensures Replay(b, Atoms(SetMinBalance(id, sum), |b|))
         == if sum > 0 && 0 <= id < |b| then b[id := b[id].(min := sum)] else b
    ensures Replay(b, Atoms(SetMaxBalance(id, sum), |b|))
         == if sum > 0 && 0 <= id < |b| then b[id := b[id].(max := sum)] else b
  {
    if sum > 0 && 0 <= id < |b| {
      ReplayOne(b, Minimum(id, sum));
      ReplayOne(b, Maximum(id, sum));
    }
  }

  lemma {:induction false} BulkReplayed(bills: seq<Bill>, delta: int)
    ensures AllFit(Bulk(|bills|, delta), |bills|)
    ensures forall id :: 0 <= id < |bills| ==> Replay(bills, Bulk(|bills|, delta))[id] == Changed(bills[id], delta)
  {
    BulkIsPointwise(bills, delta, |bills|);
    assert Bulk(|bills|, delta)[..|bills|] == Bulk(|bills|, delta);
  }

  /** `class Bank`, as one process uses it; `locked` holds the ids whose mutex is locked. */
  class Bank {
    const size: int
    const bills: array<Bill>
    var locked: set<int>

    ghost predicate Valid() {
      bills.Length == if size < 0 then 0 else size
    }

    constructor (n: int)
      ensures size == n && Valid() && locked == {} && fresh(bills)
      ensures forall id :: 0 <= id < n ==> bills[id] == Bill(0, INT_MIN, INT_MAX, false)
    {
      size := n;
      var accounts := if n < 0 then 0 else n;
      bills := new Bill[accounts](_ => Bill(0, 0, 0, false));
      locked := {};
      new;
      for ind := 0 to accounts
        invariant locked == {}
        invariant forall id :: 0 <= id < ind ==> bills[id] == Bill(0, INT_MIN, INT_MAX, false)
      {
        bills[ind] := Bill(0, INT_MIN, INT_MAX, false);
      }
    }

    /** pthread_mutex_lock; a call that finds the mutex locked never returns in a process on its own. */
    method Lock(id: int) returns (returned: bool)
      modifies this`locked
      ensures returned <==> id !in old(locked)
      ensures locked == old(locked) + {id}
    {
      returned := id !in locked;
      locked := locked + {id};
    }

    method Unlock(id: int)
      requires id in locked
      modifies this`locked
      ensures locked == old(locked) - {id}
    {
      locked := locked - {id};
    }

    /** Returns unless an account's mutex is locked twice; it then hangs with that mutex locked. */
    method Transfer(from: int, to: int, sum: int) returns (returned: bool)
      requires Valid() && locked == {}
      modifies bills, this`locked
      ensures returned <==> !(sum > 0 && 0 <= from == to < bills.Length)
      ensures returned ==> locked == {}
      ensures !returned ==> locked == {from}
      ensures var b := old(bills[..]);
              bills[..] ==
              if && sum > 0 && 0 <= from < |b| && 0 <= to < |b| && from != to
                 && b[from].min < b[from].cur < b[from].max && !b[from].frozen && !b[to].frozen
              then b[from := b[from].(cur := b[from].cur - sum)][to := b[to].(cur := b[to].cur + sum)]
              else b
      ensures returned ==> AllFit(Atoms(Op.Transfer(from, to, sum), bills.Length), bills.Length)
      ensures returned ==> bills[..] == Replay(old(bills[..]), Atoms(Op.Transfer(from, to, sum), bills.Length))
    {
      if sum > 0 {
        if from >= 0 && from < size && to >= 0 && to < size {
          var first, second := if from < to then from else to, if from < to then to else from;
          returned := Lock(first);
          assert returned;
          returned := Lock(second);
          if !returned {
            return;
          }
          if bills[from].cur < bills[from].max && bills[from].cur > bills[from].min {
            if !bills[from].frozen && !bills[to].frozen {
              bills[from] := bills[from].(cur := bills[from].cur - sum);
              bills[to] := bills[to].(cur := bills[to].cur + sum);
            }
          }
          Unlock(second);
          Unlock(first);
        }
      }
      TransferMeans(old(bills[..]), from, to, sum);
      returned := true;
    }

    method EnrollToAll(sum: int)
      requires Valid() && locked == {}
      modifies bills, this`locked
      ensures locked == {}
      ensures AllFit(Atoms(Op.EnrollToAll(sum), bills.Length), bills.Length)
      ensures bills[..] == Replay(old(bills[..]), Atoms(Op.EnrollToAll(sum), bills.Length))
      ensures forall id :: 0 <= id < bills.Length ==>
                var b := old(bills[id]);
                bills[id] == if sum > 0 && b.min < b.cur < b.max && !b.frozen then b.(cur := b.cur + sum) else b
    {
      if sum > 0 {
        var id := 0;
        while id < size
          invariant 0 <= id <= bills.Length && locked == {}
          invariant forall k :: 0 <= k < id ==> bills[k] == Changed(old(bills[k]), sum)
          invariant forall k :: id <= k < bills.Length ==> bills[k] == old(bills[k])
        {
          var returned := Lock(id);
          assert returned;
          if id >= 0 && id < size {
            if bills[id].cur < bills[id].max && bills[id].cur > bills[id].min {
              if !bills[id].frozen {
                bills[id] := bills[id].(cur := bills[id].cur + sum);
              }
            }
          }
          Unlock(id);
          id := id + 1;
        }
      }
      BulkMeans(old(bills[..]), sum);
    }

    method DebitFromAll(sum: int)
      requires Valid() && locked == {}
      modifies bills, this`locked
      ensures locked == {}
      ensures AllFit(Atoms(Op.DebitFromAll(sum), bills.Length), bills.Length)
      ensures bills[..] == Replay(old(bills[..]), Atoms(Op.DebitFromAll(sum), bills.Length))
      ensures forall id :: 0 <= id < bills.Length ==>
                var b := old(bills[id]);
                bills[id] == if sum > 0 && b.min < b.cur < b.max && !b.frozen then b.(cur := b.cur - sum) else b
    {
      if sum > 0 {
        var id := 0;
        while id < size
          invariant 0 <= id <= bills.Length && locked == {}
          invariant forall k :: 0 <= k < id ==> bills[k] == Changed(old(bills[k]), -sum)
          invariant forall k :: id <= k < bills.Length ==> bills[k] == old(bills[k])
        {
          var returned := Lock(id);
          assert returned;
          if id >= 0 && id < size {
            if bills[id].cur < bills[id].max && bills[id].cur > bills[id].min {
              if !bills[id].frozen {
                bills[id] := bills[id].(cur := bills[id].cur - sum);
              }
            }
          }
          Unlock(id);
          id := id + 1;
        }
      }
      BulkMeans(old(bills[..]), sum);
    }

    method Froze(id: int)
      requires Valid() && locked == {}
      modifies bills, this`locked
      ensures locked == {}
      ensures var b := old(bills[..]);
              bills[..] == if 0 <= id < |b| then b[id := b[id].(frozen := true)] else b
      ensures bills[..] == Replay(old(bills[..]), Atoms(Op.Froze(id), bills.Length))
    {
      FreezeMeans(bills[..], id);
      if id >= 0 && id < size {
        var returned := Lock(id);
        assert returned;
        bills[id] := bills[id].(frozen := true);
        Unlock(id);
      }
    }

    method Defroze(id: int)
      requires Valid() && locked == {}
      modifies bills, this`locked
      ensures locked == {}
      ensures var b := old(bills[..]);
              bills[..] == if 0 <= id < |b| then b[id := b[id].(frozen := false)] else b
      ensures bills[..] == Replay(old(bills[..]), Atoms(Op.Defroze(id), bills.Length))
    {
      FreezeMeans(bills[..], id);
      if id >= 0 && id < size {
        var returned := Lock(id);
        assert returned;
        bills[id] := bills[id].(frozen := false);
        Unlock(id);
      }
    }

    method SetMinBalance(id: int, sum: int)
      requires Valid() && locked == {}
      modifies bills, this`locked
      ensures locked == {}
      ensures var b := old(bills[..]);
              bills[..] == if sum > 0 && 0 <= id < |b| then b[id := b[id].(min := sum)] else b
      ensures bills[..] == Replay(old(bills[..]), Atoms(Op.SetMinBalance(id, sum), bills.Length))
    {
      LimitsMean(bills[..], id, sum);
      if sum > 0 {
        if id >= 0 && id < size {
          var returned := Lock(id);
          assert returned;
          bills[id] := bills[id].(min := sum);
          Unlock(id);
        }
      }
    }

    method SetMaxBalance(id: int, sum: int)
      requires Valid() && locked == {}
      modifies bills, this`locked
      ensures locked == {}
      ensures var b := old(bills[..]);
              bills[..] == if sum > 0 && 0 <= id < |b| then b[id := b[id].(max := sum)] else b
      ensures bills[..] == Replay(old(bills[..]), Atoms(Op.SetMaxBalance(id, sum), bills.Length))
    {
      LimitsMean(bills[..], id, sum);
      if sum > 0 {
        if id >= 0 && id < size {
          var returned := Lock(id);
          assert returned;
          bills[id] := bills[id].(max := sum);
          Unlock(id);
        }
      }
    }
  }
}
