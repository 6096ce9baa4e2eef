/**
  The dining philosophers of DiningPhilosophers/main.cpp: one process per philosopher and one
  binary semaphore per stick, for any number of philosophers and any number of rounds.
  One action is one call of the source: think, sem_wait, eat or sem_post.
 */
module DiningPhilosophers {
  import opened Collections

  /** The call a philosopher makes next. */
  datatype Pc = Think | WaitLeft | WaitRight | Eat | PostRight | PostLeft

  /** The locals of `philosopher(id)`, and how often it has eaten. It has exited when round is R. */
  datatype Philosopher = Philosopher(left: nat, right: nat, round: nat, pc: Pc, meals: nat)

  datatype State = State(sticks: seq<nat>, phils: seq<Philosopher>)

  /** Left and right stick in the order they are taken; philosopher 0 has them swapped. */
  function Sticks(id: nat, n: nat): (nat, nat)
    requires n > 0
  {
    if id == 0 then (Next(id, n), id) else (id, Next(id, n))
  }

  function Next(id: nat, n: nat): nat {
    if id + 1 == n then 0 else id + 1
  }

  /** `Next` is the source's `(id + 1) % n`. */
  lemma {:induction false} NextIsModulo(id: nat, n: nat)
    requires id < n
    ensures Next(id, n) == (id + 1) % n
  {
    if id + 1 < n {
      SmallModulo(id + 1, n);
    }
  }

  lemma {:induction false} SmallModulo(a: nat, n: nat)
    requires a < n
    ensures a % n == a
  {
  }

  function Seated(id: nat, n: nat): Philosopher
    requires n > 0
  {
    Philosopher(Sticks(id, n).0, Sticks(id, n).1, 0, Think, 0)
  }

  function Init(n: nat): State
    requires n > 0
  {
    State(seq(n, _ => 1), seq(n, (id: nat) => Seated(id, n)))
  }

  // ----- The interleaving semantics

  /** sem_wait blocks while the semaphore is 0; nothing else blocks. */
  predicate Enabled(s: State, rounds: nat, p: nat) {
    && p < |s.phils|
    && var ph := s.phils[p];
    && ph.left < |s.sticks| && ph.right < |s.sticks|
    && ph.round < rounds
    && (ph.pc == WaitLeft ==> s.sticks[ph.left] > 0)
    && (ph.pc == WaitRight ==> s.sticks[ph.right] > 0)
  }

  /** The philosopher after the call it is about to make. */
  function Advance(ph: Philosopher): Philosopher {
    match ph.pc
    case Think => ph.(pc := WaitLeft)
    case WaitLeft => ph.(pc := WaitRight)
    case WaitRight => ph.(pc := Eat)
    case Eat => ph.(pc := PostRight, meals := ph.meals + 1)
    case PostRight => ph.(pc := PostLeft)
    case PostLeft => ph.(pc := Think, round := ph.round + 1)
  }

  function Do(s: State, rounds: nat, p: nat): State
    requires Enabled(s, rounds, p)
  {
    var ph := s.phils[p];
    var sticks :=
      match ph.pc
      case WaitLeft => s.sticks[ph.left := s.sticks[ph.left] - 1]
      case WaitRight => s.sticks[ph.right := s.sticks[ph.right] - 1]
      case PostRight => s.sticks[ph.right := s.sticks[ph.right] + 1]
      case PostLeft => s.sticks[ph.left := s.sticks[ph.left] + 1]
      case _ => s.sticks;
    State(sticks, s.phils[p := Advance(ph)])
  }

  /** The philosophers named in `acts` move in that order and lead from `s` to `t`. */
  ghost predicate Run(s: State, rounds: nat, acts: seq<nat>, t: State)
    decreases |acts|
  {
    if acts == [] then s == t
    else Enabled(s, rounds, acts[0]) && Run(Do(s, rounds, acts[0]), rounds, acts[1..], t)
  }

  ghost predicate Stuck(s: State, rounds: nat) {
    forall p: nat :: !Enabled(s, rounds, p)
  }

  // ----- What every step keeps

  predicate Holds(ph: Philosopher, k: nat) {
    || (k == ph.left && !ph.pc.Think? && !ph.pc.WaitLeft?)
    || (k == ph.right && (ph.pc.Eat? || ph.pc.PostRight?))
  }

  function Holding(k: nat): Philosopher -> int {
    (ph: Philosopher) => if Holds(ph, k) then 1 else 0
  }

  ghost predicate PhilosopherInv(ph: Philosopher, id: nat, n: nat, rounds: nat)
    requires n > 0
  {
    && (ph.left, ph.right) == Sticks(id, n)
    && ph.round <= rounds
    && (ph.round == rounds ==> ph.pc == Think)
    && ph.meals == ph.round + (if ph.pc.PostRight? || ph.pc.PostLeft? then 1 else 0)
  }

  /** Semaphore value plus number of holders is one, for every stick. */
  ghost predicate Inv(s: State, rounds: nat) {
    && |s.sticks| == |s.phils| >= 2
    && (forall p :: 0 <= p < |s.phils| ==> PhilosopherInv(s.phils[p], p, |s.phils|, rounds))
    && (forall k :: 0 <= k < |s.sticks| ==> s.sticks[k] + SumBy(Holding(k), s.phils) == 1)
  }

  lemma {:induction false} InitInv(n: nat, rounds: nat)
    requires n >= 2
    ensures Inv(Init(n), rounds)
  {
    var s := Init(n);
    forall k | 0 <= k < n ensures SumBy(Holding(k), s.phils) == 0 {
      SumByZero(Holding(k), s.phils);
    }
  }

  lemma {:induction false} AdvanceInv(ph: Philosopher, id: nat, n: nat, rounds: nat)
    requires id < n && PhilosopherInv(ph, id, n, rounds) && ph.round < rounds
    ensures PhilosopherInv(Advance(ph), id, n, rounds)
  {
  }

  /** What a philosopher's call adds to a stick's value it removes from the stick's holders. */
  lemma {:induction false} StickBalance(s: State, rounds: nat, p: nat, k: nat)
    requires Enabled(s, rounds, p) && s.phils[p].left != s.phils[p].right && k < |s.sticks|
    ensures Do(s, rounds, p).sticks[k] + Holding(k)(Advance(s.phils[p])) == s.sticks[k] + Holding(k)(s.phils[p])
  {
  }

  lemma {:induction false} StepInv(s: State, rounds: nat, p: nat)
    requires Inv(s, rounds) && Enabled(s, rounds, p)
    ensures Inv(Do(s, rounds, p), rounds)
  {
    var t := Do(s, rounds, p);
    var ph := s.phils[p];
    assert PhilosopherInv(ph, p, |s.phils|, rounds);
    forall k | 0 <= k < |t.sticks| ensures t.sticks[k] + SumBy(Holding(k), t.phils) == 1 {
      SumByUpdate(Holding(k), s.phils, p, Advance(ph));
      StickBalance(s, rounds, p, k);
    }
    AdvanceInv(ph, p, |s.phils|, rounds);
  }

  lemma {:induction false} RunInv(s: State, rounds: nat, acts: seq<nat>, t: State)
    requires Inv(s, rounds) && Run(s, rounds, acts, t)
    ensures Inv(t, rounds) && |t.phils| == |s.phils|
    decreases |acts|
  {
    if acts != [] {
      StepInv(s, rounds, acts[0]);
      RunInv(Do(s, rounds, acts[0]), rounds, acts[1..], t);
    }
  }

  /** Every stick has at most one holder, and it is free exactly when it has none. */
  lemma {:induction false} StickMutualExclusion(s: State, rounds: nat, k: nat)
    requires Inv(s, rounds) && k < |s.sticks|
    ensures s.sticks[k] <= 1
    ensures s.sticks[k] == 0 <==> exists p :: 0 <= p < |s.phils| && Holds(s.phils[p], k)
    ensures forall p, q | 0 <= p < |s.phils| && 0 <= q < |s.phils| ::
              Holds(s.phils[p], k) && Holds(s.phils[q], k) ==> p == q
  {
    SumByBounds(Holding(k), s.phils);
    forall p, q | 0 <= p < q < |s.phils| ensures !Holds(s.phils[p], k) || !Holds(s.phils[q], k) {
      assert Holding(k)(s.phils[p]) + Holding(k)(s.phils[q]) <= 1;
    }
    if s.sticks[k] == 0 {
      var p := SumByPositive(Holding(k), s.phils);
      assert Holds(s.phils[p], k);
    }
    if p :| 0 <= p < |s.phils| && Holds(s.phils[p], k) {
      assert Holding(k)(s.phils[p]) == 1;
    }
  }

  /** In no reachable state do two neighbours eat at the same time. */
  lemma {:induction false} NeighboursNeverEatTogether(n: nat, rounds: nat, acts: seq<nat>, t: State, p: nat)
    requires n >= 2 && Run(Init(n), rounds, acts, t) && p < n
    ensures |t.phils| == n
    ensures !(t.phils[p].pc == Eat && t.phils[(p + 1) % n].pc == Eat)
  {
    InitInv(n, rounds);
    RunInv(Init(n), rounds, acts, t);
    NextIsModulo(p, n);
    var q := Next(p, n);
    assert q != p;
    assert PhilosopherInv(t.phils[p], p, n, rounds) && PhilosopherInv(t.phils[q], q, n, rounds);
    if t.phils[p].pc == Eat && t.phils[q].pc == Eat {
      assert Holds(t.phils[p], q) && Holds(t.phils[q], q);
      StickMutualExclusion(t, rounds, q);
      assert false;
    }
  }

  /**
    Which semaphores are down: a philosopher that waits for its second stick, eats or puts sticks back has taken
    its own one, but philosopher 0 the other one, first; one that eats has both.
   */
  lemma {:induction false} SticksInHand(n: nat, rounds: nat, acts: seq<nat>, t: State, p: nat)
    requires n >= 2 && Run(Init(n), rounds, acts, t) && p < n
    ensures |t.phils| == |t.sticks| == n
    ensures var first, second := if p == 0 then 1 % n else p, if p == 0 then 0 else (p + 1) % n;
            && (t.phils[p].pc in {WaitRight, Eat, PostRight, PostLeft} ==> t.sticks[first] == 0)
            && (t.phils[p].pc in {Eat, PostRight} ==> t.sticks[second] == 0)
  {
    InitInv(n, rounds);
    RunInv(Init(n), rounds, acts, t);
    assert PhilosopherInv(t.phils[p], p, n, rounds);
    NextIsModulo(p, n);
    StickMutualExclusion(t, rounds, t.phils[p].left);
    StickMutualExclusion(t, rounds, t.phils[p].right);
  }

  // ----- Deadlock freedom

  /** The order in which every philosopher takes sticks: 1 < 2 < ... < n-1 < 0. */
  function Rank(k: nat, n: nat): nat {
    if k == 0 then n else k
  }

  function Wanted(ph: Philosopher): nat {
    if ph.pc == WaitLeft then ph.left else ph.right
  }

  /** From an unfinished philosopher, following stick holders upward in rank reaches one that can move. */
  lemma {:induction false} SomeoneCanMove(s: State, rounds: nat, p: nat) returns (q: nat)
    requires Inv(s, rounds)
    requires p < |s.phils| && s.phils[p].round < rounds
    ensures Enabled(s, rounds, q)
    decreases if s.phils[p].pc.WaitLeft? || s.phils[p].pc.WaitRight?
              then |s.phils| - Rank(Wanted(s.phils[p]), |s.phils|) else 0
  {
    var n := |s.phils|;
    assert PhilosopherInv(s.phils[p], p, n, rounds);
    if Enabled(s, rounds, p) {
      q := p;
    } else {
      var k := Wanted(s.phils[p]);
      StickMutualExclusion(s, rounds, k);
      q :| 0 <= q < n && Holds(s.phils[q], k);
      assert PhilosopherInv(s.phils[q], q, n, rounds);
      if !Enabled(s, rounds, q) {
        assert s.phils[q].pc == WaitRight && Rank(k, n) < Rank(Wanted(s.phils[q]), n) <= n;
        q := SomeoneCanMove(s, rounds, q);
      }
    }
  }

  ghost predicate Finished(s: State, rounds: nat) {
    forall p :: 0 <= p < |s.phils| ==> s.phils[p].round == rounds
  }

  lemma {:induction false} StuckIsFinished(s: State, rounds: nat)
    requires Inv(s, rounds)
    ensures Stuck(s, rounds) <==> Finished(s, rounds)
  {
    if !Finished(s, rounds) {
      var p :| 0 <= p < |s.phils| && s.phils[p].round != rounds;
      assert PhilosopherInv(s.phils[p], p, |s.phils|, rounds);
      var q := SomeoneCanMove(s, rounds, p);
    }
  }

  /** Deadlock freedom: no philosopher can move only when all of them are finished. */
  lemma {:induction false} DeadlockFree(n: nat, rounds: nat, acts: seq<nat>, t: State)
    requires n >= 2 && Run(Init(n), rounds, acts, t)
    ensures Stuck(t, rounds) <==> Finished(t, rounds)
  {
    InitInv(n, rounds);
    RunInv(Init(n), rounds, acts, t);
    StuckIsFinished(t, rounds);
  }

  // ----- Termination

  /** The number of calls a philosopher still has to make. */
  function CallsLeft(rounds: nat): Philosopher -> int {
    (ph: Philosopher) =>
      6 * (rounds - ph.round) - (match ph.pc case Think => 0 case WaitLeft => 1 case WaitRight => 2
                                             case Eat => 3 case PostRight => 4 case PostLeft => 5)
  }

  function AllCallsLeft(s: State, rounds: nat): int {
    SumBy(CallsLeft(rounds), s.phils)
  }

  lemma {:induction false} StepCalls(s: State, rounds: nat, p: nat)
    requires Enabled(s, rounds, p)
    ensures AllCallsLeft(Do(s, rounds, p), rounds) == AllCallsLeft(s, rounds) - 1
  {
    SumByUpdate(CallsLeft(rounds), s.phils, p, Advance(s.phils[p]));
  }

  lemma {:induction false} RunLength(s: State, rounds: nat, acts: seq<nat>, t: State)
    requires Run(s, rounds, acts, t)
    ensures |acts| + AllCallsLeft(t, rounds) == AllCallsLeft(s, rounds)
    decreases |acts|
  {
    if acts != [] {
      StepCalls(s, rounds, acts[0]);
      RunLength(Do(s, rounds, acts[0]), rounds, acts[1..], t);
    }
  }

  /** All the calls of a dinner: six for every round of every philosopher. */
  function AllCalls(n: nat, rounds: nat): nat {
    6 * rounds * n
  }

  lemma {:induction false} InitialCalls(rounds: nat, phils: seq<Philosopher>)
    requires forall p :: 0 <= p < |phils| ==> phils[p].round == 0 && phils[p].pc == Think
    ensures SumBy(CallsLeft(rounds), phils) == AllCalls(|phils|, rounds)
  {
    if phils != [] {
      InitialCalls(rounds, phils[1..]);
    }
  }

  lemma {:induction false} CallsLeftInv(s: State, rounds: nat)
    requires Inv(s, rounds)
    ensures AllCallsLeft(s, rounds) >= 0
    ensures AllCallsLeft(s, rounds) == 0 <==> Finished(s, rounds)
  {
    forall p | 0 <= p < |s.phils|
      ensures CallsLeft(rounds)(s.phils[p]) >= 0
      ensures CallsLeft(rounds)(s.phils[p]) == 0 <==> s.phils[p].round == rounds
    {
      assert PhilosopherInv(s.phils[p], p, |s.phils|, rounds);
    }
    SumByBounds(CallsLeft(rounds), s.phils);
    if Finished(s, rounds) {
      SumByZero(CallsLeft(rounds), s.phils);
    }
  }

  lemma {:induction false} FinishedHasEaten(s: State, rounds: nat)
    requires Inv(s, rounds) && Finished(s, rounds)
    ensures forall p :: 0 <= p < |s.phils| ==> s.phils[p].meals == rounds
    ensures forall k :: 0 <= k < |s.sticks| ==> s.sticks[k] == 1
  {
    forall p | 0 <= p < |s.phils| ensures s.phils[p].meals == rounds && s.phils[p].pc == Think {
      assert PhilosopherInv(s.phils[p], p, |s.phils|, rounds);
    }
    forall k | 0 <= k < |s.sticks| ensures s.sticks[k] == 1 {
      SumByZero(Holding(k), s.phils);
    }
  }

  /**
    Every run is finite, with at most 6*R*N calls, and a run that cannot be continued made exactly
    that many and every philosopher has eaten exactly R times.
   */
  lemma {:induction false} EveryoneEatsExactly(n: nat, rounds: nat, acts: seq<nat>, t: State)
    requires n >= 2 && Run(Init(n), rounds, acts, t)
    ensures |t.phils| == |t.sticks| == n
    ensures |acts| <= 6 * rounds * n
    ensures Stuck(t, rounds) <==> |acts| == 6 * rounds * n
    ensures Stuck(t, rounds) ==> forall p :: 0 <= p < n ==> t.phils[p].meals == rounds
    ensures Stuck(t, rounds) ==> forall k :: 0 <= k < n ==> t.sticks[k] == 1
  {
    InitInv(n, rounds);
    RunInv(Init(n), rounds, acts, t);
    RunLength(Init(n), rounds, acts, t);
    InitialCalls(rounds, Init(n).phils);
    StuckIsFinished(t, rounds);
    CallsLeftInv(t, rounds);
    if Stuck(t, rounds) {
      FinishedHasEaten(t, rounds);
    }
  }

  // ----- The shared memory, updated in place

  /** `main` and the philosophers of one dinner; the semaphores live in one shared array. */
  class Dinner {
    const n: nat
    const rounds: nat
    const sticks: array<nat>
    const phils: array<Philosopher>

    ghost predicate Valid()
      reads this, sticks, phils
    {
      sticks.Length == phils.Length == n && sticks as object != phils && Inv(View(), rounds)
    }

    function View(): State
      reads sticks, phils
    {
      State(sticks[..], phils[..])
    }

    constructor (n: nat, rounds: nat)
      requires n >= 2
      ensures this.n == n && this.rounds == rounds
      ensures Valid() && fresh(sticks) && fresh(phils)
      ensures View() == Init(n)
    {
      this.n, this.rounds := n, rounds;
      sticks := new nat[n](_ => 1);
      phils := new Philosopher[n](_ => Philosopher(0, 0, 0, Think, 0));
      new;
      for id := 0 to n
        invariant forall k :: 0 <= k < id ==> phils[k] == Seated(k, n)
        invariant forall k :: 0 <= k < n ==> sticks[k] == 1
      {
        phils[id] := Seat(id, n);
      }
      assert View() == Init(n);
      InitInv(n, rounds);
    }

    /** The first lines of `philosopher(id)`. */
    static method Seat(id: nat, n: nat) returns (ph: Philosopher)
      requires id < n
      ensures id != 0 ==> ph == Philosopher(id, (id + 1) % n, 0, Think, 0)
      ensures id == 0 ==> ph == Philosopher(1 % n, 0, 0, Think, 0)
      ensures ph == Seated(id, n)
    {
      NextIsModulo(id, n);
      var left, right := id, (id + 1) % n;
      if id == 0 {
        left, right := right, left;
      }
      ph := Philosopher(left, right, 0, Think, 0);
    }

    predicate CanMove(p: nat)
      reads sticks, phils
    {
      Enabled(View(), rounds, p)
    }

    /** Philosopher `p` makes its next call. */
    method Move(p: nat)
      requires Valid() && CanMove(p)
      modifies sticks, phils
      ensures Valid()
      ensures View() == Do(old(View()), rounds, p)
    {
      ghost var before := View();
      Call(p);
      StepInv(before, rounds, p);
    }

    /** A call on the semaphores; it needs nothing but to be possible. */
    method Call(p: nat)
      requires CanMove(p)
      modifies sticks, phils
      ensures View() == Do(old(View()), rounds, p)
    {
      var ph := phils[p];
      match ph.pc {
        case Think => ph := ph.(pc := WaitLeft);
        case WaitLeft =>
          sticks[ph.left] := sticks[ph.left] - 1;
          ph := ph.(pc := WaitRight);
        case WaitRight =>
          sticks[ph.right] := sticks[ph.right] - 1;
          ph := ph.(pc := Eat);
        case Eat => ph := ph.(pc := PostRight, meals := ph.meals + 1);
        case PostRight =>
          sticks[ph.right] := sticks[ph.right] + 1;
          ph := ph.(pc := PostLeft);
        case PostLeft =>
          sticks[ph.left] := sticks[ph.left] + 1;
          ph := ph.(pc := Think, round := ph.round + 1);
      }
      phils[p] := ph;
      assert View() == Do(old(View()), rounds, p);
    }

    /** Whatever enabled philosopher is scheduled next, dinner ends with everyone having eaten R times. */
    method Dine() returns (calls: nat)
      requires Valid() && View() == Init(n)
      modifies sticks, phils
      ensures Valid()
      ensures forall p :: 0 <= p < n ==> phils[p].meals == rounds
      ensures calls == 6 * rounds * n
    {
      InitialCalls(rounds, View().phils);
      CallsLeftInv(View(), rounds);
      calls := 0;
      while exists p :: 0 <= p < n && CanMove(p)
        invariant Valid()
        invariant calls + AllCallsLeft(View(), rounds) == AllCalls(n, rounds)
        invariant AllCallsLeft(View(), rounds) >= 0
        decreases AllCallsLeft(View(), rounds)
      {
        var p :| 0 <= p < n && CanMove(p);
        StepCalls(View(), rounds, p);
        Move(p);
        CallsLeftInv(View(), rounds);
        calls := calls + 1;
      }
      AllAte();
    }

    lemma {:induction false} AllAte()
      requires Valid() && !exists p :: 0 <= p < n && CanMove(p)
      ensures forall p :: 0 <= p < n ==> phils[p].meals == rounds
      ensures AllCallsLeft(View(), rounds) == 0
    {
      assert Stuck(View(), rounds) by {
        forall p: nat ensures !Enabled(View(), rounds, p) {
          assert p < n ==> !CanMove(p);
        }
      }
      StuckIsFinished(View(), rounds);
      FinishedHasEaten(View(), rounds);
      CallsLeftInv(View(), rounds);
      assert forall p :: 0 <= p < n ==> View().phils[p] == phils[p];
    }
  }
}
