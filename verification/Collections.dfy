/** The range of a 32-bit int. */
module Ints {
  const INT_MIN := -0x8000_0000
  const INT_MAX := 0x7fff_ffff
}

/** Small facts about sequences that every state machine of the project uses. */
module Collections {

  datatype Option<+T> = None | Some(value: T)

  /** The sum of `f` over the elements of `xs`. */
  function SumBy<T>(f: T -> int, xs: seq<T>): int {
    if xs == [] then 0 else f(xs[0]) + SumBy(f, xs[1..])
  }

  /** Replacing one element changes the sum by the difference of the two values. */
  lemma {:induction false} SumByUpdate<T>(f: T -> int, xs: seq<T>, i: nat, v: T)
    requires i < |xs|
    ensures SumBy(f, xs[i := v]) == SumBy(f, xs) - f(xs[i]) + f(v)
  {
    if i == 0 {
      assert xs[0 := v][1..] == xs[1..];
    } else {
      assert xs[i := v][1..] == xs[1..][i - 1 := v];
      SumByUpdate(f, xs[1..], i - 1, v);
    }
  }

  lemma {:induction false} SumByAppend<T>(f: T -> int, xs: seq<T>, ys: seq<T>)
    ensures SumBy(f, xs + ys) == SumBy(f, xs) + SumBy(f, ys)
  {
    if xs == [] {
      assert xs + ys == ys;
    } else {
      assert (xs + ys)[1..] == xs[1..] + ys;
      SumByAppend(f, xs[1..], ys);
    }
  }

  /** A pointwise larger sequence has a larger sum, strictly so if it is larger somewhere. */
  lemma {:induction false} SumByMonotone<T>(f: T -> int, xs: seq<T>, ys: seq<T>)
    requires |xs| == |ys|
    requires forall i :: 0 <= i < |xs| ==> f(xs[i]) <= f(ys[i])
    ensures SumBy(f, xs) <= SumBy(f, ys)
    ensures (exists i :: 0 <= i < |xs| && f(xs[i]) < f(ys[i])) ==> SumBy(f, xs) < SumBy(f, ys)
  {
    if xs != [] {
      SumByMonotone(f, xs[1..], ys[1..]);
      if i :| 0 <= i < |xs| && f(xs[i]) < f(ys[i]) {
        if i > 0 {
          assert f(xs[1..][i - 1]) < f(ys[1..][i - 1]);
        }
      }
    }
  }

  lemma {:induction false} SumBySame<T>(f: T -> int, xs: seq<T>, ys: seq<T>)
    requires |xs| == |ys| && forall i :: 0 <= i < |xs| ==> f(xs[i]) == f(ys[i])
    ensures SumBy(f, xs) == SumBy(f, ys)
  {
    if xs != [] {
      SumBySame(f, xs[1..], ys[1..]);
    }
  }

  /** With non-negative terms, every single term and every pair of terms is below the sum. */
  lemma {:induction false} SumByBounds<T>(f: T -> int, xs: seq<T>)
    requires forall i :: 0 <= i < |xs| ==> f(xs[i]) >= 0
    ensures SumBy(f, xs) >= 0
    ensures forall i :: 0 <= i < |xs| ==> f(xs[i]) <= SumBy(f, xs)
    ensures forall i, j :: 0 <= i < j < |xs| ==> f(xs[i]) + f(xs[j]) <= SumBy(f, xs)
  {
    if xs != [] {
      var ys := xs[1..];
      assert forall i :: 0 <= i < |ys| ==> ys[i] == xs[i + 1];
      SumByBounds(f, ys);
      assert forall i :: 1 <= i < |xs| ==> xs[i] == ys[i - 1];
    }
  }

  /** A positive sum has a positive term. */
  lemma {:induction false} SumByPositive<T>(f: T -> int, xs: seq<T>) returns (i: nat)
    requires SumBy(f, xs) > 0
    ensures i < |xs| && f(xs[i]) > 0
  {
    if f(xs[0]) > 0 {
      i := 0;
    } else {
      var j := SumByPositive(f, xs[1..]);
      i := j + 1;
    }
  }

  /** A sum of zeros. */
  lemma {:induction false} SumByZero<T>(f: T -> int, xs: seq<T>)
    requires forall i :: 0 <= i < |xs| ==> f(xs[i]) == 0
    ensures SumBy(f, xs) == 0
  {
    if xs != [] {
      SumByZero(f, xs[1..]);
    }
  }

  /** Terms that grow by at most `c` each. */
  lemma {:induction false} SumByGrowth<T>(f: T -> int, xs: seq<T>, ys: seq<T>, c: int)
    requires |xs| == |ys| && forall i :: 0 <= i < |xs| ==> f(ys[i]) <= f(xs[i]) + c
    ensures SumBy(f, ys) <= SumBy(f, xs) + c * |xs|
  {
    if xs != [] {
      SumByGrowth(f, xs[1..], ys[1..], c);
    }
  }
}
