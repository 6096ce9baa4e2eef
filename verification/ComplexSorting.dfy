/** The bubble sort of ENV-2/sorting.cpp, which orders an array of complex numbers by magnitude. */
module ComplexSorting {

  datatype Complex = Complex(re: real, im: real)

  /** `Complex::abs`, any magnitude at all: the sort only compares the values it returns. */
  type Magnitude = Complex -> real

  predicate Sorted(abs: Magnitude, s: seq<Complex>) {
    forall i, j :: 0 <= i < j < |s| ==> abs(s[i]) <= abs(s[j])
  }

  /** The elements of magnitude `k`, in order. */
  function WithKey(abs: Magnitude, s: seq<Complex>, k: real): seq<Complex> {
    if s == [] then []
    else (if abs(s[0]) == k then [s[0]] else []) + WithKey(abs, s[1..], k)
  }

  /** `t` has the same elements as `s`, those of equal magnitude in the same order. */
  ghost predicate StablyRearranged(abs: Magnitude, s: seq<Complex>, t: seq<Complex>) {
    forall k :: WithKey(abs, s, k) == WithKey(abs, t, k)
  }

  /** The number of elements of smaller magnitude than `k`. */
  function Smaller(abs: Magnitude, s: seq<Complex>, k: real): nat {
    if s == [] then 0 else (if abs(s[0]) < k then 1 else 0) + Smaller(abs, s[1..], k)
  }

  /** The number of pairs i < j with s[i] larger than s[j]. */
  function Inversions(abs: Magnitude, s: seq<Complex>): nat {
    if s == [] then 0 else Smaller(abs, s[1..], abs(s[0])) + Inversions(abs, s[1..])
  }

  // ----- Exchanging two neighbours

  function Exchanged(s: seq<Complex>, j: nat): seq<Complex>
    requires j + 1 < |s|
  {
    s[j := s[j + 1]][j + 1 := s[j]]
  }

  lemma {:induction false} ExchangeKeepsOrder(abs: Magnitude, s: seq<Complex>, j: nat, k: real)
    requires j + 1 < |s| && abs(s[j]) != abs(s[j + 1])
    ensures WithKey(abs, Exchanged(s, j), k) == WithKey(abs, s, k)
  {
    var t := Exchanged(s, j);
    if j == 0 {
      assert t[1..][1..] == s[1..][1..];
    } else {
      assert t[1..] == Exchanged(s[1..], j - 1);
      ExchangeKeepsOrder(abs, s[1..], j - 1, k);
    }
  }

  lemma {:induction false} ExchangeKeepsSmaller(abs: Magnitude, s: seq<Complex>, j: nat, k: real)
    requires j + 1 < |s|
    ensures Smaller(abs, Exchanged(s, j), k) == Smaller(abs, s, k)
  {
    var t := Exchanged(s, j);
    if j == 0 {
      assert t[1..][1..] == s[1..][1..];
    } else {
      assert t[1..] == Exchanged(s[1..], j - 1);
      ExchangeKeepsSmaller(abs, s[1..], j - 1, k);
    }
  }

  /** Exchanging two neighbours that are out of order removes exactly one inversion. */
  lemma {:induction false} ExchangeRemovesOne(abs: Magnitude, s: seq<Complex>, j: nat)
    requires j + 1 < |s| && abs(s[j]) > abs(s[j + 1])
    ensures Inversions(abs, Exchanged(s, j)) == Inversions(abs, s) - 1
  {
    var t := Exchanged(s, j);
    if j == 0 {
      assert t[1..][1..] == s[1..][1..];
    } else {
      assert t[1..] == Exchanged(s[1..], j - 1);
      ExchangeRemovesOne(abs, s[1..], j - 1);
      ExchangeKeepsSmaller(abs, s[1..], j - 1, abs(s[0]));
    }
  }

  lemma {:induction false} NoneSmaller(abs: Magnitude, s: seq<Complex>, k: real)
    requires forall i :: 0 <= i < |s| ==> abs(s[i]) >= k
    ensures Smaller(abs, s, k) == 0
  {
    if s != [] {
      NoneSmaller(abs, s[1..], k);
    }
  }

  lemma {:induction false} SortedHasNoInversions(abs: Magnitude, s: seq<Complex>)
    requires Sorted(abs, s)
    ensures Inversions(abs, s) == 0
  {
    if s != [] {
      NoneSmaller(abs, s[1..], abs(s[0]));
      SortedHasNoInversions(abs, s[1..]);
    }
  }

  // ----- The sort

  /** The elements from `bound` on are in their final places. */
  ghost predicate TailSorted(abs: Magnitude, s: seq<Complex>, bound: int) {
    forall a, b :: 0 <= a < b < |s| && bound <= b ==> abs(s[a]) <= abs(s[b])
  }

  /** Element `j` is the largest so far of the current pass. */
  ghost predicate Bubbling(abs: Magnitude, s: seq<Complex>, bound: int, j: nat) {
    && TailSorted(abs, s, bound)
    && forall a :: 0 <= a < j < |s| ==> abs(s[a]) <= abs(s[j])
  }

  /** `s` came from `before` by `swaps` exchanges of neighbours that were out of order. */
  ghost predicate Progress(abs: Magnitude, before: seq<Complex>, s: seq<Complex>, swaps: nat) {
    StablyRearranged(abs, before, s) && swaps + Inversions(abs, s) == Inversions(abs, before)
  }

  lemma {:induction false} ExchangeProgresses(abs: Magnitude, before: seq<Complex>, s: seq<Complex>, swaps: nat, j: nat)
    requires Progress(abs, before, s, swaps) && j + 1 < |s| && abs(s[j]) > abs(s[j + 1])
    ensures Progress(abs, before, Exchanged(s, j), swaps + 1)
  {
    ExchangeRemovesOne(abs, s, j);
    forall k ensures WithKey(abs, before, k) == WithKey(abs, Exchanged(s, j), k) {
      ExchangeKeepsOrder(abs, s, j, k);
    }
  }

  lemma {:induction false} ExchangeBubbles(abs: Magnitude, s: seq<Complex>, bound: int, j: nat)
    requires Bubbling(abs, s, bound, j) && j + 1 < bound <= |s| && abs(s[j]) > abs(s[j + 1])
    ensures Bubbling(abs, Exchanged(s, j), bound, j + 1)
  {
  }

  /** Exchanges two neighbours of the first `n` elements. */
  method Swap(arr: array<Complex>, j: nat, ghost n: nat)
    requires j + 1 < n <= arr.Length
    modifies arr
    ensures arr[..n] == Exchanged(old(arr[..n]), j) && arr[n..] == old(arr[n..])
  {
    var temp := arr[j];
    arr[j] := arr[j + 1];
    arr[j + 1] := temp;
  }

  /** The inner loop: one pass over the first `bound` elements takes the largest of them to their end. */
  method BubblePass(arr: array<Complex>, ghost n: nat, bound: nat, abs: Magnitude,
                    ghost before: seq<Complex>, swapsBefore: nat)
      returns (swaps: nat)
    requires 1 <= bound <= n <= arr.Length
    requires Progress(abs, before, arr[..n], swapsBefore) && TailSorted(abs, arr[..n], bound)
    modifies arr
    ensures Progress(abs, before, arr[..n], swaps) && TailSorted(abs, arr[..n], bound - 1)
    ensures arr[n..] == old(arr[n..])
  {
    swaps := swapsBefore;
    var j := 0;
    while j < bound - 1
      invariant 0 <= j <= bound - 1
      invariant Progress(abs, before, arr[..n], swaps) && Bubbling(abs, arr[..n], bound, j)
      invariant arr[n..] == old(arr[n..])
    {
      if abs(arr[j]) > abs(arr[j + 1]) {
        ExchangeProgresses(abs, before, arr[..n], swaps, j);
        ExchangeBubbles(abs, arr[..n], bound, j);
        Swap(arr, j, n);
        swaps := swaps + 1;
      } else {
        KeepBubbles(abs, arr[..n], bound, j);
      }
      j := j + 1;
    }
  }

  /**
    `sortComplexArray`. The first `size` elements become the stable rearrangement of themselves that is
    sorted by magnitude, the others stay, and as many exchanges are made as there were inversions.
   */
  method SortComplexArray(arr: array<Complex>, size: int, abs: Magnitude) returns (swaps: nat)
    requires size <= arr.Length
    modifies arr
    ensures var n := if size < 0 then 0 else size;
            && (forall i, j :: 0 <= i < j < n ==> abs(arr[i]) <= abs(arr[j]))
            && multiset(arr[..n]) == multiset(old(arr[..n]))
            && StablyRearranged(abs, old(arr[..n]), arr[..n])
            && arr[n..] == old(arr[n..])
            && swaps == Inversions(abs, old(arr[..n]))
  {
    ghost var n := if size < 0 then 0 else size;
    ghost var before, rest := arr[..n], arr[n..];
    swaps := 0;
    var i := 0;
    while i < size - 1
      invariant 0 <= i && (size >= 1 ==> i <= size - 1)
      invariant Progress(abs, before, arr[..n], swaps) && arr[n..] == rest
      invariant TailSorted(abs, arr[..n], n - i)
    {
      swaps := BubblePass(arr, n, size - i, abs, before, swaps);
      i := i + 1;
    }
    SortedHasNoInversions(abs, arr[..n]);
    StableIsMultiset(abs, before, arr[..n]);
  }

  lemma {:induction false} StableIsMultiset(abs: Magnitude, s: seq<Complex>, t: seq<Complex>)
    requires StablyRearranged(abs, s, t)
    ensures multiset(s) == multiset(t)
  {
    forall c ensures multiset(s)[c] == multiset(t)[c] {
      StableIsPermutation(abs, s, t, c);
    }
  }

  lemma {:induction false} KeepBubbles(abs: Magnitude, s: seq<Complex>, bound: int, j: nat)
    requires Bubbling(abs, s, bound, j) && j + 1 < |s| && abs(s[j]) <= abs(s[j + 1])
    ensures Bubbling(abs, s, bound, j + 1)
  {
  }

  // ----- The specification has one solution

  lemma {:induction false} WithKeyMember(abs: Magnitude, s: seq<Complex>, i: nat)
    requires i < |s|
    ensures WithKey(abs, s, abs(s[i])) != []
  {
    if i > 0 {
      WithKeyMember(abs, s[1..], i - 1);
    }
  }

  lemma {:induction false} WithKeyOnly(abs: Magnitude, s: seq<Complex>, k: real)
    requires WithKey(abs, s, k) != []
    ensures exists i :: 0 <= i < |s| && abs(s[i]) == k
  {
    if abs(s[0]) != k {
      WithKeyOnly(abs, s[1..], k);
      var i :| 0 <= i < |s[1..]| && abs(s[1..][i]) == k;
      assert abs(s[i + 1]) == k;
    }
  }

  /** The smallest magnitude of one sorted sequence occurs in the other, so the heads agree. */
  lemma {:induction false} HeadsAgree(abs: Magnitude, s: seq<Complex>, t: seq<Complex>)
    requires Sorted(abs, s) && Sorted(abs, t) && StablyRearranged(abs, s, t) && s != []
    ensures t != [] && s[0] == t[0]
  {
    WithKeyMember(abs, s, 0);
    WithKeyOnly(abs, t, abs(s[0]));
    WithKeyMember(abs, t, 0);
    WithKeyOnly(abs, s, abs(t[0]));
    assert abs(s[0]) == abs(t[0]);
    assert WithKey(abs, s, abs(s[0]))[0] == WithKey(abs, t, abs(s[0]))[0];
  }

  /** There is only one sorted stable rearrangement, so the contract above determines the result. */
  lemma {:induction false} StableSortIsUnique(abs: Magnitude, s: seq<Complex>, t: seq<Complex>)
    requires Sorted(abs, s) && Sorted(abs, t) && StablyRearranged(abs, s, t)
    ensures s == t
  {
    if s == [] {
      if t != [] {
        HeadsAgree(abs, t, s);
      }
    } else {
      HeadsAgree(abs, s, t);
      forall k ensures WithKey(abs, s[1..], k) == WithKey(abs, t[1..], k) {
        var first := if abs(s[0]) == k then [s[0]] else [];
        assert WithKey(abs, s, k) == first + WithKey(abs, s[1..], k);
        assert WithKey(abs, t, k) == first + WithKey(abs, t[1..], k);
        assert (first + WithKey(abs, s[1..], k))[|first|..] == WithKey(abs, s[1..], k);
        assert (first + WithKey(abs, t[1..], k))[|first|..] == WithKey(abs, t[1..], k);
      }
      StableSortIsUnique(abs, s[1..], t[1..]);
      assert s == [s[0]] + s[1..] && t == [t[0]] + t[1..];
    }
  }

  /** A stable rearrangement is a permutation. */
  lemma {:induction false} StableIsPermutation(abs: Magnitude, s: seq<Complex>, t: seq<Complex>, c: Complex)
    requires StablyRearranged(abs, s, t)
    ensures multiset(s)[c] == multiset(t)[c]
  {
    OccursInClass(abs, s, c);
    OccursInClass(abs, t, c);
  }

  lemma {:induction false} OccursInClass(abs: Magnitude, s: seq<Complex>, c: Complex)
    ensures multiset(s)[c] == multiset(WithKey(abs, s, abs(c)))[c]
  {
    if s != [] {
      OccursInClass(abs, s[1..], c);
      assert s == [s[0]] + s[1..];
    }
  }
}
