/**
  The parallel sum of TH-1/array_summary.cpp: an array is cut into chunks, one thread sums each chunk
  into its own result, and the main thread joins the threads in order and adds the results.
 */
module ArraySummary {
  import opened Collections

  function Value(x: int): int {
    x
  }

  function Sum(xs: seq<int>): int {
    SumBy(Value, xs)
  }

  // ----- The partition

  /** First index of chunk `i`; `size` is the length of all chunks but the last. */
  function ChunkStart(i: nat, size: nat): nat {
    i * size
  }

  function ChunkEnd(i: nat, size: nat, threads: nat, n: nat): nat {
    if i + 1 == threads then n else (i + 1) * size
  }

  lemma {:induction false} ChunkBounds(n: nat, threads: nat, i: nat)
    requires i < threads
    ensures 0 <= ChunkStart(i, n / threads) <= ChunkEnd(i, n / threads, threads, n) <= n
    ensures i + 1 < threads ==> ChunkEnd(i, n / threads, threads, n) == ChunkStart(i + 1, n / threads)
    ensures ChunkEnd(i, n / threads, threads, n) - ChunkStart(i, n / threads)
         == if i + 1 < threads then n / threads else n / threads + n % threads
  {
    var size := n / threads;
    assert size * threads <= n;
    MulMonotone(i, threads, size);
    MulMonotone(i + 1, threads, size);
    MulMonotone(i, i + 1, size);
  }

  lemma {:induction false} MulMonotone(a: nat, b: nat, c: nat)
    requires a <= b
    ensures a * c <= b * c
  {
    assert b * c - a * c == (b - a) * c;
  }

  /** Every index belongs to exactly one chunk, also when there are more threads than elements. */
  lemma {:induction false} ChunksPartition(n: nat, threads: nat, k: nat) returns (i: nat)
    requires threads >= 1 && k < n
    ensures i < threads && ChunkStart(i, n / threads) <= k < ChunkEnd(i, n / threads, threads, n)
    ensures forall j :: 0 <= j < threads && j != i ==>
              !(ChunkStart(j, n / threads) <= k < ChunkEnd(j, n / threads, threads, n))
  {
    var size := n / threads;
    i := 0;
    while i + 1 < threads && (i + 1) * size <= k
      invariant i < threads && i * size <= k
    {
      i := i + 1;
    }
    forall j | 0 <= j < threads && j != i
      ensures !(ChunkStart(j, size) <= k < ChunkEnd(j, size, threads, n))
    {
      if j < i {
        MulMonotone(j + 1, i, size);
      } else {
        MulMonotone(i + 1, j, size);
      }
    }
  }

  // ----- The threads

  /** Where a thread is in `partial_sum`. */
  datatype Pc = NotCreated | Ready | Looping(i: nat) | Returned

  datatype ThreadData = ThreadData(start: nat, end: nat, result: int, pc: Pc)

  /** What a thread has summed so far. */
  ghost predicate DataInv(xs: seq<int>, threads: nat, t: nat, d: ThreadData)
    requires t < threads
  {
    d.pc.NotCreated? ||
    (&& d.start == ChunkStart(t, |xs| / threads)
     && d.end == ChunkEnd(t, |xs| / threads, threads, |xs|)
     && d.start <= d.end <= |xs|
     && (d.pc.Looping? ==> d.start <= d.pc.i <= d.end && d.result == Sum(xs[d.start..d.pc.i]))
     && (d.pc.Returned? ==> d.result == Sum(xs[d.start..d.end])))
  }

  /** One more loop iteration adds one more element. */
  lemma {:induction false} Iteration(xs: seq<int>, start: nat, i: nat)
    requires start <= i < |xs|
    ensures Sum(xs[start..start]) == 0
    ensures Sum(xs[start..i + 1]) == Sum(xs[start..i]) + xs[i]
  {
    assert xs[start..i + 1] == xs[start..i] + [xs[i]];
    SumByAppend(Value, xs[start..i], [xs[i]]);
  }

  /** The part of the array that the first `joined` chunks cover. */
  function Prefix(xs: seq<int>, joined: nat, threads: nat): seq<int>
    requires joined <= threads && threads >= 1
  {
    if joined == 0 then []
    else ChunkBounds(|xs|, threads, joined - 1); xs[..ChunkEnd(joined - 1, |xs| / threads, threads, |xs|)]
  }

  /** The results of the first chunks add up to the sum of the prefix they cover. */
  lemma {:induction false} JoinOne(xs: seq<int>, threads: nat, t: nat, d: ThreadData)
    requires t < threads && DataInv(xs, threads, t, d) && d.pc.Returned?
    ensures Sum(Prefix(xs, t + 1, threads)) == Sum(Prefix(xs, t, threads)) + d.result
  {
    if t > 0 {
      ChunkBounds(|xs|, threads, t - 1);
    }
    assert Prefix(xs, t + 1, threads) == Prefix(xs, t, threads) + xs[d.start..d.end];
    SumByAppend(Value, Prefix(xs, t, threads), xs[d.start..d.end]);
  }

  /** An upper bound on the steps a thread still has to make. */
  function Work(n: nat): ThreadData -> int {
    (d: ThreadData) =>
      match d.pc
      case NotCreated => n + 4
      case Ready => n + 3
      case Looping(i) => if i <= n then n + 2 - i else 1
      case Returned => 0
  }

  predicate CanStep(d: ThreadData) {
    d.pc.Ready? || d.pc.Looping?
  }

  /** A thread's data after its next statement of `partial_sum`. */
  function Next(xs: seq<int>, d: ThreadData): ThreadData
    requires CanStep(d) && d.end <= |xs|
  {
    match d.pc
    case Ready => d.(result := 0, pc := Looping(d.start))
    case Looping(i) =>
      if i < d.end then d.(result := d.result + xs[i], pc := Looping(i + 1)) else d.(pc := Returned)
  }

  /** The next statement keeps the partial sum right and leaves less work. */
  lemma {:induction false} NextKeeps(xs: seq<int>, threads: nat, t: nat, d: ThreadData)
    requires t < threads && DataInv(xs, threads, t, d) && CanStep(d)
    ensures DataInv(xs, threads, t, Next(xs, d)) && !Next(xs, d).pc.NotCreated?
    ensures Work(|xs|)(Next(xs, d)) < Work(|xs|)(d)
  {
    if d.pc.Looping? && d.pc.i < d.end {
      Iteration(xs, d.start, d.pc.i);
    }
  }

  /** The next statement of `partial_sum` in thread `t`, accumulating into its own element of `data`. */
  method PartialSum(xs: seq<int>, data: array<ThreadData>, t: nat)
    requires t < data.Length && CanStep(data[t]) && data[t].end <= |xs|
    modifies data
    ensures data[..] == old(data[..])[t := Next(xs, old(data[t]))]
  {
    match data[t].pc {
      case Ready =>
        data[t] := data[t].(result := 0, pc := Looping(data[t].start));
      case Looping(i) =>
        if i < data[t].end {
          data[t] := data[t].(result := data[t].result + xs[i], pc := Looping(i + 1));
        } else {
          data[t] := data[t].(pc := Returned);
        }
    }
  }

  /** Fills in the fields of thread `t` and starts it. */
  method Create(xs: seq<int>, data: array<ThreadData>, t: nat)
    requires t < data.Length && data[t].pc.NotCreated?
    modifies data
    ensures DataInv(xs, data.Length, t, data[t]) && data[t].pc == Ready
    ensures data[t].start == t * (|xs| / data.Length)
    ensures data[t].end - data[t].start
         == if t < data.Length - 1 then |xs| / data.Length else |xs| / data.Length + |xs| % data.Length
    ensures data[..] == old(data[..])[t := data[t]]
  {
    ChunkBounds(|xs|, data.Length, t);
    var partialSize := |xs| / data.Length;
    data[t] := data[t].(start := t * partialSize);
    if t == data.Length - 1 {
      data[t] := data[t].(end := |xs|);
    } else {
      data[t] := data[t].(end := (t + 1) * partialSize);
    }
    data[t] := data[t].(pc := Ready);
  }

  /** The loop that the main thread runs alone. */
  method SingleThreadSum(xs: seq<int>) returns (sum: int)
    ensures sum == Sum(xs)
  {
    sum := 0;
    for i := 0 to |xs|
      invariant sum == Sum(xs[..i])
    {
      Iteration(xs, 0, i);
      sum := sum + xs[i];
    }
    assert xs[..|xs|] == xs;
  }

  /**
    `main` and its threads. The next step is any step of any thread that can move: the main thread
    creating or joining, or a loop iteration of a created thread. Whatever the order, the joined total
    is the sum of the array, as the single-threaded loop computes it.
   */
  method Summarize(xs: seq<int>, threads: nat) returns (singleThreadSum: int, multiThreadSum: int)
    requires threads >= 1
    ensures singleThreadSum == Sum(xs)
    ensures multiThreadSum == Sum(xs)
  {
    singleThreadSum := SingleThreadSum(xs);
    var data := new ThreadData[threads](_ => ThreadData(0, 0, 0, NotCreated));
    var created, joined := 0, 0;
    multiThreadSum := 0;
    WorkIsNonNegative(|xs|, data[..]);
    while joined < threads
      invariant data.Length == threads && 0 <= joined <= created <= threads
      invariant joined > 0 ==> created == threads
      invariant DataInvs(xs, data[..], created)
      invariant multiThreadSum == Sum(Prefix(xs, joined, threads))
      decreases SumBy(Work(|xs|), data[..]), threads - joined
    {
      ghost var before := data[..];
      WorkIsNonNegative(|xs|, before);
      if {
        case created < threads =>
          Create(xs, data, created);
          SumByUpdate(Work(|xs|), before, created, data[created]);
          created := created + 1;
        case created == threads && data[joined].pc.Returned? =>
          JoinOne(xs, threads, joined, data[joined]);
          multiThreadSum := multiThreadSum + data[joined].result;
          joined := joined + 1;
        case exists t :: 0 <= t < threads && CanStep(data[t]) =>
          var t :| 0 <= t < threads && CanStep(data[t]);
          NextKeeps(xs, threads, t, data[t]);
          PartialSum(xs, data, t);
          SumByUpdate(Work(|xs|), before, t, Next(xs, before[t]));
      }
    }
    assert Prefix(xs, threads, threads) == xs;
  }

  /** Exactly the first `created` threads exist, and each has the right chunk and partial result. */
  ghost predicate DataInvs(xs: seq<int>, data: seq<ThreadData>, created: nat) {
    forall t :: 0 <= t < |data| ==>
      DataInv(xs, |data|, t, data[t]) && (data[t].pc.NotCreated? <==> t >= created)
  }

  lemma {:induction false} WorkIsNonNegative(n: nat, data: seq<ThreadData>)
    ensures SumBy(Work(n), data) >= 0
  {
    SumByBounds(Work(n), data);
  }
}
