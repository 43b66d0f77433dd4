/**
 * How a sync run cuts the relevant transactions into batches: runs of 300
 * consecutive indices, the last one possibly shorter. Both sync variants use
 * the same arithmetic.
 */
module Batching {

  /** The batch size (the store's limit for one batch is 500 writes). */
  const BatchSize: nat := 300

  /** `Math.floor(n / batchSize) + (remainder > 0 ? 1 : 0)` */
  function NumberOfRuns(n: nat): nat
  {
    n / BatchSize + (if n % BatchSize > 0 then 1 else 0)
  }

  function RunStart(run: nat): nat
  {
    run * BatchSize
  }

  /** `start + ((run == numberOfRuns - 1 && remainder > 0) ? remainder : batchSize)` */
  function RunEnd(run: nat, n: nat): nat
  {
    RunStart(run) + (if run == NumberOfRuns(n) - 1 && n % BatchSize > 0 then n % BatchSize else BatchSize)
  }

  /** There are ceil(n / 300) runs; each is a non-empty range inside [0, n);
      consecutive runs are adjacent, so together they cover every index once,
      in order; all but the last hold exactly 300 indices. */
  lemma Partition(n: nat, run: nat)
    requires run < NumberOfRuns(n)
    ensures NumberOfRuns(n) * BatchSize >= n > (NumberOfRuns(n) - 1) * BatchSize
    ensures RunStart(run) < RunEnd(run, n) <= n
    ensures run + 1 < NumberOfRuns(n) ==> RunEnd(run, n) == RunStart(run + 1) &&
                                          RunEnd(run, n) - RunStart(run) == BatchSize
    ensures run + 1 == NumberOfRuns(n) ==> RunEnd(run, n) == n
  {
    var q, r := n / BatchSize, n % BatchSize;
    assert n == q * BatchSize + r;
    if r > 0 {
      assert NumberOfRuns(n) == q + 1;
      assert run <= q;
      assert RunStart(run) <= q * BatchSize by {
        assert run * BatchSize <= q * BatchSize;
      }
      if run + 1 < NumberOfRuns(n) {
        assert (run + 1) * BatchSize <= q * BatchSize;
      }
    } else {
      assert NumberOfRuns(n) == q;
      assert run + 1 <= q;
      assert RunStart(run) + BatchSize == (run + 1) * BatchSize <= q * BatchSize;
    }
  }

  /** Index i falls in run i / 300 and in no other. */
  lemma IndexInOneRun(n: nat, i: nat, run: nat)
    requires i < n && run < NumberOfRuns(n)
    ensures RunStart(run) <= i < RunEnd(run, n) <==> run == i / BatchSize
  {
    Partition(n, run);
    var q := i / BatchSize;
    assert q * BatchSize <= i < (q + 1) * BatchSize;
    if run < q {
      assert (run + 1) * BatchSize <= q * BatchSize;
    } else if run > q {
      assert run * BatchSize >= (q + 1) * BatchSize;
    } else {
      if run + 1 < NumberOfRuns(n) {
        assert RunEnd(run, n) == (run + 1) * BatchSize;
      }
    }
  }

  /** The elements of batch `run`: `transactions[start..end]`. */
  function RunSlice<T>(s: seq<T>, run: nat): (r: seq<T>)
    requires run < NumberOfRuns(|s|)
    ensures |r| == RunEnd(run, |s|) - RunStart(run)
    ensures forall i :: 0 <= i < |r| ==> r[i] == s[RunStart(run) + i]
  {
    Partition(|s|, run);
    var lo, hi := RunStart(run), RunEnd(run, |s|);
    seq(hi - lo, i requires 0 <= i < hi - lo => s[lo + i])
  }

  /** A batch is the slice between its start and its end. */
  lemma RunSliceIsSlice<T>(s: seq<T>, run: nat)
    requires run < NumberOfRuns(|s|)
    ensures RunStart(run) < RunEnd(run, |s|) <= |s|
    ensures RunSlice(s, run) == s[RunStart(run)..RunEnd(run, |s|)]
  {
    Partition(|s|, run);
  }
}
