/**
 * The runner of the data collector (data_collector/runner/runner.py).
 *
 * The runner deals its ticker list round-robin into `num_threads` bins,
 * like cards: ticker k goes to bin k mod num_threads, and each bin keeps
 * the input order.  One collector is then built per bin.  A thread count
 * above the number of tickers is refused.
 */
module CollectorRunner {
  import opened Py

  // ---------------------------------------------------------------------
  // The deal
  // ---------------------------------------------------------------------

  /** The bins after dealing `ts` round-robin into n bins. */
  function Deal(ts: seq<string>, n: nat): (bins: seq<seq<string>>)
    requires n >= 1
    ensures |bins| == n
    decreases |ts|
  {
    if ts == [] then seq(n, _ => [])
    else
      var prev := Deal(ts[..|ts| - 1], n);
      var b := (|ts| - 1) % n;
      prev[b := prev[b] + [ts[|ts| - 1]]]
  }

  /** A positive multiple of n is at least n, a negative one at most -n. */
  lemma MulStep(d: int, n: int)
    requires n >= 1
    ensures d >= 1 ==> d * n >= n
    ensures d <= -1 ==> d * n <= -n
  {
    if d >= 1 {
      var e := d - 1;
      assert d * n == e * n + n;
      assert e * n >= 0;
    } else if d <= -1 {
      var e := -d - 1;
      assert d * n == -(e * n) - n;
      assert e * n >= 0;
    }
  }

  /** Quotient and remainder are the only such pair. */
  lemma DivModUnique(k: int, n: int, q: int, r: int)
    requires n >= 1 && 0 <= r < n && k == q * n + r
    ensures k / n == q && k % n == r
  {
    var q0, r0 := k / n, k % n;
    assert k == q0 * n + r0;
    var d := q - q0;
    assert d * n == r0 - r;
    MulStep(d, n);
  }

  /** Counting one further moves the cursor to the next bin, wrapping to
      bin 0 and the next row after the last bin. */
  lemma DivModStep(k: nat, n: nat)
    requires n >= 1
    ensures k % n == n - 1 ==> (k + 1) % n == 0 && (k + 1) / n == k / n + 1
    ensures k % n != n - 1 ==> (k + 1) % n == k % n + 1 && (k + 1) / n == k / n
  {
    var q, r := k / n, k % n;
    assert k == q * n + r;
    if r == n - 1 {
      DivModUnique(k + 1, n, q + 1, 0);
    } else {
      DivModUnique(k + 1, n, q, r + 1);
    }
  }

  /** Bin b holds |ts| / n tickers, and one more when b is below the
      remainder: so bin sizes differ by at most one. */
  lemma {:induction false} DealSizes(ts: seq<string>, n: nat, b: nat)
    requires n >= 1 && b < n
    ensures |Deal(ts, n)[b]| == |ts| / n + (if b < |ts| % n then 1 else 0)
    decreases |ts|
  {
    if ts != [] {
      var k := |ts| - 1;
      DealSizes(ts[..k], n, b);
      DivModStep(k, n);
    }
  }

  /** Ticker k sits in bin k mod n at position k / n. */
  lemma {:induction false} DealPositions(ts: seq<string>, n: nat, k: nat)
    requires n >= 1 && k < |ts|
    ensures k / n < |Deal(ts, n)[k % n]| && Deal(ts, n)[k % n][k / n] == ts[k]
    decreases |ts|
  {
    var last := |ts| - 1;
    var init := ts[..last];
    DealSizes(init, n, last % n);
    DealSizes(init, n, k % n);
    if k < last {
      DealPositions(init, n, k);
    } else {
      DivModStep(last, n);
      assert |init| / n == last / n;
      assert !(last % n < |init| % n);
    }
  }

  /** Conversely, position j of bin b holds ticker b + j * n. */
  lemma DealSlots(ts: seq<string>, n: nat, b: nat, j: nat)
    requires n >= 1 && b < n && j < |Deal(ts, n)[b]|
    ensures b + j * n < |ts| && Deal(ts, n)[b][j] == ts[b + j * n]
  {
    DealSizes(ts, n, b);
    var k := b + j * n;
    SlotInRange(|ts|, n, b, j);
    DivModOfSlot(n, b, j);
    DealPositions(ts, n, k);
  }

  lemma DivModOfSlot(n: nat, b: nat, j: nat)
    requires n >= 1 && b < n
    ensures (b + j * n) % n == b && (b + j * n) / n == j
  {
    DivModUnique(b + j * n, n, j, b);
  }

  /** A slot counted by the bin sizes lies inside the ticker list. */
  lemma SlotInRange(len: nat, n: nat, b: nat, j: nat)
    requires n >= 1 && b < n && j < len / n + (if b < len % n then 1 else 0)
    ensures b + j * n < len
  {
    var q, r := len / n, len % n;
    assert len == q * n + r;
    if j < q {
      MulStep(q - j, n);
      assert (q - j) * n == q * n - j * n;
    } else {
      assert j == q && b < r;
    }
  }

  /** The bin sizes differ by at most one. */
  lemma DealBalanced(ts: seq<string>, n: nat, a: nat, b: nat)
    requires n >= 1 && a < n && b < n
    ensures |Deal(ts, n)[a]| - |Deal(ts, n)[b]| <= 1
  {
    DealSizes(ts, n, a);
    DealSizes(ts, n, b);
  }

  // ---------------------------------------------------------------------
  // The runner
  // ---------------------------------------------------------------------

  /** `validate_inputs`: more threads than tickers is a ValueError. */
  function ValidateInputs(numThreads: int, tickers: seq<string>): (r: Result<()>)
    ensures r.Raise? <==> numThreads > |tickers|
    ensures r.Raise? ==> r.exc == ValueError
  {
    if numThreads > |tickers| then Raise(ValueError) else Ok(())
  }

  class Runner {
    /** The ticker list read from the configuration. */
    const tickers: seq<string>
    const numThreads: int
    /** One collector per bin, given by the tickers it collects; None
        until they are built. */
    var dataCollectors: Option<seq<seq<string>>>

    constructor (tickers: seq<string>, numThreads: int)
      ensures this.tickers == tickers && this.numThreads == numThreads && dataCollectors == None
    {
      this.tickers := tickers;
      this.numThreads := numThreads;
      dataCollectors := None;
    }

    /** `Runner(num_threads)` on a ticker list: validate, then build the
        collectors. */
    static method New(tickers: seq<string>, numThreads: int) returns (r: Result<Runner>)
      ensures r.Raise? <==> numThreads > |tickers| || (numThreads < 1 && |tickers| > 0)
      ensures r.Raise? ==> r.exc == (if numThreads > |tickers| then ValueError else IndexError)
      ensures r.Ok? && numThreads >= 1 ==> r.value.dataCollectors == Some(Deal(tickers, numThreads))
      ensures r.Ok? && numThreads < 1 ==> r.value.dataCollectors == Some([])
    {
      var runner := new Runner(tickers, numThreads);
      var valid := ValidateInputs(numThreads, tickers);
      if valid.Raise? {
        return Raise(valid.exc);
      }
      var built := runner.CreateDataCollectors();
      if built.Raise? {
        return Raise(built.exc);
      }
      r := Ok(runner);
    }

    /** `create_data_collectors`: make `num_threads` empty bins (none when
        it is not positive), deal the tickers into them with a cursor that
        wraps at the last bin, and build one collector per bin.  With no
        bin to deal into, the first ticker raises IndexError. */
    method CreateDataCollectors() returns (r: Result<()>)
      modifies this`dataCollectors
      ensures numThreads >= 1 ==> r == Ok(()) && dataCollectors == Some(Deal(tickers, numThreads))
      ensures numThreads < 1 && |tickers| > 0 ==> r == Raise(IndexError) && dataCollectors == old(dataCollectors)
      ensures numThreads < 1 && |tickers| == 0 ==> r == Ok(()) && dataCollectors == Some([])
    {
      var bins: seq<seq<string>> := [];
      var i := 0;
      while i < numThreads
        invariant 0 <= i <= (if numThreads > 0 then numThreads else 0)
        invariant bins == seq(i, _ => [])
      {
        bins := bins + [[]];
        i := i + 1;
      }
      var binIdx := 0;
      for k := 0 to |tickers|
        invariant numThreads >= 1 ==> bins == Deal(tickers[..k], numThreads) && binIdx == k % numThreads
        invariant numThreads < 1 ==> bins == [] && k == 0
        invariant dataCollectors == old(dataCollectors)
      {
        if binIdx >= |bins| {
          return Raise(IndexError);
        }
        assert tickers[..k + 1][..k] == tickers[..k];
        bins := bins[binIdx := bins[binIdx] + [tickers[k]]];
        binIdx := binIdx + 1;
        if binIdx == |bins| {
          binIdx := 0;
        }
        DivModStep(k, numThreads);
      }
      assert tickers[..|tickers|] == tickers;
      dataCollectors := Some(bins);
      r := Ok(());
    }
  }
}
