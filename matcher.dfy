/**
 * The sliding-window matcher of the pattern matcher (matcher/matcher.py).
 *
 * A window of |pattern| rows slides over one ticker's (date, close) table
 * in steps of `steps`; each window's closes are scored against the pattern
 * and the best window is kept, replaced only on a strictly greater score,
 * starting from the positive floor `sys.float_info.min`.  The Pearson and
 * the Spearman matcher run the same loop and differ only in which position
 * of the raw measurement they read; that choice is folded into `measure`.
 */
module Matcher {
  import opened Py

  /** One row of a cached table: its date and its closing price. */
  datatype Row = Row(date: string, close: real)

  /** The tuple `match` returns, without its timing pair:
      (ticker, best score, (history closes, history dates, future closes,
      future dates), row count). */
  datatype MatchResult = MatchResult(
    ticker: string,
    score: real,
    history: seq<real>,
    historyDates: seq<string>,
    future: seq<real>,
    futureDates: seq<string>,
    rows: nat)

  /** A similarity measure between the pattern and a window of closes. */
  type Measure = (seq<real>, seq<real>) -> real

  /** `sys.float_info.min`, the initial best score. */
  const FloatMin: real := 2.2250738585072014e-308

  function Closes(series: seq<Row>): (r: seq<real>)
    ensures |r| == |series|
    ensures forall k :: 0 <= k < |series| ==> r[k] == series[k].close
  {
    seq(|series|, k requires 0 <= k < |series| => series[k].close)
  }

  function Dates(series: seq<Row>): (r: seq<string>)
    ensures |r| == |series|
    ensures forall k :: 0 <= k < |series| ==> r[k] == series[k].date
  {
    seq(|series|, k requires 0 <= k < |series| => series[k].date)
  }

  /** Window start i is one the loop examines: 0, steps, 2*steps, ... while
      `i + window_size < rows - days_forward`. */
  predicate Examined(i: int, w: nat, n: nat, daysForward: int, steps: int) {
    1 <= steps && 0 <= i && i % steps == 0 && i + w < n - daysForward
  }

  /** An examined window whose rows `iloc[i:i + w]` gives in full: one
      inside the table, or any window of an empty pattern (an empty window
      past the end is still empty). */
  predicate Eligible(i: int, w: nat, n: nat, daysForward: int, steps: int) {
    Examined(i, w, n, daysForward, steps) && (i + w <= n || w == 0)
  }

  /** Some examined window of a non-empty pattern runs past the end of the
      table (only possible when days_forward is negative), so the slice
      is shorter than the pattern and measuring it fails. */
  ghost predicate HasTruncated(w: nat, n: nat, daysForward: int, steps: int) {
    exists i :: Examined(i, w, n, daysForward, steps) && !Eligible(i, w, n, daysForward, steps)
  }

  /** The loop never ends: with steps == 0 the counter stays on a first
      window that lies inside the table, and with steps < 0 it only moves
      back over the empty windows of an empty pattern. */
  predicate Stalls(w: nat, n: nat, daysForward: int, steps: int) {
    steps < 1 && w < n - daysForward && (if steps == 0 then w <= n else w == 0)
  }

  /** Python's slicing gives `iloc[i:i + w]` all w rows only when i is
      at most n rows before the end of the table. */
  lemma FullWindowStart(closes: seq<real>, i: int, w: nat)
    requires w >= 1 && |Slice(closes, i, i + w)| == w
    ensures i >= -|closes|
  {
  }

  /** The score of the window of closes starting at i, `iloc[i:i + w]`. */
  function Score(measure: Measure, pattern: seq<real>, series: seq<Row>, i: int): real
    requires 0 <= i
  {
    measure(pattern, Slice(Closes(series), i, i + |pattern|))
  }

  /** fr is the window the matcher must report: eligible, above the floor,
      at least as good as every eligible window and strictly better than
      every earlier one. */
  ghost predicate IsBest(measure: Measure, pattern: seq<real>, series: seq<Row>, daysForward: int, steps: int, fr: int) {
    var w, n := |pattern|, |series|;
    && Eligible(fr, w, n, daysForward, steps)
    && Score(measure, pattern, series, fr) > FloatMin
    && (forall i :: Eligible(i, w, n, daysForward, steps) ==>
          Score(measure, pattern, series, i) <= Score(measure, pattern, series, fr))
    && (forall i :: Eligible(i, w, n, daysForward, steps) && i < fr ==>
          Score(measure, pattern, series, i) < Score(measure, pattern, series, fr))
  }

  /** The result built from the window starting at fr: the slices
      `iloc[fr:to]` of closes and dates, and `iloc[to:to + days_forward]`
      after it, with Python's slicing. */
  function ResultAt(ticker: string, series: seq<Row>, w: nat, daysForward: int, fr: nat, score: real): MatchResult
  {
    var to := fr + w;
    MatchResult(ticker, score,
      Slice(Closes(series), fr, to), Slice(Dates(series), fr, to),
      Slice(Closes(series), to, to + daysForward), Slice(Dates(series), to, to + daysForward),
      |series|)
  }

  lemma MultipleBelowStep(steps: int, d: int)
    requires steps >= 1 && 0 <= steps * d < steps
    ensures d == 0
  {
    assert d >= 1 ==> steps * d >= steps * 1;
    assert d <= -1 ==> steps * d <= steps * -1;
  }

  lemma NextMultiple(i: int, j: int, steps: int)
    requires steps >= 1 && 0 <= i && i % steps == 0 && 0 <= j && j % steps == 0
    requires i <= j < i + steps
    ensures j == i
  {
    var qi, qj := i / steps, j / steps;
    assert j - i == steps * (qj - qi);
    MultipleBelowStep(steps, qj - qi);
  }

  lemma StepKeepsMultiple(i: int, steps: int)
    requires steps >= 1 && 0 <= i && i % steps == 0
    ensures (i + steps) % steps == 0
  {
    var x := i + steps;
    var q := i / steps;
    assert x == steps * (q + 1);
    assert x == steps * (x / steps) + x % steps;
    assert x % steps == steps * (q + 1 - x / steps);
    MultipleBelowStep(steps, q + 1 - x / steps);
  }

  /** `SpearmanMatcher.match` / `PearsonMatcher.match`.  `fr` is the start
      of the reported window (ghost: the source does not return it). */
  method Match(measure: Measure, ticker: string, series: seq<Row>, pattern: seq<real>, daysForward: int, steps: int)
    returns (r: Result<MatchResult>, ghost fr: int)
    ensures steps < 1 ==> r == Raise(if |pattern| >= |series| - daysForward then TypeError
                                     else if Stalls(|pattern|, |series|, daysForward, steps) then Hangs
                                     else MeasureError)
    ensures steps >= 1 && HasTruncated(|pattern|, |series|, daysForward, steps) ==> r == Raise(MeasureError)
    ensures steps >= 1 && !HasTruncated(|pattern|, |series|, daysForward, steps) ==>
      && (r.Ok? <==> exists i :: Eligible(i, |pattern|, |series|, daysForward, steps)
                                && Score(measure, pattern, series, i) > FloatMin)
      && (r.Raise? ==> r.exc == TypeError)
      && (r.Ok? ==> IsBest(measure, pattern, series, daysForward, steps, fr)
                    && r.value == ResultAt(ticker, series, |pattern|, daysForward, fr,
                                           Score(measure, pattern, series, fr)))
    ensures r.Ok? && daysForward >= 0 ==>
      |r.value.history| == |r.value.historyDates| == |pattern| &&
      |r.value.future| == |r.value.futureDates| == daysForward &&
      r.value.rows == |series| && r.value.ticker == ticker && r.value.score > FloatMin
  {
    var w, n := |pattern|, |series|;
    var closes := Closes(series);
    fr := 0;
    if steps < 1 {
      if w >= n - daysForward {
        // the loop never runs: fr and to are still None
        return Raise(TypeError), fr;
      }
      if Stalls(w, n, daysForward, steps) {
        return Raise(Hangs), fr;
      }
      // `i = i + steps` never moves i forward, so the loop condition keeps
      // holding; the walk stops at the first window Python's slicing cuts
      // short, whose measurement fails
      var i := 0;
      while |Slice(closes, i, i + w)| == w
        invariant i <= 0 && i + w < n - daysForward
        invariant steps == 0 ==> i == 0
        decreases n + i
      {
        FullWindowStart(closes, i, w);
        i := i + steps;
      }
      return Raise(MeasureError), fr;
    }
    var max := FloatMin;
    var found := false;
    var best := 0;
    var i := 0;
    while i + w < n - daysForward
      invariant 0 <= i && i % steps == 0
      invariant forall j :: Examined(j, w, n, daysForward, steps) && j < i ==> Eligible(j, w, n, daysForward, steps)
      invariant fr == best
      invariant found ==> Eligible(fr, w, n, daysForward, steps) && fr < i
                          && max == Score(measure, pattern, series, fr) && max > FloatMin
      invariant !found ==> max == FloatMin
      invariant forall j :: Eligible(j, w, n, daysForward, steps) && j < i ==>
                  Score(measure, pattern, series, j) <= max
      invariant found ==> forall j :: Eligible(j, w, n, daysForward, steps) && j < fr ==>
                  Score(measure, pattern, series, j) < max
      decreases n - daysForward - i
    {
      if w >= 1 && i + w > n {
        // the window is shorter than the pattern: the measurement fails
        assert Examined(i, w, n, daysForward, steps);
        return Raise(MeasureError), fr;
      }
      var value := measure(pattern, Slice(closes, i, i + w));
      if value > max {
        max := value;
        best, fr := i, i;
        found := true;
      }
      forall j | Examined(j, w, n, daysForward, steps) && i <= j < i + steps
        ensures j == i
      {
        NextMultiple(i, j, steps);
      }
      StepKeepsMultiple(i, steps);
      i := i + steps;
    }
    assert forall j :: Examined(j, w, n, daysForward, steps) ==> j < i;
    if !found {
      // fr and to are still None: `to + days_forward` raises TypeError
      return Raise(TypeError), fr;
    }
    r := Ok(ResultAt(ticker, series, w, daysForward, best, max));
  }

  /** The contract of Match pins the reported window down: two windows that
      both satisfy it are the same window. */
  lemma BestIsUnique(measure: Measure, pattern: seq<real>, series: seq<Row>, daysForward: int, steps: int, a: int, b: int)
    requires IsBest(measure, pattern, series, daysForward, steps, a)
    requires IsBest(measure, pattern, series, daysForward, steps, b)
    ensures a == b
  {
  }

  /** Among windows with equal maximal score, a later one is never reported. */
  lemma EarliestOfTies(measure: Measure, pattern: seq<real>, series: seq<Row>, daysForward: int, steps: int, fr: int, j: int)
    requires IsBest(measure, pattern, series, daysForward, steps, fr)
    requires Eligible(j, |pattern|, |series|, daysForward, steps)
    requires Score(measure, pattern, series, j) == Score(measure, pattern, series, fr)
    ensures fr <= j
  {
  }
}
