/**
 * The orchestration around the matcher (runner/runner.py,
 * runner/pearson_runner.py, and the sequential meaning of
 * processor/processor.py).
 *
 * A runner picks its processor from two configuration flags, reads the
 * input directory and format, derives ticker names from the data files and
 * loads every ticker into a cache shared by all runners.  `run` extracts
 * the pattern from the last `days_back` rows of one ticker, matches it
 * against every cached table, sorts the results by descending score
 * (stably), keeps the first `top` and numbers them 1..K.
 */
module PatternRunner {
  import opened Py
  import opened Matcher
  import J = Job

  // ---------------------------------------------------------------------
  // Configuration and processor selection
  // ---------------------------------------------------------------------

  /** A configuration value as the runner sees it; only `BoolValue(true)`
      passes the identity test `is True`. */
  datatype ConfValue = BoolValue(b: bool) | IntValue(i: int) | StrValue(s: string) | NoneValue

  /** The entries of the `[input]` and `[measurement]` sections a runner reads. */
  datatype Conf = Conf(
    dir: string,
    format: string,
    concurrency: string,
    multiprocessing: ConfValue,
    threading: ConfValue)

  datatype ProcessorKind = MultiProcessing | MultiThreading

  /** The processor choice of `PearsonRunner.__init__`. */
  function SelectProcessor(multiprocessing: ConfValue, threading: ConfValue): (r: Result<ProcessorKind>)
    ensures r == Ok(MultiProcessing) <==> multiprocessing == BoolValue(true)
    ensures r == Ok(MultiThreading) <==> multiprocessing != BoolValue(true) && threading == BoolValue(true)
    ensures r.Raise? <==> multiprocessing != BoolValue(true) && threading != BoolValue(true)
    ensures r.Raise? ==> r.exc == ConfigError
  {
    if multiprocessing == BoolValue(true) then Ok(MultiProcessing)
    else if threading == BoolValue(true) then Ok(MultiThreading)
    else Raise(ConfigError)
  }

  /** A configuration file yields strings only, and no string is `True`:
      flags read from text never select a processor. */
  lemma TextFlagsNeverSelect(multiprocessing: string, threading: string)
    ensures SelectProcessor(StrValue(multiprocessing), StrValue(threading)) == Raise(ConfigError)
  {
  }

  // ---------------------------------------------------------------------
  // Ticker names from file names
  // ---------------------------------------------------------------------

  /** `s.rfind(c)`: the last index of c, or -1. */
  function LastIndex(s: string, c: char): (k: int)
    ensures -1 <= k < |s|
    ensures k >= 0 ==> s[k] == c
    ensures forall j :: k < j < |s| ==> s[j] != c
  {
    if s == [] then -1
    else if s[|s| - 1] == c then |s| - 1
    else LastIndex(s[..|s| - 1], c)
  }

  /** `os.path.basename`: the text after the last '/'. */
  function Basename(path: string): (r: string)
    ensures '/' !in r
    ensures |r| <= |path| && r == path[|path| - |r|..]
  {
    path[LastIndex(path, '/') + 1..]
  }

  /** `os.path.splitext(p)[0]`: p without its last extension, where a
      leading run of dots does not start an extension. */
  function SplitExtRoot(p: string): (r: string)
    ensures r == p || (0 <= LastIndex(p, '.') && r == p[..LastIndex(p, '.')])
  {
    var sep, dot := LastIndex(p, '/'), LastIndex(p, '.');
    if dot > sep && exists j :: sep < j < dot && p[j] != '.' then p[..dot] else p
  }

  /** The ticker a data file holds: `splitext(basename(file))[0].split('.')[0]`. */
  function TickerName(file: string): string
  {
    Split(SplitExtRoot(Basename(file)), ".")[0]
  }

  /** A ticker name is the file's basename truncated at its first '.'. */
  lemma TickerNameIsPrefixBeforeFirstDot(file: string)
    ensures PrefixBefore(Basename(file), '.', TickerName(file))
  {
    var b := Basename(file);
    var root := SplitExtRoot(b);
    var t := TickerName(file);
    SplitFirstPiece(b, '.');
    SplitFirstPiece(root, '.');
    var p := Split(b, ".")[0];
    if root != b {
      // root is b cut at its last '.', and the first '.' is no later than that
      var dot := LastIndex(b, '.');
      assert root == b[..dot];
      assert |p| <= dot;
      assert PrefixBefore(root, '.', p);
      PrefixBeforeUnique(root, '.', p, t);
    }
  }

  function TickerNames(files: seq<string>): (r: seq<string>)
    ensures |r| == |files|
    ensures forall k :: 0 <= k < |files| ==> r[k] == TickerName(files[k])
  {
    seq(|files|, k requires 0 <= k < |files| => TickerName(files[k]))
  }

  // ---------------------------------------------------------------------
  // The shared cache of tables
  // ---------------------------------------------------------------------

  /** The dictionary `_CACHE_DATA` as a value: its keys in insertion order
      and its contents. */
  datatype CacheState = CacheState(keys: seq<string>, data: map<string, seq<Row>>)

  predicate WellFormed(st: CacheState) {
    && (forall i, j :: 0 <= i < j < |st.keys| ==> st.keys[i] != st.keys[j])
    && (forall t :: t in st.data ==> t in st.keys)
    && (forall t :: t in st.keys ==> t in st.data)
  }

  /** `d[t] = rows`: a new key goes to the end, an existing key keeps its place. */
  function Put(st: CacheState, t: string, rows: seq<Row>): (r: CacheState)
    ensures WellFormed(st) ==> WellFormed(r)
    ensures r.data == st.data[t := rows]
    ensures st.keys <= r.keys
  {
    CacheState(if t in st.data then st.keys else st.keys + [t], st.data[t := rows])
  }

  /** Storing entries one after another, first to last. */
  function PutAll(st: CacheState, entries: seq<(string, seq<Row>)>): CacheState
  {
    if entries == [] then st
    else
      var last := entries[|entries| - 1];
      Put(PutAll(st, entries[..|entries| - 1]), last.0, last.1)
  }

  /** After storing entries, every stored key is present, nothing was removed,
      the old keys keep their order and a key holds its last stored table. */
  lemma {:induction false} PutAllStores(st: CacheState, entries: seq<(string, seq<Row>)>)
    requires WellFormed(st)
    ensures var r := PutAll(st, entries);
      && WellFormed(r)
      && st.keys <= r.keys
      && (forall t :: t in st.data ==> t in r.data)
      && (forall k :: 0 <= k < |entries| ==> entries[k].0 in r.data)
    decreases |entries|
  {
    if entries != [] {
      var init, last := entries[..|entries| - 1], entries[|entries| - 1];
      PutAllStores(st, init);
      var mid := PutAll(st, init);
      var r := Put(mid, last.0, last.1);
      assert r == PutAll(st, entries);
      forall k | 0 <= k < |entries| ensures entries[k].0 in r.data {
        if k < |entries| - 1 {
          assert init[k] == entries[k];
          assert entries[k].0 in mid.data;
        }
      }
    }
  }

  /** The class-level dictionary every runner shares. */
  class SeriesCache {
    var keys: seq<string>
    var data: map<string, seq<Row>>

    function State(): CacheState
      reads this
    {
      CacheState(keys, data)
    }

    predicate Valid()
      reads this
    {
      WellFormed(State())
    }

    constructor ()
      ensures Valid() && keys == [] && data == map[]
    {
      keys, data := [], map[];
    }

    method Store(t: string, rows: seq<Row>)
      requires Valid()
      modifies this
      ensures Valid()
      ensures State() == Put(old(State()), t, rows)
    {
      if t !in data {
        keys := keys + [t];
      }
      data := data[t := rows];
    }

    /** The loop of `load_data`: store the table of each ticker in turn,
        stopping at the first one whose file does not load. */
    method LoadAll(ts: seq<string>, dir: string, fmt: string, readable: map<string, seq<Row>>)
      returns (r: Result<()>, ghost loaded: nat)
      requires Valid()
      modifies this
      ensures Valid()
      ensures loaded <= |ts|
      ensures r.Ok? <==> loaded == |ts|
      ensures AllLoad(ts, dir, fmt, readable, loaded)
      ensures r.Raise? ==> DataFile(dir, ts[loaded], fmt) !in readable && r.exc == LoadError(ts[loaded])
      ensures State() == PutAll(old(State()), LoadedEntries(ts, dir, fmt, readable, loaded))
    {
      ghost var st0 := State();
      var k := 0;
      while k < |ts|
        invariant 0 <= k <= |ts|
        invariant Valid()
        invariant AllLoad(ts, dir, fmt, readable, k)
        invariant State() == PutAll(st0, LoadedEntries(ts, dir, fmt, readable, k))
      {
        var t := ts[k];
        var path := DataFile(dir, t, fmt);
        if path !in readable {
          return Raise(LoadError(t)), k;
        }
        LoadedEntriesStep(st0, ts, dir, fmt, readable, k);
        Store(t, readable[path]);
        k := k + 1;
      }
      r, loaded := Ok(()), k;
    }
  }

  // ---------------------------------------------------------------------
  // The processor, run sequentially
  // ---------------------------------------------------------------------

  /** A positional argument of a measurement job. */
  datatype JobArg = PatternArg(values: seq<real>) | IntArg(i: int)

  type MatchJob = J.Job<Measure, JobArg>

  /** The (pattern, days_forward, steps) a job carries, when it carries
      three values of those types. */
  function JobInputs(job: MatchJob): Option<(seq<real>, int, int)>
    requires |job.args| >= 3
  {
    match (job.args[0], job.args[1], job.args[2])
    case (PatternArg(p), IntArg(df), IntArg(st)) => Some((p, df, st))
    case _ => None
  }

  /** The match of one table returns instead of raising. */
  ghost predicate MatchSucceeds(measure: Measure, series: seq<Row>, pattern: seq<real>, daysForward: int, steps: int) {
    && steps >= 1
    && !HasTruncated(|pattern|, |series|, daysForward, steps)
    && exists i :: Eligible(i, |pattern|, |series|, daysForward, steps) && Score(measure, pattern, series, i) > FloatMin
  }

  /** res is what the matcher returns for this table. */
  ghost predicate IsMatchOf(res: MatchResult, measure: Measure, series: seq<Row>, pattern: seq<real>, daysForward: int, steps: int) {
    exists fr :: IsBest(measure, pattern, series, daysForward, steps, fr)
      && res == ResultAt(res.ticker, series, |pattern|, daysForward, fr, Score(measure, pattern, series, fr))
  }

  /** The tickers, in cache order, whose match does not raise. */
  ghost function Succeeding(keys: seq<string>, data: map<string, seq<Row>>, measure: Measure,
                            pattern: seq<real>, daysForward: int, steps: int): (r: seq<string>)
    requires forall t :: t in keys ==> t in data
    ensures |r| <= |keys|
    ensures forall t :: t in r ==> t in keys
  {
    if keys == [] then []
    else
      var t := keys[|keys| - 1];
      Succeeding(keys[..|keys| - 1], data, measure, pattern, daysForward, steps)
        + (if MatchSucceeds(measure, data[t], pattern, daysForward, steps) then [t] else [])
  }

  /** The succeeding tickers are exactly the cached tickers whose match
      does not raise. */
  lemma {:induction false} SucceedingMembers(keys: seq<string>, data: map<string, seq<Row>>, measure: Measure,
                                             pattern: seq<real>, daysForward: int, steps: int, t: string)
    requires forall t :: t in keys ==> t in data
    ensures t in Succeeding(keys, data, measure, pattern, daysForward, steps) <==>
              t in keys && MatchSucceeds(measure, data[t], pattern, daysForward, steps)
    decreases |keys|
  {
    if keys != [] {
      var init := keys[..|keys| - 1];
      SucceedingMembers(init, data, measure, pattern, daysForward, steps, t);
      assert keys == init + [keys[|keys| - 1]];
    }
  }

  /** results holds one match per succeeding ticker, in cache order. */
  ghost predicate Collected(results: seq<MatchResult>, keys: seq<string>, data: map<string, seq<Row>>,
                            measure: Measure, pattern: seq<real>, daysForward: int, steps: int)
    requires forall t :: t in keys ==> t in data
  {
    var succ := Succeeding(keys, data, measure, pattern, daysForward, steps);
    && |results| == |succ|
    && forall j :: 0 <= j < |results| ==>
         results[j].ticker == succ[j] && IsMatchOf(results[j], measure, data[succ[j]], pattern, daysForward, steps)
  }

  /** `process(data, job, concurrency)`: run the job's matcher over every
      cached table, keeping the results of the calls that return and
      dropping the ones that raise.  Both processors read the job arguments
      first and then build a pool of `concurrency` workers, which raises
      ValueError unless the count is positive.  The threading processor
      reads a fourth job argument and passes the ticker where the matcher
      expects its start time, so every one of its calls raises. */
  method Process(kind: ProcessorKind, cache: CacheState, job: MatchJob, concurrency: int) returns (r: Result<seq<MatchResult>>)
    requires WellFormed(cache)
    ensures kind == MultiThreading ==>
      r == if |job.args| < 4 then Raise(IndexError) else if concurrency <= 0 then Raise(ValueError) else Ok([])
    ensures kind == MultiProcessing && |job.args| < 3 ==> r == Raise(IndexError)
    ensures kind == MultiProcessing && |job.args| >= 3 && concurrency <= 0 ==> r == Raise(ValueError)
    ensures kind == MultiProcessing && |job.args| >= 3 && concurrency >= 1 && JobInputs(job).None? ==> r == Ok([])
    ensures kind == MultiProcessing && |job.args| >= 3 && concurrency >= 1 && JobInputs(job).Some? ==>
      var (p, df, st) := JobInputs(job).value;
      && (r == Raise(Hangs) <==> exists t :: t in cache.keys && Stalls(|p|, |cache.data[t]|, df, st))
      && (r.Ok? || r == Raise(Hangs))
      && (r.Ok? ==> Collected(r.value, cache.keys, cache.data, job.exec, p, df, st))
  {
    if kind == MultiThreading {
      if |job.args| < 4 {
        return Raise(IndexError);
      }
      if concurrency <= 0 {
        // ThreadPoolExecutor(max_workers=concurrency)
        return Raise(ValueError);
      }
      return Ok([]);
    }
    if |job.args| < 3 {
      return Raise(IndexError);
    }
    if concurrency <= 0 {
      // ProcessPoolExecutor(max_workers=concurrency)
      return Raise(ValueError);
    }
    var inputs := JobInputs(job);
    if inputs.None? {
      // a pattern that is not a list, or a count that is not an int, makes every call raise
      return Ok([]);
    }
    var (p, df, st) := inputs.value;
    r := MatchAll(job.exec, cache.keys, cache.data, p, df, st);
  }

  /** The multiprocessing loop: one matcher call per cached ticker, in
      order, keeping the results of the calls that return; a call that
      never returns stops everything. */
  method MatchAll(measure: Measure, keys: seq<string>, data: map<string, seq<Row>>,
                  p: seq<real>, df: int, st: int) returns (r: Result<seq<MatchResult>>)
    requires forall t :: t in keys ==> t in data
    ensures r == Raise(Hangs) <==> exists t :: t in keys && Stalls(|p|, |data[t]|, df, st)
    ensures r.Ok? || r == Raise(Hangs)
    ensures r.Ok? ==> Collected(r.value, keys, data, measure, p, df, st)
  {
    var results: seq<MatchResult> := [];
    var k := 0;
    while k < |keys|
      invariant 0 <= k <= |keys|
      invariant Collected(results, keys[..k], data, measure, p, df, st)
      invariant forall j :: 0 <= j < k ==> !Stalls(|p|, |data[keys[j]]|, df, st)
    {
      var t := keys[k];
      var res, fr := Match(measure, t, data[t], p, df, st);
      if res == Raise(Hangs) {
        assert t in keys;
        return Raise(Hangs);
      }
      var extra := if res.Ok? then [res.value] else [];
      if res.Ok? {
        assert IsBest(measure, p, data[t], df, st, fr);
        assert MatchSucceeds(measure, data[t], p, df, st);
      }
      CollectedStep(results, keys, k, data, measure, p, df, st, extra);
      results := results + extra;
      k := k + 1;
    }
    assert keys[..k] == keys;
    r := Ok(results);
  }

  /** Matching one more table extends the collected results by its match,
      or by nothing when the match raises. */
  lemma CollectedStep(results: seq<MatchResult>, keys: seq<string>, k: nat, data: map<string, seq<Row>>,
                      measure: Measure, p: seq<real>, df: int, st: int, extra: seq<MatchResult>)
    requires k < |keys| && forall t :: t in keys ==> t in data
    requires Collected(results, keys[..k], data, measure, p, df, st)
    requires MatchSucceeds(measure, data[keys[k]], p, df, st) ==>
      |extra| == 1 && extra[0].ticker == keys[k] && IsMatchOf(extra[0], measure, data[keys[k]], p, df, st)
    requires !MatchSucceeds(measure, data[keys[k]], p, df, st) ==> extra == []
    ensures Collected(results + extra, keys[..k + 1], data, measure, p, df, st)
  {
    var pre, all := keys[..k], keys[..k + 1];
    assert all[..|all| - 1] == pre;
    var succ := Succeeding(pre, data, measure, p, df, st);
    var succ' := Succeeding(all, data, measure, p, df, st);
    var ok := MatchSucceeds(measure, data[keys[k]], p, df, st);
    assert succ' == succ + (if ok then [keys[k]] else []);
    var rs := results + extra;
    forall j | 0 <= j < |rs|
      ensures rs[j].ticker == succ'[j] && IsMatchOf(rs[j], measure, data[succ'[j]], p, df, st)
    {
      if j < |results| {
        assert rs[j] == results[j] && succ'[j] == succ[j];
      } else {
        assert rs[j] == extra[0] && succ'[j] == keys[k];
      }
    }
  }

  // ---------------------------------------------------------------------
  // Ranking
  // ---------------------------------------------------------------------

  /** Scores never increase along rs. */
  predicate SortedDesc(rs: seq<MatchResult>) {
    forall i, j :: 0 <= i < j < |rs| ==> rs[i].score >= rs[j].score
  }

  /** The results with score v, in their order. */
  function WithScore(rs: seq<MatchResult>, v: real): seq<MatchResult>
  {
    if rs == [] then []
    else (if rs[0].score == v then [rs[0]] else []) + WithScore(rs[1..], v)
  }

  /** Places x in front of the first result whose score it is not below. */
  function Insert(x: MatchResult, rs: seq<MatchResult>): (r: seq<MatchResult>)
    ensures |r| == |rs| + 1
  {
    if rs == [] || x.score >= rs[0].score then [x] + rs
    else [rs[0]] + Insert(x, rs[1..])
  }

  /** `results.sort(key=score, reverse=True)`: a stable sort by descending score. */
  function SortByScore(rs: seq<MatchResult>): (r: seq<MatchResult>)
    ensures |r| == |rs|
  {
    if rs == [] then [] else Insert(rs[0], SortByScore(rs[1..]))
  }

  lemma SortedCons(h: MatchResult, rs: seq<MatchResult>)
    requires SortedDesc(rs)
    requires forall j :: 0 <= j < |rs| ==> h.score >= rs[j].score
    ensures SortedDesc([h] + rs)
  {
    var t := [h] + rs;
    forall i, j | 0 <= i < j < |t| ensures t[i].score >= t[j].score {
      assert t[j] == rs[j - 1];
      if i > 0 {
        assert t[i] == rs[i - 1];
      }
    }
  }

  lemma {:induction false} InsertKeepsSorted(x: MatchResult, rs: seq<MatchResult>)
    requires SortedDesc(rs)
    ensures SortedDesc(Insert(x, rs))
    ensures multiset(Insert(x, rs)) == multiset(rs) + multiset{x}
    decreases |rs|
  {
    if rs == [] || x.score >= rs[0].score {
      SortedCons(x, rs);
    } else {
      InsertKeepsSorted(x, rs[1..]);
      InsertSortedPassed(x, rs);
    }
  }

  /** The step of InsertKeepsSorted where x goes past the first result:
      that result is at least every later one and above x. */
  lemma InsertSortedPassed(x: MatchResult, rs: seq<MatchResult>)
    requires SortedDesc(rs) && rs != [] && x.score < rs[0].score
    requires SortedDesc(Insert(x, rs[1..]))
    requires multiset(Insert(x, rs[1..])) == multiset(rs[1..]) + multiset{x}
    ensures SortedDesc(Insert(x, rs))
    ensures multiset(Insert(x, rs)) == multiset(rs) + multiset{x}
  {
    var tail := Insert(x, rs[1..]);
    assert Insert(x, rs) == [rs[0]] + tail;
    HeadDominates(x, rs, tail);
    SortedCons(rs[0], tail);
    assert multiset(rs) == multiset{rs[0]} + multiset(rs[1..]) by {
      assert rs == [rs[0]] + rs[1..];
    }
  }

  /** The first of a descending sequence is at least every element of a
      rearrangement of its tail with x added, when it is above x. */
  lemma HeadDominates(x: MatchResult, rs: seq<MatchResult>, tail: seq<MatchResult>)
    requires SortedDesc(rs) && rs != [] && x.score < rs[0].score
    requires multiset(tail) == multiset(rs[1..]) + multiset{x}
    ensures forall j :: 0 <= j < |tail| ==> rs[0].score >= tail[j].score
  {
    forall j | 0 <= j < |tail| ensures rs[0].score >= tail[j].score {
      assert tail[j] in multiset(tail);
      if tail[j] != x {
        assert tail[j] in rs[1..];
        var k :| 0 <= k < |rs[1..]| && rs[1..][k] == tail[j];
        assert rs[k + 1] == tail[j];
      }
    }
  }

  lemma WithScoreCons(h: MatchResult, t: seq<MatchResult>, v: real)
    ensures WithScore([h] + t, v) == (if h.score == v then [h] else []) + WithScore(t, v)
  {
    assert ([h] + t)[0] == h && ([h] + t)[1..] == t;
  }

  lemma {:induction false} InsertKeepsTies(x: MatchResult, rs: seq<MatchResult>, v: real)
    ensures WithScore(Insert(x, rs), v) == (if x.score == v then [x] else []) + WithScore(rs, v)
    decreases |rs|
  {
    if rs == [] || x.score >= rs[0].score {
      WithScoreCons(x, rs, v);
    } else {
      InsertKeepsTies(x, rs[1..], v);
      InsertTiesPassed(x, rs, v);
    }
  }

  /** The step of InsertKeepsTies where x goes past the first result: the
      two cannot both score v, so their order among the ties is kept. */
  lemma InsertTiesPassed(x: MatchResult, rs: seq<MatchResult>, v: real)
    requires rs != [] && x.score < rs[0].score
    requires WithScore(Insert(x, rs[1..]), v) == (if x.score == v then [x] else []) + WithScore(rs[1..], v)
    ensures WithScore(Insert(x, rs), v) == (if x.score == v then [x] else []) + WithScore(rs, v)
  {
    var rest := Insert(x, rs[1..]);
    var w := WithScore(rs[1..], v);
    var hx := if x.score == v then [x] else [];
    var h0 := if rs[0].score == v then [rs[0]] else [];
    assert WithScore(Insert(x, rs), v) == h0 + (hx + w) by {
      assert Insert(x, rs) == [rs[0]] + rest;
      WithScoreCons(rs[0], rest, v);
    }
    assert WithScore(rs, v) == h0 + w by {
      assert rs == [rs[0]] + rs[1..];
      WithScoreCons(rs[0], rs[1..], v);
    }
    SwapEmpty(h0, hx, w);
  }

  /** Of two sequences one of which is empty, either may come first. */
  lemma SwapEmpty<T>(a: seq<T>, b: seq<T>, w: seq<T>)
    requires a == [] || b == []
    ensures a + (b + w) == b + (a + w)
  {
    if a == [] {
      assert a + (b + w) == b + w == b + (a + w);
    } else {
      assert a + (b + w) == a + w == b + (a + w);
    }
  }

  /** The sort orders by descending score and is a permutation. */
  lemma {:induction false} SortByScoreOrders(rs: seq<MatchResult>)
    ensures SortedDesc(SortByScore(rs))
    ensures multiset(SortByScore(rs)) == multiset(rs)
    decreases |rs|
  {
    if rs != [] {
      SortByScoreOrders(rs[1..]);
      InsertKeepsSorted(rs[0], SortByScore(rs[1..]));
      assert rs == [rs[0]] + rs[1..];
    }
  }

  /** The sort is stable: results of equal score keep their collection order. */
  lemma {:induction false} SortByScoreStable(rs: seq<MatchResult>, v: real)
    ensures WithScore(SortByScore(rs), v) == WithScore(rs, v)
    decreases |rs|
  {
    if rs != [] {
      SortByScoreStable(rs[1..], v);
      InsertKeepsTies(rs[0], SortByScore(rs[1..]), v);
    }
  }

  /** What is left of a sequence after its first n elements is its tail. */
  lemma DroppedAreTail(rs: seq<MatchResult>, n: nat, y: MatchResult)
    requires n <= |rs|
    requires y in multiset(rs) - multiset(rs[..n])
    ensures y in rs[n..]
  {
    assert rs == rs[..n] + rs[n..];
    assert multiset(rs) == multiset(rs[..n]) + multiset(rs[n..]);
  }

  /** In a descending sequence nothing after the first n elements scores
      higher than one of them. */
  lemma PrefixDominates(sorted: seq<MatchResult>, n: nat)
    requires SortedDesc(sorted) && n <= |sorted|
    ensures forall x, y :: x in sorted[..n] && y in multiset(sorted) - multiset(sorted[..n])
              ==> x.score >= y.score
  {
    forall x, y | x in sorted[..n] && y in multiset(sorted) - multiset(sorted[..n])
      ensures x.score >= y.score
    {
      DroppedAreTail(sorted, n, y);
      var i :| 0 <= i < n && sorted[..n][i] == x;
      var j :| 0 <= j < |sorted| - n && sorted[n..][j] == y;
      assert sorted[i] == x && sorted[n + j] == y;
    }
  }

  /** `results[:top]` of the sorted results: min(top, n) of them for a
      non-negative top, and none of the dropped ones scores higher than a
      kept one. */
  lemma TopIsHighestPrefix(sorted: seq<MatchResult>, top: int)
    requires SortedDesc(sorted)
    ensures top >= 0 ==> |Slice(sorted, 0, top)| == if top < |sorted| then top else |sorted|
    ensures forall x, y :: x in Slice(sorted, 0, top) && y in multiset(sorted) - multiset(Slice(sorted, 0, top))
              ==> x.score >= y.score
  {
    var kept := Slice(sorted, 0, top);
    var n := |kept|;
    assert kept == sorted[..n];
    PrefixDominates(sorted, n);
  }

  // ---------------------------------------------------------------------
  // The JSON-shaped response
  // ---------------------------------------------------------------------

  /** The 'origin' block: ticker, pattern values and pattern dates. */
  datatype Origin = Origin(ticker: string, values: seq<real>, time: seq<string>)

  /** One numbered match: the future dates of the matcher's result are not kept. */
  datatype MatchEntry = MatchEntry(ticker: string, similarity: real, history: seq<real>, time: seq<string>, future: seq<real>)

  datatype Response = Response(origin: Origin, matches: map<int, MatchEntry>)

  function EntryOf(m: MatchResult): (e: MatchEntry)
    ensures e.ticker == m.ticker && e.similarity == m.score
    ensures e.history == m.history && e.time == m.historyDates && e.future == m.future
  {
    MatchEntry(m.ticker, m.score, m.history, m.historyDates, m.future)
  }

  /** k is one of the keys 1..n. */
  predicate Numbering(k: int, n: nat) {
    1 <= k <= n
  }

  /** The matches keyed 1..K in the order given. */
  function Numbered(predict: seq<MatchResult>): (m: map<int, MatchEntry>)
    ensures forall k :: k in m <==> Numbering(k, |predict|)
    ensures forall k :: Numbering(k, |predict|) ==> m[k] == EntryOf(predict[k - 1])
  {
    map k | 1 <= k <= |predict| && Numbering(k, |predict|) :: EntryOf(predict[k - 1])
  }

  /** Reading the numbered matches back in key order gives the entries in
      the order they were given. */
  lemma NumberedInOrder(predict: seq<MatchResult>)
    ensures seq(|predict|, k requires 0 <= k < |predict| => Numbered(predict)[k + 1])
            == seq(|predict|, k requires 0 <= k < |predict| => EntryOf(predict[k]))
  {
    forall k | 0 <= k < |predict| ensures Numbered(predict)[k + 1] == EntryOf(predict[k]) {
      assert Numbering(k + 1, |predict|);
    }
  }

  /** `convert_to_json`: the origin block as given, and the matches keyed by
      a counter starting at 1. */
  method ConvertToJson(ticker: string, values: seq<real>, dates: seq<string>, predict: seq<MatchResult>)
    returns (r: Response)
    ensures r.origin == Origin(ticker, values, dates)
    ensures r.matches == Numbered(predict)
  {
    var matches: map<int, MatchEntry> := map[];
    var i := 1;
    for n := 0 to |predict|
      invariant i == n + 1
      invariant matches == Numbered(predict[..n])
    {
      var item := predict[n];
      matches := matches[i := EntryOf(item)];
      i := i + 1;
    }
    assert predict[..|predict|] == predict;
    r := Response(Origin(ticker, values, dates), matches);
  }

  // ---------------------------------------------------------------------
  // The runner
  // ---------------------------------------------------------------------

  /** `dir + '/' + ticker + format`, the file a ticker is loaded from. */
  function DataFile(dir: string, ticker: string, format: string): string {
    dir + "/" + ticker + format
  }

  /** The last `days_back` rows of a table (`iloc[size - days_back:size]`). */
  function PatternWindow(series: seq<Row>, daysBack: int): (w: seq<Row>)
    ensures 0 <= daysBack <= |series| ==> w == series[|series| - daysBack..]
    ensures daysBack <= 0 ==> w == []
    ensures |series| < daysBack <= 2 * |series| ==> w == series[2 * |series| - daysBack..]
    ensures daysBack >= 2 * |series| ==> w == series
  {
    Slice(series, |series| - daysBack, |series|)
  }

  class PearsonRunner {
    /** The class-level `_CACHE_DATA`, shared with every other runner. */
    const cache: SeriesCache
    var processor: ProcessorKind
    var dataPath: string
    var format: string
    var concurrency: int
    var tickers: seq<string>

    /** A constructed runner: every one of its tickers is cached. */
    predicate Ready()
      reads this, cache
    {
      cache.Valid() && forall t :: t in tickers ==> t in cache.data
    }

    constructor (cache: SeriesCache, processor: ProcessorKind, cpuCount: int)
      ensures this.cache == cache && this.processor == processor
      ensures dataPath == "" && format == "" && concurrency == cpuCount && tickers == []
    {
      this.cache := cache;
      this.processor := processor;
      dataPath, format, concurrency, tickers := "", "", cpuCount, [];
    }

    /** `init_runner`: an empty directory or format raises; otherwise both
        are stored and the concurrency is parsed with int(). */
    method InitRunner(conf: Conf) returns (r: Result<()>)
      modifies this`dataPath, this`format, this`concurrency
      ensures conf.dir == "" || conf.format == "" ==>
        r == Raise(ConfigError) && dataPath == old(dataPath) && format == old(format) && concurrency == old(concurrency)
      ensures conf.dir != "" && conf.format != "" ==>
        && dataPath == conf.dir && format == conf.format
        && (ParseInt(conf.concurrency).Some? ==> r == Ok(()) && concurrency == ParseInt(conf.concurrency).value)
        && (ParseInt(conf.concurrency).None? ==> r == Raise(ValueError) && concurrency == old(concurrency))
    {
      if conf.dir == "" || conf.format == "" {
        return Raise(ConfigError);
      }
      dataPath := conf.dir;
      format := conf.format;
      var c := ParseInt(conf.concurrency);
      if c.None? {
        return Raise(ValueError);
      }
      concurrency := c.value;
      r := Ok(());
    }

    /** `get_all_tickers`, given the file names the directory listing found. */
    method GetAllTickers(files: seq<string>)
      modifies this`tickers
      ensures tickers == TickerNames(files)
    {
      tickers := TickerNames(files);
    }

    /** `load_data`: load every ticker into the shared cache, in order,
        stopping at the first one whose load fails.  `loaded` counts the
        tickers stored before that. */
    method LoadData(readable: map<string, seq<Row>>) returns (r: Result<()>, ghost loaded: nat)
      requires cache.Valid()
      modifies cache
      ensures cache.Valid()
      ensures loaded <= |tickers|
      ensures r.Ok? <==> loaded == |tickers|
      ensures AllLoad(tickers, dataPath, format, readable, loaded)
      ensures r.Raise? ==> DataFile(dataPath, tickers[loaded], format) !in readable
                           && r.exc == LoadError(tickers[loaded])
      ensures cache.State() == PutAll(old(cache.State()), LoadedEntries(tickers, dataPath, format, readable, loaded))
      ensures r.Ok? ==> forall t :: t in tickers ==> t in cache.data
    {
      r, loaded := cache.LoadAll(tickers, dataPath, format, readable);
      if r.Ok? {
        LoadedAreCached(old(cache.State()), tickers, dataPath, format, readable);
      }
    }

    /** The part of `PearsonRunner(conf)` that reads the configuration:
        choose the processor, then `init_runner`. */
    static method Configure(cache: SeriesCache, conf: Conf, cpuCount: int) returns (r: Result<PearsonRunner>)
      ensures r.Ok? <==> ConfOk(conf)
      ensures r.Raise? ==> r.exc == if ParseInt(conf.concurrency).None? && SelectProcessor(conf.multiprocessing, conf.threading).Ok?
                                       && conf.dir != "" && conf.format != ""
                                    then ValueError else ConfigError
      ensures r.Ok? ==>
        && fresh(r.value) && r.value.cache == cache && r.value.tickers == []
        && Ok(r.value.processor) == SelectProcessor(conf.multiprocessing, conf.threading)
        && r.value.dataPath == conf.dir && r.value.format == conf.format
        && Some(r.value.concurrency) == ParseInt(conf.concurrency)
    {
      var kind := SelectProcessor(conf.multiprocessing, conf.threading);
      if kind.Raise? {
        return Raise(kind.exc);
      }
      var runner := new PearsonRunner(cache, kind.value, cpuCount);
      var init := runner.InitRunner(conf);
      if init.Raise? {
        return Raise(init.exc);
      }
      r := Ok(runner);
    }

    /** `PearsonRunner(conf)`: read the configuration, list the tickers of
        the data files and load them.  `files` is what the directory listing
        returns and `readable` maps each data file that loads to its table.  The cache changes only when
        the configuration is usable. */
    static method Create(cache: SeriesCache, conf: Conf, files: seq<string>, readable: map<string, seq<Row>>, cpuCount: int)
      returns (r: Result<PearsonRunner>)
      requires cache.Valid()
      modifies cache
      ensures cache.Valid()
      ensures !ConfOk(conf) ==> r.Raise? && unchanged(cache)
      ensures r.Ok? <==> ConfOk(conf) && AllLoad(TickerNames(files), conf.dir, conf.format, readable, |files|)
      ensures r.Ok? ==>
        && fresh(r.value) && r.value.cache == cache && r.value.Ready()
        && Ok(r.value.processor) == SelectProcessor(conf.multiprocessing, conf.threading)
        && r.value.dataPath == conf.dir && r.value.format == conf.format
        && Some(r.value.concurrency) == ParseInt(conf.concurrency)
        && r.value.tickers == TickerNames(files)
    {
      var configured := Configure(cache, conf, cpuCount);
      if configured.Raise? {
        return Raise(configured.exc);
      }
      var runner := configured.value;
      runner.GetAllTickers(files);
      var loadResult, loaded := runner.LoadData(readable);
      if loadResult.Raise? {
        assert !AllLoad(runner.tickers, conf.dir, conf.format, readable, |files|) by {
          assert DataFile(conf.dir, runner.tickers[loaded], conf.format) !in readable;
        }
        return Raise(loadResult.exc);
      }
      r := Ok(runner);
    }

    /** `run(ticker, days_back, days_forward, top)`.  `clock` is the text of
        the current time used in the job name.  `job` is the job handed to
        the processor and `collected` the processor's results, in cache
        order (both ghost: the source does not return them). */
    method Run(ticker: string, daysBack: int, daysForward: int, top: int, measure: Measure, clock: string)
      returns (r: Result<Response>, ghost job: MatchJob, ghost collected: seq<MatchResult>)
      requires Ready()
      ensures ticker !in tickers ==> r == Raise(NameError)
      ensures ticker in tickers && |PatternWindow(cache.data[ticker], daysBack)| < 2 ==> r == Raise(IndexError)
      ensures ticker in tickers && |PatternWindow(cache.data[ticker], daysBack)| >= 2 ==>
        RunOutcome(r, job, collected, cache.State(), processor, concurrency, ticker,
                   PatternWindow(cache.data[ticker], daysBack), daysForward, top, measure, clock)
    {
      job, collected := J.Job("", measure, []), [];
      if ticker !in tickers {
        return Raise(NameError), job, collected;
      }
      var series := cache.data[ticker];
      var size := |series|;
      var window := Slice(series, size - daysBack, size);
      assert window == PatternWindow(series, daysBack);
      var patternDates := Dates(window);
      if |patternDates| < 2 {
        // `pattern_date[1]` is out of range
        return Raise(IndexError), job, collected;
      }
      var patternDateValues := [patternDates[1], patternDates[|patternDates| - 1]];
      var pattern := Closes(window);
      var measJob := J.Job("spearman-" + ticker + "-" + clock, measure, [PatternArg(pattern), IntArg(daysForward), IntArg(1)]);
      job := measJob;
      var results := Process(processor, cache.State(), measJob, concurrency);
      assert JobInputs(measJob) == Some((pattern, daysForward, 1));
      if results.Raise? {
        assert processor == MultiThreading || concurrency <= 0;
        return Raise(results.exc), job, collected;
      }
      assert processor == MultiProcessing && concurrency >= 1;
      collected := results.value;
      assert Collected(collected, cache.keys, cache.data, measure, pattern, daysForward, 1);
      var sorted := SortByScore(results.value);
      var topResults := Slice(sorted, 0, top);
      var response := ConvertToJson(ticker, pattern, patternDateValues, topResults);
      assert patternDateValues == [window[1].date, window[|window| - 1].date];
      r := Ok(response);
    }
  }

  /** A configuration from which a runner can be built: a processor flag is
      `True`, the input entries are non-empty and the concurrency is an int. */
  predicate ConfOk(conf: Conf) {
    && SelectProcessor(conf.multiprocessing, conf.threading).Ok?
    && conf.dir != "" && conf.format != ""
    && ParseInt(conf.concurrency).Some?
  }

  /** The first n tickers all load. */
  predicate AllLoad(tickers: seq<string>, dir: string, format: string, readable: map<string, seq<Row>>, n: nat) {
    n <= |tickers| && forall j :: 0 <= j < n ==> DataFile(dir, tickers[j], format) in readable
  }

  /** The (ticker, table) pairs the first n loads store. */
  function LoadedEntries(tickers: seq<string>, dir: string, format: string, readable: map<string, seq<Row>>, n: nat)
    : (r: seq<(string, seq<Row>)>)
    requires AllLoad(tickers, dir, format, readable, n)
    ensures |r| == n
    ensures forall j :: 0 <= j < n ==> r[j] == (tickers[j], readable[DataFile(dir, tickers[j], format)])
  {
    seq(n, j requires 0 <= j < n => (tickers[j], readable[DataFile(dir, tickers[j], format)]))
  }

  lemma LoadedEntriesStep(st: CacheState, tickers: seq<string>, dir: string, format: string,
                          readable: map<string, seq<Row>>, k: nat)
    requires AllLoad(tickers, dir, format, readable, k + 1)
    ensures PutAll(st, LoadedEntries(tickers, dir, format, readable, k + 1)) ==
      Put(PutAll(st, LoadedEntries(tickers, dir, format, readable, k)), tickers[k], readable[DataFile(dir, tickers[k], format)])
  {
    var e := LoadedEntries(tickers, dir, format, readable, k + 1);
    assert e[..k] == LoadedEntries(tickers, dir, format, readable, k);
  }

  /** After a load that did not fail, every ticker is in the cache. */
  lemma LoadedAreCached(st: CacheState, tickers: seq<string>, dir: string, format: string, readable: map<string, seq<Row>>)
    requires WellFormed(st)
    requires AllLoad(tickers, dir, format, readable, |tickers|)
    ensures forall t :: t in tickers ==> t in PutAll(st, LoadedEntries(tickers, dir, format, readable, |tickers|)).data
  {
    var entries := LoadedEntries(tickers, dir, format, readable, |tickers|);
    PutAllStores(st, entries);
    forall t | t in tickers ensures t in PutAll(st, entries).data {
      var k :| 0 <= k < |tickers| && tickers[k] == t;
      assert entries[k].0 == t;
    }
  }

  /** What `run` answers once the pattern window has two rows: the job it
      builds, and either the threading processor's IndexError, the pool's
      ValueError for a concurrency below 1, or the numbered top results of
      the multiprocessing fan-out. */
  ghost predicate RunOutcome(r: Result<Response>, job: MatchJob, collected: seq<MatchResult>, cache: CacheState,
                             processor: ProcessorKind, concurrency: int, ticker: string, window: seq<Row>, daysForward: int,
                             top: int, measure: Measure, clock: string)
    requires WellFormed(cache)
    requires |window| >= 2
  {
    var pattern := Closes(window);
    && job.name == "spearman-" + ticker + "-" + clock
    && job.exec == measure
    && job.args == [PatternArg(pattern), IntArg(daysForward), IntArg(1)]
    && (processor == MultiThreading ==> r == Raise(IndexError))
    && (processor == MultiProcessing && concurrency <= 0 ==> r == Raise(ValueError))
    && (processor == MultiProcessing && concurrency >= 1 ==>
          && Collected(collected, cache.keys, cache.data, measure, pattern, daysForward, 1)
          && r == Ok(Response(
               Origin(ticker, pattern, [window[1].date, window[|window| - 1].date]),
               Numbered(Slice(SortByScore(collected), 0, top)))))
  }

  /** What `run` returns is the best-ranked n = min(top, K) matches,
      numbered 1..n in descending score, where K is the number of results
      collected. */
  lemma RunReportsTop(collected: seq<MatchResult>, top: int, resp: Response, n: nat)
    requires top >= 0 && n == if top < |collected| then top else |collected|
    requires resp.matches == Numbered(Slice(SortByScore(collected), 0, top))
    ensures forall k :: k in resp.matches <==> Numbering(k, n)
    ensures forall i, j :: i in resp.matches && j in resp.matches && i < j ==>
              resp.matches[i].similarity >= resp.matches[j].similarity
  {
    SortByScoreOrders(collected);
    var sorted := SortByScore(collected);
    var kept := Slice(sorted, 0, top);
    assert |kept| == n;
    assert SortedDesc(kept) by {
      forall i, j | 0 <= i < j < n ensures kept[i].score >= kept[j].score {
        assert kept[i] == sorted[i] && kept[j] == sorted[j];
      }
    }
    NumberedKeepsOrder(kept);
  }

  /** Numbering a list sorted by descending score keeps the similarities
      non-increasing in key order. */
  lemma NumberedKeepsOrder(kept: seq<MatchResult>)
    requires SortedDesc(kept)
    ensures forall i, j :: i in Numbered(kept) && j in Numbered(kept) && i < j ==>
              Numbered(kept)[i].similarity >= Numbered(kept)[j].similarity
  {
    var m := Numbered(kept);
    forall i, j | i in m && j in m && i < j
      ensures m[i].similarity >= m[j].similarity
    {
      assert Numbering(i, |kept|) && Numbering(j, |kept|);
      assert m[i] == EntryOf(kept[i - 1]) && m[j] == EntryOf(kept[j - 1]);
    }
  }
}
