/**
 * The automated news scraper (web_scrapper/scrapper/automated_scrapper.py).
 *
 * For every ticker it follows and every configured news source, the
 * scraper fetches headlines and reports only those strictly newer than
 * the latest date it has seen for that (source, ticker) pair.  That
 * high-water mark only moves forward.  Reports pile up in a result set
 * that `run` hands back and empties.
 *
 * Fetching is I/O: what the site returns for a (source, ticker) pair is a
 * parameter, either the headlines or the exception the fetch raised.
 */
module NewsWatch {
  import opened Py

  /** A scraped headline: its date, in seconds since the epoch, and the
      rest of its fields, which are copied through unchanged. */
  datatype Headline = Headline(date: real, fields: map<string, string>)

  /** A stored timestamp: `float('-inf')` or a date. */
  datatype Stamp = NegInf | At(t: real)

  /** `a > b` on stamps. */
  predicate Later(a: Stamp, b: Stamp) {
    a.At? && (b.NegInf? || a.t > b.t)
  }

  /** The larger of two stamps, the first one on a tie. */
  function Max(a: Stamp, b: Stamp): (r: Stamp)
    ensures !Later(a, r) && !Later(b, r)
    ensures r == a || r == b
  {
    if Later(b, a) then b else a
  }

  /** `max(h['date'] for h in hs)`, or `float('-inf')` when there is none. */
  function Newest(hs: seq<Headline>): (r: Stamp)
    ensures hs == [] <==> r == NegInf
    ensures forall k :: 0 <= k < |hs| ==> !Later(At(hs[k].date), r)
    ensures r.At? ==> exists k :: 0 <= k < |hs| && hs[k].date == r.t
  {
    if hs == [] then NegInf
    else
      var r := Max(Newest(hs[..|hs| - 1]), At(hs[|hs| - 1].date));
      assert forall k :: 0 <= k < |hs| - 1 ==> hs[k] == hs[..|hs| - 1][k];
      r
  }

  /** The headlines strictly newer than `s`, in their order. */
  function Fresh(hs: seq<Headline>, s: Stamp): (r: seq<Headline>)
    ensures |r| <= |hs|
    ensures forall k :: 0 <= k < |r| ==> Later(At(r[k].date), s)
  {
    if hs == [] then []
    else Fresh(hs[..|hs| - 1], s) + (if Later(At(hs[|hs| - 1].date), s) then [hs[|hs| - 1]] else [])
  }

  /** A headline is reported exactly when it was scraped and is newer than
      the stamp. */
  lemma {:induction false} FreshMembers(hs: seq<Headline>, s: Stamp, h: Headline)
    ensures h in Fresh(hs, s) <==> h in hs && Later(At(h.date), s)
  {
    if hs != [] {
      var init := hs[..|hs| - 1];
      FreshMembers(init, s, h);
      assert hs == init + [hs[|hs| - 1]];
    }
  }

  /** Nothing is newer than a stamp at least as late as every headline. */
  lemma {:induction false} FreshNone(hs: seq<Headline>, s: Stamp)
    requires forall k :: 0 <= k < |hs| ==> !Later(At(hs[k].date), s)
    ensures Fresh(hs, s) == []
  {
    if hs != [] {
      var init := hs[..|hs| - 1];
      assert forall k :: 0 <= k < |init| ==> init[k] == hs[k];
      FreshNone(init, s);
    }
  }

  /** Once the stamp has taken in a scrape, the same headlines report
      nothing again. */
  lemma FreshAfterUpdate(hs: seq<Headline>, cur: Stamp)
    ensures Fresh(hs, Max(cur, Newest(hs))) == []
  {
    var s := Max(cur, Newest(hs));
    forall k | 0 <= k < |hs|
      ensures !Later(At(hs[k].date), s)
    {
      assert !Later(At(hs[k].date), Newest(hs));
    }
    FreshNone(hs, s);
  }

  // ---------------------------------------------------------------------
  // The two tables
  // ---------------------------------------------------------------------

  /** `__most_recent_news_timestamp`: source, then ticker, to stamp. */
  type Stamps = map<string, map<string, Stamp>>

  /** `__result_set`: ticker, then source, to the reported headlines. */
  type Results = map<string, map<string, seq<Headline>>>

  /** The pair already has a stamp. */
  predicate Tracked(latest: Stamps, source: string, ticker: string) {
    source in latest && ticker in latest[source]
  }

  /** Every stamp of `a` is still in `b` and no later there. */
  predicate Advanced(a: Stamps, b: Stamps) {
    forall s, t :: s in a && t in a[s] ==> Tracked(b, s, t) && !Later(a[s][t], b[s][t])
  }

  lemma AdvancedTransitive(a: Stamps, b: Stamps, c: Stamps)
    requires Advanced(a, b) && Advanced(b, c)
    ensures Advanced(a, c)
  {
    forall s, t | Tracked(a, s, t)
      ensures Tracked(c, s, t) && !Later(a[s][t], c[s][t])
    {
      assert Tracked(b, s, t);
    }
  }

  lemma StillTracked(a: Stamps, b: Stamps, source: string, ticker: string)
    requires Advanced(a, b) && Tracked(a, source, ticker)
    ensures Tracked(b, source, ticker)
  {
  }

  /** The key preparation of `build_variables_by_values`: a missing stamp
      starts at `float('-inf')`, and nothing else changes. */
  function PrepareStamps(latest: Stamps, source: string, ticker: string): (r: Stamps)
    ensures Tracked(r, source, ticker)
    ensures Tracked(latest, source, ticker) ==> r == latest
    ensures !Tracked(latest, source, ticker) ==> r[source][ticker] == NegInf
    ensures Advanced(latest, r)
  {
    var inner := if source in latest then latest[source] else map[];
    if ticker in inner then latest else latest[source := inner[ticker := NegInf]]
  }

  /** The result-set preparation: a missing ticker gets an empty entry. */
  function PrepareResults(results: Results, ticker: string): (r: Results)
    ensures ticker in r
    ensures ticker in results ==> r == results
    ensures ticker !in results ==> r == results[ticker := map[]]
  {
    if ticker in results then results else results[ticker := map[]]
  }

  /** The stamp after `set_latest_news_timestamp`: the later of the stored
      one and the newest scraped date. */
  function Raised(latest: Stamps, source: string, ticker: string, hs: seq<Headline>): (r: Stamps)
    requires Tracked(latest, source, ticker)
  {
    latest[source := latest[source][ticker := Max(latest[source][ticker], Newest(hs))]]
  }

  /** The stamp never moves back, takes in every scraped date, and an
      empty scrape leaves it as it was. */
  lemma RaisedAdvances(latest: Stamps, source: string, ticker: string, hs: seq<Headline>)
    requires Tracked(latest, source, ticker)
    ensures Advanced(latest, Raised(latest, source, ticker, hs))
    ensures forall k :: 0 <= k < |hs| ==> !Later(At(hs[k].date), Raised(latest, source, ticker, hs)[source][ticker])
    ensures hs == [] ==> Raised(latest, source, ticker, hs) == latest
  {
    var r := Raised(latest, source, ticker, hs);
    forall s, t | Tracked(latest, s, t)
      ensures Tracked(r, s, t) && !Later(latest[s][t], r[s][t])
    {
    }
    if hs == [] {
      assert latest[source][ticker := latest[source][ticker]] == latest[source];
    }
  }

  /** Both tables after `scrape_with_ticker` for one pair, given what the
      fetch returned.  A failed fetch or a pair without a stamp changes
      nothing; new headlines need the ticker's result entry, whose absence
      raises before the stamp moves; otherwise the new headlines replace
      the source's entry and the stamp takes in the scrape. */
  function Scraped(latest: Stamps, results: Results, source: string, ticker: string, fetched: Result<seq<Headline>>)
    : (Stamps, Results)
  {
    if fetched.Raise? || !Tracked(latest, source, ticker) then (latest, results)
    else
      var news := Fresh(fetched.value, latest[source][ticker]);
      if news == [] then (Raised(latest, source, ticker, fetched.value), results)
      else if ticker !in results then (latest, results)
      else (Raised(latest, source, ticker, fetched.value), results[ticker := results[ticker][source := news]])
  }

  /** A scrape never moves a stamp back. */
  lemma ScrapedAdvances(latest: Stamps, results: Results, source: string, ticker: string, fetched: Result<seq<Headline>>)
    ensures Advanced(latest, Scraped(latest, results, source, ticker, fetched).0)
  {
    if fetched.Ok? && Tracked(latest, source, ticker) {
      RaisedAdvances(latest, source, ticker, fetched.value);
    }
  }

  /** What a scrape reports is exactly the fetched headlines strictly newer
      than the pair's stamp, and the stamp then covers all of them. */
  lemma ScrapedReportsFresh(latest: Stamps, results: Results, source: string, ticker: string, hs: seq<Headline>)
    requires Tracked(latest, source, ticker) && ticker in results
    requires Fresh(hs, latest[source][ticker]) != []
    ensures Scraped(latest, results, source, ticker, Ok(hs)).1[ticker][source] == Fresh(hs, latest[source][ticker])
    ensures forall h :: h in Scraped(latest, results, source, ticker, Ok(hs)).1[ticker][source] <==>
      h in hs && Later(At(h.date), latest[source][ticker])
    ensures forall k :: 0 <= k < |hs| ==>
      !Later(At(hs[k].date), Scraped(latest, results, source, ticker, Ok(hs)).0[source][ticker])
  {
    forall h
      ensures h in Fresh(hs, latest[source][ticker]) <==> h in hs && Later(At(h.date), latest[source][ticker])
    {
      FreshMembers(hs, latest[source][ticker], h);
    }
    RaisedAdvances(latest, source, ticker, hs);
  }

  /** Scraping the same headlines twice in a row is scraping them once: the
      second pass finds nothing new and leaves both tables alone. */
  lemma ScrapedTwice(latest: Stamps, results: Results, source: string, ticker: string, fetched: Result<seq<Headline>>)
    requires Tracked(latest, source, ticker) ==> ticker in results
    ensures var (l1, r1) := Scraped(latest, results, source, ticker, fetched);
            Scraped(l1, r1, source, ticker, fetched) == (l1, r1)
  {
    if fetched.Ok? && Tracked(latest, source, ticker) {
      var hs := fetched.value;
      var (l1, r1) := Scraped(latest, results, source, ticker, fetched);
      assert l1 == Raised(latest, source, ticker, hs);
      FreshAfterUpdate(hs, latest[source][ticker]);
      assert Fresh(hs, l1[source][ticker]) == [];
      var m := Max(l1[source][ticker], Newest(hs));
      assert m == l1[source][ticker];
      assert l1[source][ticker := m] == l1[source];
      assert l1[source := l1[source]] == l1;
      assert Raised(l1, source, ticker, hs) == l1;
    }
  }

  /** The pair's stamp, or the `float('-inf')` that the key preparation of
      `build_variables_by_values` gives a pair without one. */
  function StampOf(latest: Stamps, source: string, ticker: string): Stamp {
    if Tracked(latest, source, ticker) then latest[source][ticker] else NegInf
  }

  /** The entry `results[ticker][source]` holds what it held in `before`. */
  predicate KeptEntry(before: Results, results: Results, ticker: string, source: string)
    requires ticker in results && source in results[ticker]
  {
    ticker in before && source in before[ticker] && results[ticker][source] == before[ticker][source]
  }

  /** hs is what one scrape of the pair reports from the stamps `latest`:
      the fetched headlines strictly newer than the pair's stamp, at least
      one of them. */
  predicate Reported(fetch: (string, string) -> Result<seq<Headline>>, latest: Stamps, source: string, ticker: string, hs: seq<Headline>) {
    fetch(source, ticker).Ok? && hs == Fresh(fetch(source, ticker).value, StampOf(latest, source, ticker)) && hs != []
  }

  /** hs is non-empty, and every headline in it was fetched for the pair
      and is strictly newer than the pair's stamp in `latest`. */
  predicate FetchedNewer(fetch: (string, string) -> Result<seq<Headline>>, latest: Stamps, source: string, ticker: string, hs: seq<Headline>) {
    && fetch(source, ticker).Ok?
    && hs != []
    && forall h :: h in hs ==> h in fetch(source, ticker).value && Later(At(h.date), StampOf(latest, source, ticker))
  }

  /** The pair's fetch returned headlines newer than its stamp in `latest`. */
  predicate HasNews(fetch: (string, string) -> Result<seq<Headline>>, latest: Stamps, source: string, ticker: string) {
    fetch(source, ticker).Ok? && Fresh(fetch(source, ticker).value, StampOf(latest, source, ticker)) != []
  }

  /** A report made from later stamps is also newer than the earlier ones. */
  lemma ReportedFetchedNewer(fetch: (string, string) -> Result<seq<Headline>>, earlier: Stamps, latest: Stamps,
                             source: string, ticker: string, hs: seq<Headline>)
    requires Advanced(earlier, latest)
    requires Reported(fetch, latest, source, ticker, hs)
    ensures FetchedNewer(fetch, earlier, source, ticker, hs)
  {
    var stamp := StampOf(latest, source, ticker);
    forall h | h in hs
      ensures h in fetch(source, ticker).value && Later(At(h.date), StampOf(earlier, source, ticker))
    {
      FreshMembers(fetch(source, ticker).value, stamp, h);
    }
  }

  /** The stamps after one source of `run`'s inner loop, the key
      preparation followed by the scrape: only the pair's stamp moves, and
      it moves forward. */
  lemma PreparedScrapeStamps(latest: Stamps, results: Results, source: string, ticker: string, fetched: Result<seq<Headline>>)
    ensures var l := Scraped(PrepareStamps(latest, source, ticker), PrepareResults(results, ticker), source, ticker, fetched).0;
      && Advanced(latest, l)
      && forall s, t :: s != source || t != ticker ==> StampOf(l, s, t) == StampOf(latest, s, t)
  {
    var prepared := PrepareStamps(latest, source, ticker);
    var l := Scraped(prepared, PrepareResults(results, ticker), source, ticker, fetched).0;
    ScrapedAdvances(prepared, PrepareResults(results, ticker), source, ticker, fetched);
    AdvancedTransitive(latest, prepared, l);
    forall s, t | s != source || t != ticker
      ensures StampOf(l, s, t) == StampOf(latest, s, t)
    {
      assert Tracked(l, s, t) <==> Tracked(prepared, s, t);
    }
  }

  /** The result set after one source of `run`'s inner loop: the ticker
      has an entry, and only `results[ticker][source]` can change. */
  lemma PreparedScrapeOthers(latest: Stamps, results: Results, source: string, ticker: string, fetched: Result<seq<Headline>>)
    ensures var r := Scraped(PrepareStamps(latest, source, ticker), PrepareResults(results, ticker), source, ticker, fetched).1;
      && ticker in r
      && OnlyTickerChanged(results, r, ticker)
      && (forall s :: s in r[ticker] && s != source ==> KeptEntry(results, r, ticker, s))
  {
    var pr := PrepareResults(results, ticker);
    var r := Scraped(PrepareStamps(latest, source, ticker), pr, source, ticker, fetched).1;
    assert r == pr || r == pr[ticker := pr[ticker][source := r[ticker][source]]];
  }

  /** The entry `results[ticker][source]` after one source of `run`'s inner
      loop: the fetched headlines newer than the pair's stamp when there
      are any, and what it was otherwise. */
  lemma PreparedScrapeEntry(latest: Stamps, results: Results, source: string, ticker: string, fetched: Result<seq<Headline>>)
    ensures var r := Scraped(PrepareStamps(latest, source, ticker), PrepareResults(results, ticker), source, ticker, fetched).1;
      ticker in r &&
      if fetched.Ok? && Fresh(fetched.value, StampOf(latest, source, ticker)) != []
      then source in r[ticker] && r[ticker][source] == Fresh(fetched.value, StampOf(latest, source, ticker))
      else source in r[ticker] ==> KeptEntry(results, r, ticker, source)
  {
    var prepared := PrepareStamps(latest, source, ticker);
    var pr := PrepareResults(results, ticker);
    assert prepared[source][ticker] == StampOf(latest, source, ticker);
    var r := Scraped(prepared, pr, source, ticker, fetched).1;
    if fetched.Ok? && Fresh(fetched.value, StampOf(latest, source, ticker)) != [] {
      assert r == pr[ticker := pr[ticker][source := Fresh(fetched.value, StampOf(latest, source, ticker))]];
    } else {
      assert r == pr;
    }
  }

  /** The sources `run` visits, in order. */
  const SourceNames: seq<string> := ["cnbc", "benzinga_headlines", "benzinga_partner", "benzinga_press"]

  /** The four scraping patterns of a source are all configured. */
  predicate Configured(config: map<string, string>, source: string) {
    && ConfigOption(config, source + "_NEWS_SOURCE").Ok?
    && ConfigOption(config, source + "_WALKING_PATTERN").Ok?
    && ConfigOption(config, source + "_HEADLINE_PATTERN").Ok?
    && ConfigOption(config, source + "_DATE_PATTERN").Ok?
  }

  /** The four sources are different keys once upper-cased. */
  lemma SourceKeysDistinct(j: int)
    requires 0 <= j < |SourceNames|
    ensures forall i :: 0 <= i < |SourceNames| && i != j ==> Upper(SourceNames[i]) != Upper(SourceNames[j])
  {
    assert |SourceNames[0]| == 4 && |SourceNames[1]| == 18 && |SourceNames[2]| == 16 && |SourceNames[3]| == 14;
    forall i | 0 <= i < |SourceNames| && i != j
      ensures Upper(SourceNames[i]) != Upper(SourceNames[j])
    {
      assert |Upper(SourceNames[i])| != |Upper(SourceNames[j])|;
    }
  }

  /** Only the ticker's entry of the result set can change, and no entry
      loses a source. */
  predicate OnlyTickerChanged(before: Results, results: Results, ticker: string) {
    && (forall t :: t in before ==> t in results && before[t].Keys <= results[t].Keys)
    && (forall t :: t in results && t != ticker ==> t in before && results[t] == before[t])
  }

  /** Every source entry of the ticker holds what it held in `before` or
      what the pair's fetch reports against the stamps `latest`. */
  predicate EntriesReported(fetch: (string, string) -> Result<seq<Headline>>, latest: Stamps,
                            before: Results, results: Results, ticker: string) {
    ticker in results ==> forall s :: s in results[ticker] ==>
      KeptEntry(before, results, ticker, s) || Reported(fetch, latest, s, ticker, results[ticker][s])
  }

  /** The pair's entry holds what its fetch reports against `latest`. */
  predicate NewsStored(fetch: (string, string) -> Result<seq<Headline>>, latest: Stamps,
                       results: Results, source: string, ticker: string) {
    ticker in results && source in results[ticker] && Reported(fetch, latest, source, ticker, results[ticker][source])
  }

  /** The stamps of every other ticker are as they were. */
  ghost predicate OtherStampsKept(before: Stamps, latest: Stamps, ticker: string) {
    forall s, t :: t != ticker ==> StampOf(latest, s, t) == StampOf(before, s, t)
  }

  /** What scraping the sources before j of one ticker leaves behind,
      starting from the stamps `start` and the result set `startResults`. */
  ghost predicate SourcesScraped(fetch: (string, string) -> Result<seq<Headline>>, config: map<string, string>, ticker: string,
                                 start: Stamps, startResults: Results, latest: Stamps, results: Results, j: int) {
    && 0 <= j <= |SourceNames|
    && Advanced(start, latest)
    && OtherStampsKept(start, latest, ticker)
    && OnlyTickerChanged(startResults, results, ticker)
    && EntriesReported(fetch, start, startResults, results, ticker)
    && (forall i :: 0 <= i < j && Configured(config, Upper(SourceNames[i])) ==>
          Tracked(latest, Upper(SourceNames[i]), ticker) && ticker in results)
    && (forall i :: 0 <= i < j && Configured(config, Upper(SourceNames[i])) &&
                    HasNews(fetch, start, Upper(SourceNames[i]), ticker) ==>
          NewsStored(fetch, start, results, Upper(SourceNames[i]), ticker))
    && (forall i :: j <= i < |SourceNames| ==>
          StampOf(latest, Upper(SourceNames[i]), ticker) == StampOf(start, Upper(SourceNames[i]), ticker))
  }

  lemma SourcesScrapedStart(fetch: (string, string) -> Result<seq<Headline>>, config: map<string, string>, ticker: string,
                            latest: Stamps, results: Results)
    ensures SourcesScraped(fetch, config, ticker, latest, results, latest, results, 0)
  {
  }

  /** A source whose patterns are not configured changes nothing. */
  lemma SkipStep(fetch: (string, string) -> Result<seq<Headline>>, config: map<string, string>, ticker: string,
                 start: Stamps, startResults: Results, latest: Stamps, results: Results, j: int)
    requires 0 <= j < |SourceNames| && !Configured(config, Upper(SourceNames[j]))
    requires SourcesScraped(fetch, config, ticker, start, startResults, latest, results, j)
    ensures SourcesScraped(fetch, config, ticker, start, startResults, latest, results, j + 1)
  {
  }

  /** Preparing and scraping source j keeps what the earlier sources left
      behind and adds what source j reports. */
  lemma ScrapeStep(fetch: (string, string) -> Result<seq<Headline>>, config: map<string, string>, ticker: string,
                   start: Stamps, startResults: Results, latest: Stamps, results: Results, j: int)
    requires 0 <= j < |SourceNames| && Configured(config, Upper(SourceNames[j]))
    requires SourcesScraped(fetch, config, ticker, start, startResults, latest, results, j)
    ensures var name := Upper(SourceNames[j]);
      var (l, r) := Scraped(PrepareStamps(latest, name, ticker), PrepareResults(results, ticker), name, ticker, fetch(name, ticker));
      SourcesScraped(fetch, config, ticker, start, startResults, l, r, j + 1)
  {
    var name := Upper(SourceNames[j]);
    var (l, r) := Scraped(PrepareStamps(latest, name, ticker), PrepareResults(results, ticker), name, ticker, fetch(name, ticker));
    SourceKeysDistinct(j);
    ScrapeStepStamps(fetch, config, ticker, start, startResults, latest, results, j, l, r);
    ScrapeStepResults(fetch, config, ticker, start, startResults, latest, results, j, l, r);
  }

  lemma ScrapeStepStamps(fetch: (string, string) -> Result<seq<Headline>>, config: map<string, string>, ticker: string,
                         start: Stamps, startResults: Results, latest: Stamps, results: Results, j: int,
                         l: Stamps, r: Results)
    requires 0 <= j < |SourceNames| && Configured(config, Upper(SourceNames[j]))
    requires SourcesScraped(fetch, config, ticker, start, startResults, latest, results, j)
    requires forall i :: 0 <= i < |SourceNames| && i != j ==> Upper(SourceNames[i]) != Upper(SourceNames[j])
    requires var name := Upper(SourceNames[j]);
      (l, r) == Scraped(PrepareStamps(latest, name, ticker), PrepareResults(results, ticker), name, ticker, fetch(name, ticker))
    ensures Advanced(start, l)
    ensures OtherStampsKept(start, l, ticker)
    ensures forall i :: 0 <= i <= j && Configured(config, Upper(SourceNames[i])) ==> Tracked(l, Upper(SourceNames[i]), ticker)
    ensures forall i :: j + 1 <= i < |SourceNames| ==>
      StampOf(l, Upper(SourceNames[i]), ticker) == StampOf(start, Upper(SourceNames[i]), ticker)
  {
    var name := Upper(SourceNames[j]);
    PreparedScrapeStamps(latest, results, name, ticker, fetch(name, ticker));
    AdvancedTransitive(start, latest, l);
    forall i | 0 <= i < j && Configured(config, Upper(SourceNames[i]))
      ensures Tracked(l, Upper(SourceNames[i]), ticker)
    {
      StillTracked(latest, l, Upper(SourceNames[i]), ticker);
    }
  }

  lemma ScrapeStepResults(fetch: (string, string) -> Result<seq<Headline>>, config: map<string, string>, ticker: string,
                          start: Stamps, startResults: Results, latest: Stamps, results: Results, j: int,
                          l: Stamps, r: Results)
    requires 0 <= j < |SourceNames| && Configured(config, Upper(SourceNames[j]))
    requires SourcesScraped(fetch, config, ticker, start, startResults, latest, results, j)
    requires forall i :: 0 <= i < |SourceNames| && i != j ==> Upper(SourceNames[i]) != Upper(SourceNames[j])
    requires var name := Upper(SourceNames[j]);
      (l, r) == Scraped(PrepareStamps(latest, name, ticker), PrepareResults(results, ticker), name, ticker, fetch(name, ticker))
    ensures ticker in r
    ensures OnlyTickerChanged(startResults, r, ticker)
    ensures EntriesReported(fetch, start, startResults, r, ticker)
    ensures forall i :: 0 <= i <= j && Configured(config, Upper(SourceNames[i])) &&
                        HasNews(fetch, start, Upper(SourceNames[i]), ticker) ==>
      NewsStored(fetch, start, r, Upper(SourceNames[i]), ticker)
  {
    var name := Upper(SourceNames[j]);
    PreparedScrapeOthers(latest, results, name, ticker, fetch(name, ticker));
    PreparedScrapeEntry(latest, results, name, ticker, fetch(name, ticker));
    assert StampOf(latest, name, ticker) == StampOf(start, name, ticker);
    forall s | s in r[ticker]
      ensures KeptEntry(startResults, r, ticker, s) || Reported(fetch, start, s, ticker, r[ticker][s])
    {
      if !KeptEntry(results, r, ticker, s) {
        assert s == name;
      }
    }
    forall i | 0 <= i < j && Configured(config, Upper(SourceNames[i])) && HasNews(fetch, start, Upper(SourceNames[i]), ticker)
      ensures NewsStored(fetch, start, r, Upper(SourceNames[i]), ticker)
    {
      assert Upper(SourceNames[i]) != name;
      assert KeptEntry(results, r, ticker, Upper(SourceNames[i]));
    }
  }

  /** Every ticker in `done` has a stamp for each configured source, and
      an entry in the result set. */
  ghost predicate DoneTracked(config: map<string, string>, latest: Stamps, results: Results, done: set<string>) {
    forall t, j :: t in done && 0 <= j < |SourceNames| && Configured(config, Upper(SourceNames[j])) ==>
      Tracked(latest, Upper(SourceNames[j]), t) && t in results
  }

  /** No ticker and no source entry of `before` is lost. */
  ghost predicate KeysKept(before: Results, results: Results) {
    forall t :: t in before ==> t in results && before[t].Keys <= results[t].Keys
  }

  /** Every entry holds what it held in `before`, or headlines fetched for
      its pair that are newer than the pair's stamp in `start`. */
  ghost predicate EntriesSound(fetch: (string, string) -> Result<seq<Headline>>, start: Stamps, before: Results, results: Results) {
    forall t, s :: t in results && s in results[t] ==>
      KeptEntry(before, results, t, s) || FetchedNewer(fetch, start, s, t, results[t][s])
  }

  /** Every ticker in `done` has an entry for each configured source that
      fetched headlines newer than its stamp in `start`. */
  ghost predicate DoneComplete(fetch: (string, string) -> Result<seq<Headline>>, config: map<string, string>,
                               start: Stamps, results: Results, done: set<string>) {
    forall t, j :: t in done && 0 <= j < |SourceNames| && Configured(config, Upper(SourceNames[j])) &&
                   HasNews(fetch, start, Upper(SourceNames[j]), t) ==>
      t in results && Upper(SourceNames[j]) in results[t]
  }

  /** The tickers outside `done` keep their stamps. */
  ghost predicate UndoneStampsKept(start: Stamps, latest: Stamps, done: set<string>) {
    forall s, t :: t !in done ==> StampOf(latest, s, t) == StampOf(start, s, t)
  }

  /** What `run`'s loop leaves behind once the upper-cased tickers in
      `done` were scraped, starting from the stamps `start` and the result
      set `startResults`. */
  ghost predicate TickersScraped(fetch: (string, string) -> Result<seq<Headline>>, config: map<string, string>,
                                 start: Stamps, startResults: Results, latest: Stamps, results: Results, done: set<string>) {
    && Advanced(start, latest)
    && DoneTracked(config, latest, results, done)
    && KeysKept(startResults, results)
    && EntriesSound(fetch, start, startResults, results)
    && DoneComplete(fetch, config, start, results, done)
    && UndoneStampsKept(start, latest, done)
  }

  /** Once every followed ticker was scraped, upper-cased, the loop's
      facts hold for each of them. */
  lemma RunCovers(fetch: (string, string) -> Result<seq<Headline>>, config: map<string, string>,
                  start: Stamps, startResults: Results, latest: Stamps, results: Results, done: set<string>,
                  tickers: set<string>)
    requires DoneTracked(config, latest, results, done) && DoneComplete(fetch, config, start, results, done)
    requires forall t :: t in tickers ==> Upper(t) in done
    ensures forall t, j :: t in tickers && 0 <= j < |SourceNames| && Configured(config, Upper(SourceNames[j])) ==>
      Tracked(latest, Upper(SourceNames[j]), Upper(t)) && Upper(t) in results
    ensures forall t, j :: t in tickers && 0 <= j < |SourceNames| && Configured(config, Upper(SourceNames[j])) &&
                           HasNews(fetch, start, Upper(SourceNames[j]), Upper(t)) ==>
      Upper(t) in results && Upper(SourceNames[j]) in results[Upper(t)]
  {
  }

  /** Scraping one more upper-cased ticker, as `ScrapeTicker` promises,
      keeps what `run`'s loop has established and adds that ticker. */
  lemma TickerStep(fetch: (string, string) -> Result<seq<Headline>>, config: map<string, string>,
                   start: Stamps, startResults: Results, latest: Stamps, results: Results, done: set<string>,
                   ticker: string, latest': Stamps, results': Results)
    requires TickersScraped(fetch, config, start, startResults, latest, results, done)
    requires Advanced(latest, latest') && OtherStampsKept(latest, latest', ticker)
    requires OnlyTickerChanged(results, results', ticker)
    requires EntriesReported(fetch, latest, results, results', ticker)
    requires forall j :: 0 <= j < |SourceNames| && Configured(config, Upper(SourceNames[j])) ==>
      Tracked(latest', Upper(SourceNames[j]), ticker) && ticker in results'
    requires forall j :: 0 <= j < |SourceNames| && Configured(config, Upper(SourceNames[j])) &&
                         HasNews(fetch, latest, Upper(SourceNames[j]), ticker) ==>
      NewsStored(fetch, latest, results', Upper(SourceNames[j]), ticker)
    ensures TickersScraped(fetch, config, start, startResults, latest', results', done + {ticker})
  {
    AdvancedTransitive(start, latest, latest');
    assert results.Keys <= results'.Keys;
    DoneTrackedStep(config, latest, results, done, ticker, latest', results');
    UndoneStampsStep(start, latest, done, ticker, latest');
    EntriesSoundStep(fetch, start, startResults, latest, results, ticker, results');
    DoneCompleteStep(fetch, config, start, latest, results, done, ticker, results');
  }

  lemma DoneTrackedStep(config: map<string, string>, latest: Stamps, results: Results, done: set<string>,
                        ticker: string, latest': Stamps, results': Results)
    requires DoneTracked(config, latest, results, done)
    requires Advanced(latest, latest') && results.Keys <= results'.Keys
    requires forall j :: 0 <= j < |SourceNames| && Configured(config, Upper(SourceNames[j])) ==>
      Tracked(latest', Upper(SourceNames[j]), ticker) && ticker in results'
    ensures DoneTracked(config, latest', results', done + {ticker})
  {
    forall t, j | t in done + {ticker} && 0 <= j < |SourceNames| && Configured(config, Upper(SourceNames[j]))
      ensures Tracked(latest', Upper(SourceNames[j]), t) && t in results'
    {
      if t != ticker {
        var source := Upper(SourceNames[j]);
        assert Tracked(latest, source, t) && t in results;
        StillTracked(latest, latest', source, t);
      }
    }
  }

  lemma UndoneStampsStep(start: Stamps, latest: Stamps, done: set<string>, ticker: string, latest': Stamps)
    requires UndoneStampsKept(start, latest, done) && OtherStampsKept(latest, latest', ticker)
    ensures UndoneStampsKept(start, latest', done + {ticker})
  {
    forall s, t | t !in done + {ticker}
      ensures StampOf(latest', s, t) == StampOf(start, s, t)
    {
      assert StampOf(latest', s, t) == StampOf(latest, s, t);
    }
  }

  lemma EntriesSoundStep(fetch: (string, string) -> Result<seq<Headline>>, start: Stamps, startResults: Results,
                         latest: Stamps, results: Results, ticker: string, results': Results)
    requires Advanced(start, latest)
    requires KeysKept(startResults, results) && EntriesSound(fetch, start, startResults, results)
    requires OnlyTickerChanged(results, results', ticker)
    requires EntriesReported(fetch, latest, results, results', ticker)
    ensures KeysKept(startResults, results') && EntriesSound(fetch, start, startResults, results')
  {
    forall t, s | t in results' && s in results'[t]
      ensures KeptEntry(startResults, results', t, s) || FetchedNewer(fetch, start, s, t, results'[t][s])
    {
      if t != ticker || KeptEntry(results, results', t, s) {
        assert t in results && s in results[t] && results'[t][s] == results[t][s];
      } else {
        ReportedFetchedNewer(fetch, start, latest, s, t, results'[t][s]);
      }
    }
  }

  lemma DoneCompleteStep(fetch: (string, string) -> Result<seq<Headline>>, config: map<string, string>,
                         start: Stamps, latest: Stamps, results: Results, done: set<string>,
                         ticker: string, results': Results)
    requires DoneComplete(fetch, config, start, results, done) && UndoneStampsKept(start, latest, done)
    requires OnlyTickerChanged(results, results', ticker)
    requires forall j :: 0 <= j < |SourceNames| && Configured(config, Upper(SourceNames[j])) &&
                         HasNews(fetch, latest, Upper(SourceNames[j]), ticker) ==>
      NewsStored(fetch, latest, results', Upper(SourceNames[j]), ticker)
    ensures DoneComplete(fetch, config, start, results', done + {ticker})
  {
    forall t, j | t in done + {ticker} && 0 <= j < |SourceNames| && Configured(config, Upper(SourceNames[j])) &&
                  HasNews(fetch, start, Upper(SourceNames[j]), t)
      ensures t in results' && Upper(SourceNames[j]) in results'[t]
    {
      if t !in done {
        assert StampOf(latest, Upper(SourceNames[j]), t) == StampOf(start, Upper(SourceNames[j]), t);
      }
    }
  }

  // ---------------------------------------------------------------------
  // The scraper object
  // ---------------------------------------------------------------------

  class AutomatedScrapper {
    /** `__ticker_symbols` */
    var tickers: set<string>
    /** The patterns of the source being scraped. */
    var newsSource: string
    var walkingPattern: string
    var headlinePattern: string
    var datePattern: string
    /** `__result_set` */
    var resultSet: Results
    /** `__most_recent_news_timestamp` */
    var latest: Stamps

    constructor ()
      ensures tickers == {} && resultSet == map[] && latest == map[]
    {
      tickers := {};
      newsSource, walkingPattern, headlinePattern, datePattern := "", "", "", "";
      resultSet := map[];
      latest := map[];
    }

    /** `set_ticker_symbol` */
    method SetTickerSymbol(symbols: set<string>)
      modifies this`tickers
      ensures tickers == symbols
    {
      tickers := symbols;
    }

    /** `get_latest_news_timestamp`: KeyError for a pair without a stamp. */
    method GetLatestNewsTimestamp(source: string, ticker: string) returns (r: Result<Stamp>)
      ensures r.Ok? <==> Tracked(latest, source, ticker)
      ensures r.Ok? ==> r.value == latest[source][ticker]
      ensures r.Raise? ==> r.exc == KeyError
    {
      if source !in latest || ticker !in latest[source] {
        return Raise(KeyError);
      }
      r := Ok(latest[source][ticker]);
    }

    /** `set_latest_news_timestamp`: move the pair's stamp up to the newest
        scraped date when that is later. */
    method SetLatestNewsTimestamp(source: string, ticker: string, hs: seq<Headline>) returns (r: Result<()>)
      modifies this`latest
      ensures Tracked(old(latest), source, ticker) ==> r == Ok(()) && latest == Raised(old(latest), source, ticker, hs)
      ensures !Tracked(old(latest), source, ticker) ==> r == Raise(KeyError) && latest == old(latest)
    {
      var newest := Newest(hs);
      var current := GetLatestNewsTimestamp(source, ticker);
      if current.Raise? {
        return Raise(KeyError);
      }
      if Later(newest, current.value) {
        latest := latest[source := latest[source][ticker := newest]];
      } else {
        assert latest[source][ticker := current.value] == latest[source];
      }
      r := Ok(());
    }

    /** `build_variables_by_values`: read the source's four patterns (a
        missing one raises KeyError, after the ones before it were set),
        then make sure the pair has a stamp and the ticker a result entry. */
    method BuildVariablesByValues(source: string, ticker: string, config: map<string, string>) returns (r: Result<()>)
      modifies this`newsSource, this`walkingPattern, this`headlinePattern, this`datePattern, this`latest, this`resultSet
      ensures r.Ok? <==> Configured(config, Upper(source))
      ensures r.Ok? ==> latest == PrepareStamps(old(latest), Upper(source), ticker) &&
                        resultSet == PrepareResults(old(resultSet), ticker)
      ensures r.Ok? ==> newsSource == ConfigOption(config, Upper(source) + "_NEWS_SOURCE").value
      ensures r.Raise? ==> r.exc == KeyError && latest == old(latest) && resultSet == old(resultSet)
    {
      var name := Upper(source);
      r := ReadPatterns(name, config);
      if r.Ok? {
        PrepareEntries(name, ticker);
      }
    }

    /** The four pattern options of a source, set one by one; the first
        missing one raises KeyError. */
    method ReadPatterns(name: string, config: map<string, string>) returns (r: Result<()>)
      modifies this`newsSource, this`walkingPattern, this`headlinePattern, this`datePattern
      ensures r.Ok? <==> Configured(config, name)
      ensures r.Ok? ==> newsSource == ConfigOption(config, name + "_NEWS_SOURCE").value
      ensures r.Raise? ==> r.exc == KeyError
    {
      var value := ConfigOption(config, name + "_NEWS_SOURCE");
      if value.Raise? { return Raise(KeyError); }
      newsSource := value.value;
      value := ConfigOption(config, name + "_WALKING_PATTERN");
      if value.Raise? { return Raise(KeyError); }
      walkingPattern := value.value;
      value := ConfigOption(config, name + "_HEADLINE_PATTERN");
      if value.Raise? { return Raise(KeyError); }
      headlinePattern := value.value;
      value := ConfigOption(config, name + "_DATE_PATTERN");
      if value.Raise? { return Raise(KeyError); }
      datePattern := value.value;
      r := Ok(());
    }

    /** A stamp of minus infinity for a pair without one, and an empty
        result entry for a ticker without one. */
    method PrepareEntries(name: string, ticker: string)
      modifies this`latest, this`resultSet
      ensures latest == PrepareStamps(old(latest), name, ticker)
      ensures resultSet == PrepareResults(old(resultSet), ticker)
    {
      ghost var want := PrepareStamps(latest, name, ticker);
      if name !in latest {
        latest := latest[name := map[]];
      }
      if ticker !in latest[name] {
        latest := latest[name := latest[name][ticker := NegInf]];
      }
      assert latest == want;
      if ticker !in resultSet {
        resultSet := resultSet[ticker := map[]];
      }
    }

    /** `scrape_with_ticker` for one pair, given what the fetch returned:
        keep the headlines strictly newer than the pair's stamp, store them
        when there are any, and move the stamp.  Every exception inside is
        caught and ends the call. */
    method ScrapeWithTicker(source: string, ticker: string, fetched: Result<seq<Headline>>)
      modifies this`latest, this`resultSet
      ensures (latest, resultSet) == Scraped(old(latest), old(resultSet), source, ticker, fetched)
    {
      if fetched.Raise? {
        return;
      }
      var hs := fetched.value;
      var current := GetLatestNewsTimestamp(source, ticker);
      if current.Raise? {
        return;
      }
      var parsed := [];
      for k := 0 to |hs|
        invariant parsed == Fresh(hs[..k], current.value)
      {
        assert hs[..k + 1][..k] == hs[..k];
        if Later(At(hs[k].date), current.value) {
          parsed := parsed + [hs[k]];
        }
      }
      assert hs[..|hs|] == hs;
      if |parsed| > 0 {
        if ticker !in resultSet {
          return;
        }
        resultSet := resultSet[ticker := resultSet[ticker][source := parsed]];
      }
      var r := SetLatestNewsTimestamp(source, ticker, hs);
    }

    /** The body of `run`'s loop for one upper-cased ticker: prepare and
        scrape every source in turn, skipping a source whose patterns are
        not configured.  Only the ticker's stamps and its result entry
        change; each source entry is kept or becomes the headlines fetched
        for the pair that are newer than its stamp, and a configured source
        that fetched such headlines has its entry. */
    method ScrapeTicker(ticker: string, fetch: (string, string) -> Result<seq<Headline>>, config: map<string, string>)
      modifies this`newsSource, this`walkingPattern, this`headlinePattern, this`datePattern, this`latest, this`resultSet
      ensures Advanced(old(latest), latest)
      ensures OtherStampsKept(old(latest), latest, ticker)
      ensures OnlyTickerChanged(old(resultSet), resultSet, ticker)
      ensures EntriesReported(fetch, old(latest), old(resultSet), resultSet, ticker)
      ensures forall j :: 0 <= j < |SourceNames| && Configured(config, Upper(SourceNames[j])) ==>
        Tracked(latest, Upper(SourceNames[j]), ticker) && ticker in resultSet
      ensures forall j :: 0 <= j < |SourceNames| && Configured(config, Upper(SourceNames[j])) &&
                          HasNews(fetch, old(latest), Upper(SourceNames[j]), ticker) ==>
        NewsStored(fetch, old(latest), resultSet, Upper(SourceNames[j]), ticker)
    {
      SourcesScrapedStart(fetch, config, ticker, latest, resultSet);
      for j := 0 to |SourceNames|
        invariant SourcesScraped(fetch, config, ticker, old(latest), old(resultSet), latest, resultSet, j)
      {
        var name := Upper(SourceNames[j]);
        UpperIdempotent(SourceNames[j]);
        ghost var start, startResults := latest, resultSet;
        var built := BuildVariablesByValues(name, ticker, config);
        if built.Raise? {
          SkipStep(fetch, config, ticker, old(latest), old(resultSet), latest, resultSet, j);
          continue;
        }
        ScrapeWithTicker(name, ticker, fetch(name, ticker));
        ScrapeStep(fetch, config, ticker, old(latest), old(resultSet), start, startResults, j);
      }
    }

    /** `run`'s outer loop: every followed ticker, upper-cased, goes
        through `ScrapeTicker`, in the set's order; `done` holds the
        upper-cased tickers. */
    method ScrapeTickers(fetch: (string, string) -> Result<seq<Headline>>, config: map<string, string>)
      returns (ghost done: set<string>)
      modifies this`newsSource, this`walkingPattern, this`headlinePattern, this`datePattern, this`latest, this`resultSet
      ensures tickers == old(tickers)
      ensures forall t :: t in tickers ==> Upper(t) in done
      ensures TickersScraped(fetch, config, old(latest), old(resultSet), latest, resultSet, done)
    {
      var pending := tickers;
      ghost var visited: set<string> := {};
      done := {};
      while pending != {}
        invariant pending <= tickers && visited == tickers - pending && tickers == old(tickers)
        invariant forall t :: t in visited ==> Upper(t) in done
        invariant TickersScraped(fetch, config, old(latest), old(resultSet), latest, resultSet, done)
        decreases |pending|
      {
        var symbol :| symbol in pending;
        ghost var before, beforeResults := latest, resultSet;
        ScrapeTicker(Upper(symbol), fetch, config);
        TickerStep(fetch, config, old(latest), old(resultSet), before, beforeResults, done, Upper(symbol), latest, resultSet);
        pending := pending - {symbol};
        visited := visited + {symbol};
        done := done + {Upper(symbol)};
      }
    }

    /** `run`: scrape every followed ticker, upper-cased, from every
        source; then hand back the result set and empty it.  `fetch` is
        what the site returns for a (source, ticker) pair.  Every followed
        ticker has an entry once a source is configured, an entry that
        changed holds only fetched headlines newer than the pair's stamp at
        the start, and a pair that fetched such headlines has an entry. */
    method Run(fetch: (string, string) -> Result<seq<Headline>>, config: map<string, string>) returns (results: Results)
      modifies this`newsSource, this`walkingPattern, this`headlinePattern, this`datePattern, this`latest, this`resultSet
      ensures resultSet == map[]
      ensures Advanced(old(latest), latest)
      ensures forall t, j :: t in old(tickers) && 0 <= j < |SourceNames| && Configured(config, Upper(SourceNames[j])) ==>
        Tracked(latest, Upper(SourceNames[j]), Upper(t)) && Upper(t) in results
      ensures forall t :: t in old(resultSet) ==> t in results && old(resultSet)[t].Keys <= results[t].Keys
      ensures forall t, s :: t in results && s in results[t] ==>
        KeptEntry(old(resultSet), results, t, s) || FetchedNewer(fetch, old(latest), s, t, results[t][s])
      ensures forall t, j :: t in old(tickers) && 0 <= j < |SourceNames| && Configured(config, Upper(SourceNames[j])) &&
                             HasNews(fetch, old(latest), Upper(SourceNames[j]), Upper(t)) ==>
        Upper(t) in results && Upper(SourceNames[j]) in results[Upper(t)]
    {
      ghost var done := ScrapeTickers(fetch, config);
      RunCovers(fetch, config, old(latest), old(resultSet), latest, resultSet, done, old(tickers));
      results := resultSet;
      resultSet := map[];
    }
  }
}
