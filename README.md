# stock_data_processor: a verified model of its deterministic core

This project models the deterministic core of the stock data processor in
Dafny and proves what that code promises. The centre is the pattern matcher:

- A sliding-window matcher looks for the stretch of a ticker's (date, close)
  history that best resembles a recent pattern.
- A runner reads its configuration and derives ticker names from data files.
  It loads every table into a cache shared by all runners and fans the match
  out over that cache. It then ranks the results stably by descending score,
  keeps the best `top` and numbers them for the JSON reply.
- The job record carries the matcher and its arguments.

Around it sit the small pieces of logic the news scraper, the WebSocket server
and the data collector rely on:

- the xpath-like path parser used to walk scraped pages;
- the relative-time parser that turns "4 hrs ago" into a date;
- the WebSocket subscription registry (ticker → subscribed clients, and the
  scrape queue);
- the news high-water mark, which stops the scraper from reporting a headline
  twice;
- the round-robin assignment of tickers to collector threads;
- the latest-trading-day rule;
- the headline heuristics that locate the company, find its verb, detect
  passive voice and decide whether a verb-dictionary entry overrides the
  polarity label;
- `reversed_enumerate`.

One module per source file. `Py` holds the Python semantics they share:

- exceptions, as `Result = Ok | Raise(Exc)`;
- slicing with negative and out-of-range bounds, and negative indexing;
- `split`, `in`, `strip`, `upper`/`lower` and `int()`.

Code that changes state step by step is modelled as classes with `modifies`
clauses, and its loops are modelled as `while` loops with invariants. Most such
methods are proved equal to a specification function, and the properties are
then proved as lemmas about that function. Four are not: `Matcher.Match`, whose
result is pinned down by the predicate `IsBest` and its error cases, and
`ScrapeTicker`, `ScrapeTickers` and `Run` of `NewsWatch.AutomatedScrapper`, whose
new state is characterised by relational postconditions (what is kept, what is
added, and what every added entry was fetched from). Pure code is modelled as
functions and lemmas.

Inputs the code obtains from outside are parameters of the model:

- the clock ("now", "today", the job-name timestamp);
- the directory listing;
- which data files load, and their tables;
- the configuration sections, as maps;
- the network fetch of headlines;
- the similarity measure;
- the part-of-speech tagging of a headline;
- the polarity score;
- the verb dictionary.

## Model

| member | source | states |
|---|---|---|
| Job.TupleRepr | src/pattern_matcher/processor/job.py:9 | The args tuple prints inside parentheses, and a one-item tuple keeps its trailing comma. |
| Job.JobInfo | src/pattern_matcher/processor/job.py:8-9 | The info line starts with `Job info: [name: `, then the job's name unchanged, and closes with `]`. |
| Job.FieldsRoundTrip | src/pattern_matcher/processor/job.py:9 | A line of the `Job info: [name: {0}, exec: {1}, args: {2}]` shape gives back its three fields, in that order, when the first two hold no comma. |
| Job.InfoRoundTrip | src/pattern_matcher/processor/job.py:3-9 | The name, the function and the argument tuple are stored unchanged. The info line gives back the name, the printed function and the printed tuple, in that fixed order, when the name and the printed function hold no comma. |
| Matcher.Match | src/pattern_matcher/matcher/matcher.py:25-80 | `SpearmanMatcher.match` and `PearsonMatcher.match`, which run the same loop and differ only in which position of the measurement they read (folded into `measure`). With `steps < 1` and a loop that does not run it raises TypeError. With `steps == 0` and a first window inside the table it never returns. With `steps < 0` and a non-empty pattern `i` moves backwards, and Python's slicing eventually hands the measure a window shorter than the pattern, so the call raises. With `steps < 0` and an empty pattern it never returns. If an examined window of a non-empty pattern runs past the table, the slice is shorter than the pattern and measuring it fails. An empty pattern's windows past the table are empty slices and are scored like any other window. Otherwise the call returns iff some examined window (start a multiple of `steps`, `i + w < rows - days_forward`) scores above `sys.float_info.min`. The window returned has the maximal score and is the earliest such window. The result holds that window's closes and dates, the next `days_forward` closes and dates, the score and the row count. Its lengths are `len(pattern)` and `days_forward`. When nothing beats the floor it raises TypeError. |
| Matcher.FullWindowStart | src/pattern_matcher/matcher/matcher.py:33 | `iloc[i:i + w]` has all w rows only when i is at most n rows before the end of the table, so a backward walk ends in a short window. |
| Matcher.BestIsUnique | src/pattern_matcher/matcher/matcher.py:36-38 | The window Match's contract describes is unique, so the scores alone decide the result. |
| Matcher.EarliestOfTies | src/pattern_matcher/matcher/matcher.py:68-70 | Among windows with the maximal score, none earlier than the reported one exists, because only a strictly greater score replaces the best. |
| PatternRunner.SelectProcessor | src/pattern_matcher/runner/pearson_runner.py:15-20 | Multiprocessing iff its flag is literally `True`. Threading iff only the threading flag is `True`. Otherwise the constructor raises. |
| PatternRunner.TextFlagsNeverSelect | src/pattern_matcher/runner/pearson_runner.py:15-20 | Flags read from a configuration file are strings, and no string is `True`: such flags always raise. |
| PatternRunner.TickerNameIsPrefixBeforeFirstDot | src/pattern_matcher/runner/runner.py:22-24 | A ticker name is the file's basename cut at its first '.'. |
| PatternRunner.Put | src/pattern_matcher/runner/runner.py:65 | Storing a table keeps the cache well-formed (distinct keys, keys = dictionary keys). It maps the ticker to the table, and the existing keys keep their order. |
| PatternRunner.PutAllStores | src/pattern_matcher/runner/runner.py:63-65 | After a run of stores, every stored ticker is present, nothing was removed and the old keys keep their order. |
| PatternRunner.SeriesCache.constructor | src/pattern_matcher/runner/runner.py:9 | The class-level dictionary starts empty. |
| PatternRunner.SeriesCache.Store | src/pattern_matcher/runner/runner.py:65 | `_CACHE_DATA[ticker] = table` in place: the new state is `Put` of the old. |
| PatternRunner.SeriesCache.LoadAll | src/pattern_matcher/runner/runner.py:63-68 | Fail-fast loading. It succeeds iff every ticker's file loads. Otherwise it raises a load error naming the first ticker whose file does not load. The tickers before that one stay stored. |
| PatternRunner.SucceedingMembers | src/pattern_matcher/processor/processor.py:57-63 | A ticker is among the collected ones iff it is cached and its match returns. |
| PatternRunner.Process | src/pattern_matcher/processor/processor.py:19-64 | The multiprocessing processor reads three job arguments (IndexError with fewer). A concurrency below 1 then raises ValueError when the pool is built. Otherwise it returns one match per cached ticker whose match returns, in cache order, and drops the raising ones. It hangs iff some table makes the matcher's loop run forever (`steps == 0` with a first window inside the table, or `steps < 0` with an empty pattern). Other calls with `steps < 1` raise and are dropped. The threading processor reads a fourth job argument (IndexError with three). Then a concurrency below 1 raises ValueError. Otherwise it passes the ticker where the matcher expects its start time, so every call raises and nothing is collected. |
| PatternRunner.MatchAll | src/pattern_matcher/processor/processor.py:55-64 | The fan-out loop, run sequentially. It collects exactly the results of the non-raising matches, in order. A non-returning call makes the whole fan-out not return, and that happens iff some table makes the matcher's loop run forever. |
| PatternRunner.SortByScoreOrders | src/pattern_matcher/runner/pearson_runner.py:45 | `results.sort(key=score, reverse=True)` orders by descending score and is a permutation of the results. |
| PatternRunner.SortByScoreStable | src/pattern_matcher/runner/pearson_runner.py:45 | The sort is stable: results with equal score keep their collection order. |
| PatternRunner.TopIsHighestPrefix | src/pattern_matcher/runner/pearson_runner.py:48 | `results[:top]` keeps `min(top, n)` results, and no dropped result scores higher than a kept one. |
| PatternRunner.EntryOf | src/pattern_matcher/runner/runner.py:47-53 | A match entry copies the ticker, score, history closes, history dates and future closes. The future dates are dropped. |
| PatternRunner.Numbered | src/pattern_matcher/runner/runner.py:45-54 | The keys are exactly 1..K, and key k holds the k-th match given. |
| PatternRunner.NumberedInOrder | src/pattern_matcher/runner/runner.py:45-54 | Reading the numbered matches in key order gives the matches in the order given, with no reordering. |
| PatternRunner.ConvertToJson | src/pattern_matcher/runner/runner.py:37-58 | The counter loop builds the numbered matches. The origin block echoes ticker, values and dates unchanged. |
| PatternRunner.PatternWindow | src/pattern_matcher/runner/pearson_runner.py:33-35 | `iloc[size - days_back:size]` under Python slicing. It gives the last `days_back` rows when `0 <= days_back <= rows`, none for `days_back <= 0`, and wraps the negative start otherwise. |
| PatternRunner.PearsonRunner.constructor | src/pattern_matcher/runner/pearson_runner.py:13-22 | A new runner holds the shared cache, the chosen processor and the default concurrency, and no tickers. |
| PatternRunner.PearsonRunner.InitRunner | src/pattern_matcher/runner/runner.py:26-32 | An empty dir or format raises and changes nothing. Otherwise both are stored, and the concurrency is `int()` of its text, or ValueError. |
| PatternRunner.PearsonRunner.GetAllTickers | src/pattern_matcher/runner/runner.py:22-24 | One ticker name per listed file, in listing order. |
| PatternRunner.PearsonRunner.LoadData | src/pattern_matcher/runner/runner.py:60-68 | Fail-fast load into the shared cache. After a full load every ticker is cached. |
| PatternRunner.PearsonRunner.Configure | src/pattern_matcher/runner/pearson_runner.py:13-21 | Construction succeeds iff a processor flag is `True`, dir and format are non-empty and the concurrency is an integer. It names the exception raised otherwise. |
| PatternRunner.PearsonRunner.Create | src/pattern_matcher/runner/runner.py:15-20 | Construction succeeds iff the configuration is usable and every listed file loads. A usable runner has every ticker cached. An unusable configuration leaves the cache untouched. |
| PatternRunner.PearsonRunner.Run | src/pattern_matcher/runner/pearson_runner.py:24-51 | An unknown ticker raises NameError before anything else. A window of fewer than 2 rows raises IndexError. Otherwise the job carries `(pattern closes, days_forward, 1)`, and the origin dates are the window's 2nd and last dates. The threading processor raises IndexError. With multiprocessing, a stored concurrency below 1 raises ValueError from the process pool. Otherwise the reply numbers the stably sorted, truncated collected matches. |
| PatternRunner.LoadedAreCached | src/pattern_matcher/runner/runner.py:63-65 | After a load that did not fail, every ticker is a cache key. |
| PatternRunner.RunReportsTop | src/pattern_matcher/runner/pearson_runner.py:45-51 | The reply has keys exactly 1..min(top, K), and similarity never increases with the key. |
| XPath.WithSlash | src/utils/xpath.py:4 | The stored path ends with '/', and a '/' is appended iff the argument did not end in one. |
| XPath.Segments | src/utils/xpath.py:24-42 | Every statement is non-empty and contains no '/'. |
| XPath.ClosedJoin | src/utils/xpath.py:28-39 | The pieces the character loop closes, joined by '/' with the final '/', give back the path. |
| XPath.SegmentsOfJoin | src/utils/xpath.py:28-42 | Round trip: the statements of `a/b/.../z/` are exactly the non-empty slash-free names it was built from, in order. |
| XPath.CheckArguments | src/utils/xpath.py:129-131 | Succeeds, with True, iff every argument ends in ']'. |
| XPath.ValidStatementIff | src/utils/xpath.py:111-133 | A statement is valid iff it has at most two bracket arguments, each ending in ']'. More than two raises ValueError. |
| XPath.AttrRoundTrip | src/utils/xpath.py:97-107 | An attribute written `@key=<q>value<q>` parses back to `(key, value)`: '@' and the quotes are dropped. |
| XPath.AttrsFoldRaises | src/utils/xpath.py:97-103 | A failing attribute argument fails with the error of one of its pieces. |
| XPath.AttrsFromOk | src/utils/xpath.py:94-109 | An attribute argument parses iff each of its 'and'-separated pieces does, and otherwise raises IndexError or ValueError. |
| XPath.AttrsFromLaterWins | src/utils/xpath.py:97-107 | A key holds the value of its last piece. |
| XPath.ApplyArgumentFields | src/utils/xpath.py:67-77 | An '@' argument leaves the index alone. Any other argument sets the index and leaves the attributes alone. |
| XPath.ArgsFromIndex | src/utils/xpath.py:67-79 | The statement's index is set iff one of its arguments has no '@' (the 3-tuple case). |
| XPath.ArgsFromAttrsOnly | src/utils/xpath.py:71-72 | With only attribute arguments, no index is set. |
| XPath.ArgsFromIndexesOnly | src/utils/xpath.py:73-77 | With only index arguments, the attributes stay as they were. |
| XPath.ArgsFromLastAttrs | src/utils/xpath.py:71-72 | When the last argument is an attribute argument, the attributes are exactly its own: a later attribute argument replaces the earlier dict. |
| XPath.ParseStatementShape | src/utils/xpath.py:44-79 | The name is the text before the first '['. There is an index iff some argument lacks '@', and no attributes without an '@' argument. A statement without '[' parses to `(statement, {})`. Too many arguments raise ValueError. |
| XPath.ParseOneArgument | src/utils/xpath.py:61-77 | `name[arg]` parses as that one argument applied to `(name, {})`. |
| XPath.IndexRoundTrip | src/utils/xpath.py:73-79 | `name[i]` parses to `(name, {}, i)` for every integer i. |
| XPath.StepsFrom | src/utils/xpath.py:16-19 | Parsing the statements succeeds iff each does. It yields one step per statement, in order. |
| XPath.Shape | src/utils/xpath.py:21 | The lone step is unwrapped exactly when there is one statement. |
| XPath.PatternFromStatements | src/utils/xpath.py:16-22 | The pattern of the statements succeeds iff each parses. It is the lone step for one statement, and otherwise a list of one step per statement. |
| XPath.PatternOfStatements | src/utils/xpath.py:9-22 | The same, stated for the statements of a path. |
| XPath.Xpath.constructor | src/utils/xpath.py:3-7 | Stores the path with its trailing '/', and no statements. |
| XPath.Xpath.New | src/utils/xpath.py:3-7 | An empty path raises IndexError (`xpath[-1]`). Otherwise the object is built as above. |
| XPath.Xpath.FindAllEnclosedStatement | src/utils/xpath.py:24-42 | The character loop stores exactly the statements of the path. |
| XPath.Xpath.IsValidStatement | src/utils/xpath.py:111-133 | The loop over the bracket arguments computes the validity check. |
| XPath.Xpath.ParseAttrPiece | src/utils/xpath.py:98-107 | One loop iteration of the attribute parser: strip, '@' check, '=' split and unquoting. |
| XPath.Xpath.ParseAttrsFromSingleArgument | src/utils/xpath.py:81-109 | The loop over the pieces computes the attribute dictionary, or the first piece's error. |
| XPath.Xpath.ApplyArgumentTo | src/utils/xpath.py:67-77 | One bracket argument: the attribute dictionary or the `int()` index. |
| XPath.Xpath.ParseArgumentsFromStatement | src/utils/xpath.py:44-79 | The loop over the arguments computes the statement's step. |
| XPath.Xpath.ToPattern | src/utils/xpath.py:9-22 | Stores the statements and returns the pattern of the path. On success it stores that pattern, and on failure it leaves the stored one. |
| RelativeTime.MonthRange | src/web_scrapper/utils/date_time.py:132 | `monthrange(y, m)[1]` is the Gregorian length of month m, and it raises ValueError outside 1..12. |
| RelativeTime.UnspacedSpaced | src/web_scrapper/utils/date_time.py:145-170 | Removing the spaces `spacer` inserts at each digit/non-digit change (and before a leading non-digit) gives back the input. |
| RelativeTime.CustomTime.Spacer | src/web_scrapper/utils/date_time.py:145-170 | The character loop computes the spaced text. |
| RelativeTime.Tokens | src/web_scrapper/utils/date_time.py:97-98 | The tokens are non-empty and contain no space. |
| RelativeTime.ReadToken | src/web_scrapper/utils/date_time.py:109-119 | Reading a token succeeds iff, when it is an indicator, the token before it is an integer. Otherwise it raises ValueError. |
| RelativeTime.CountsFromOk | src/web_scrapper/utils/date_time.py:109-119 | The token loop succeeds iff every indicator token is preceded by an integer. |
| RelativeTime.CountUnmentioned | src/web_scrapper/utils/date_time.py:102-119 | A unit whose indicator never occurs keeps its initial count. |
| RelativeTime.CountIsLastMention | src/web_scrapper/utils/date_time.py:109-119 | A unit's count is the integer before its last indicator: a later occurrence overwrites an earlier one. |
| RelativeTime.Replace | src/web_scrapper/utils/date_time.py:138-141 | `replace` succeeds iff the date exists and the hour is 0..23. The minute is kept. Otherwise it raises ValueError. |
| RelativeTime.SubtractFields | src/web_scrapper/utils/date_time.py:121-136 | The borrows: a negative minute takes an hour, a negative hour takes 24 hours from the day, and a non-positive day takes the previous month's length (December of the year before for January). The minute field is unchanged. |
| RelativeTime.SubtractCorrectedIsHourDifference | src/web_scrapper/utils/date_time.py:121-141 | The result lies exactly `24·days + hours` hours before now, plus one more when the minutes borrow. |
| RelativeTime.SubtractNothing | src/web_scrapper/utils/date_time.py:121-141 | Nothing to subtract gives now itself. |
| RelativeTime.SubtractAgreesOutsideJanuary | src/web_scrapper/utils/date_time.py:131-133 | Outside January the code as written and the corrected borrow agree. |
| RelativeTime.JanuaryBorrowRaises | src/web_scrapper/utils/date_time.py:131-133 | One day before 1 January 2020 05:00, the code as written raises, while the corrected borrow gives 31 December 2019 05:00. |
| RelativeTime.TimeAgoOf | src/web_scrapper/utils/date_time.py:92-143 | The parse raises nothing but ValueError. |
| RelativeTime.NoCountsIsNow | src/web_scrapper/utils/date_time.py:99-143 | A text with no indicator token gives the hour-truncated now. |
| RelativeTime.Truncate | src/web_scrapper/utils/date_time.py:18 | Now truncated to the hour: minute 0, all other fields kept. |
| RelativeTime.ParseCustomOnTheHour | src/web_scrapper/utils/date_time.py:92-143 | A parsed time always has minute 0. |
| RelativeTime.ParseCustom | src/web_scrapper/utils/date_time.py:55-72 | Raises SyntaxError exactly when none of the three indicators occurs as a substring. |
| RelativeTime.FormatOf | src/web_scrapper/utils/date_time.py:74-90 | The three indicators must be present (KeyError). The optional split is None iff its split or index option is missing. A non-integer date index raises ValueError. |
| RelativeTime.CustomTime.constructor | src/web_scrapper/utils/date_time.py:14-25 | Stores source and text, the hour-truncated now and empty indicators. |
| RelativeTime.CustomTime.New | src/web_scrapper/utils/date_time.py:14-28 | Construction succeeds iff the format loads, and then holds the loaded indicators and split. |
| RelativeTime.CustomTime.LoadFormatToken | src/web_scrapper/utils/date_time.py:74-90 | Sets the indicator fields and the optional split as `FormatOf` says, or raises its exception. |
| RelativeTime.CustomTime.TimeAgoParser | src/web_scrapper/utils/date_time.py:92-143 | The token loop and the borrows compute `TimeAgoOf` of the text (with the corrected January borrow; see Findings). |
| RelativeTime.CustomTime.ParseArbitraryTimeCustom | src/web_scrapper/utils/date_time.py:55-72 | Computes `ParseCustom` of the stored text. |
| Subscriptions.Subscribe | src/web_scrapper/websocket/ws_server.py:170-180 | Adding makes the ticker a key. |
| Subscriptions.Unsubscribe | src/web_scrapper/websocket/ws_server.py:142-156 | Removing drops the ticker's key exactly when its set becomes empty. |
| Subscriptions.SubscribeSubscribers | src/web_scrapper/websocket/ws_server.py:172-176 | Adding puts the client in that ticker's set and changes no other set. |
| Subscriptions.UnsubscribeSubscribers | src/web_scrapper/websocket/ws_server.py:147-156 | Removing takes the client out of that ticker's set and changes no other set. |
| Subscriptions.SubscribeConsistent | src/web_scrapper/websocket/ws_server.py:170-180 | Adding keeps the invariant: the table's keys are the scrape queue, every set is non-empty, and keys are upper-case. The queue gains the ticker. |
| Subscriptions.UnsubscribeConsistent | src/web_scrapper/websocket/ws_server.py:142-156 | Removing keeps the invariant. The ticker leaves the queue exactly when its set empties. |
| Subscriptions.UnsubscribeUndoesSubscribe | src/web_scrapper/websocket/ws_server.py:134-183 | Removing a client that adding had just inserted restores the table. |
| Subscriptions.SubscribeIdempotent | src/web_scrapper/websocket/ws_server.py:162-176 | Adding the same client twice equals adding it once. |
| Subscriptions.UpperKey | src/web_scrapper/websocket/ws_server.py:142 | Every key of a consistent table is upper-cased, since both add and remove upper-case first. |
| Subscriptions.DisconnectedSubscribers | src/web_scrapper/websocket/ws_server.py:123-126 | After the close loop, no ticker's set holds the client, and all other subscriptions are kept. |
| Subscriptions.DisconnectedConsistent | src/web_scrapper/websocket/ws_server.py:123-126 | The close loop leaves the table consistent. |
| Subscriptions.MessageReply | src/web_scrapper/websocket/ws_server.py:89-121 | A reply is written iff the value is blank or the action is add or remove. A blank value gets exactly the reply ('add_ticker', Failure, '') whatever was asked. Adding always reports Success. Removing fails exactly for a ticker nobody follows. |
| Subscriptions.Registry.constructor | src/web_scrapper/websocket/ws_server.py:21-23 | The three module-level tables start empty. |
| Subscriptions.Registry.Open | src/web_scrapper/websocket/ws_server.py:69-70 | The client is recorded as connected. |
| Subscriptions.Registry.AddTickerSubscriber | src/web_scrapper/websocket/ws_server.py:162-183 | The upper-cased ticker gains the client. A new ticker is queued and KeyError is raised. A known ticker leaves the queue alone. The invariant is kept. |
| Subscriptions.Registry.RemoveTickerSubscriber | src/web_scrapper/websocket/ws_server.py:134-160 | An unknown ticker raises KeyError and changes nothing. Otherwise the client is removed, and an emptied ticker leaves the table and the queue. The invariant is kept. |
| Subscriptions.Registry.OnClose | src/web_scrapper/websocket/ws_server.py:123-128 | The loop over a copy of the keys removes the client from every ticker, and the client leaves the connected set. The invariant is kept. |
| Subscriptions.Registry.OnMessage | src/web_scrapper/websocket/ws_server.py:77-121 | The reply is `MessageReply` of the stripped value. A blank value or any other action leaves the tables untouched. Add and remove change the table as above. |
| NewsWatch.Max | src/web_scrapper/scrapper/automated_scrapper.py:110-111 | The stored stamp after a comparison is the larger one. |
| NewsWatch.Newest | src/web_scrapper/scrapper/automated_scrapper.py:108 | It is -inf iff the scrape is empty, no headline is newer, and otherwise it is some headline's date. |
| NewsWatch.Fresh | src/web_scrapper/scrapper/automated_scrapper.py:86-88 | Every reported headline is strictly newer than the stored stamp. |
| NewsWatch.FreshMembers | src/web_scrapper/scrapper/automated_scrapper.py:86-88 | A headline is reported iff it was scraped and is strictly newer than the stamp. |
| NewsWatch.FreshNone | src/web_scrapper/scrapper/automated_scrapper.py:86-88 | Nothing is reported when no headline is newer. |
| NewsWatch.FreshAfterUpdate | src/web_scrapper/scrapper/automated_scrapper.py:86-111 | After the stamp is raised, the same headlines report nothing. |
| NewsWatch.PrepareStamps | src/web_scrapper/scrapper/automated_scrapper.py:124-127 | Key preparation only fills a missing (source, ticker) stamp, with -inf, and never moves a stamp. |
| NewsWatch.PrepareResults | src/web_scrapper/scrapper/automated_scrapper.py:128-129 | It only adds an empty entry for a ticker that has none. |
| NewsWatch.RaisedAdvances | src/web_scrapper/scrapper/automated_scrapper.py:107-111 | The stamp never decreases, ends at least every scraped date, and an empty scrape leaves it unchanged. |
| NewsWatch.ScrapedAdvances | src/web_scrapper/scrapper/automated_scrapper.py:69-99 | A scrape, failed or not, never moves a stamp back. |
| NewsWatch.ScrapedReportsFresh | src/web_scrapper/scrapper/automated_scrapper.py:86-95 | When new headlines exist, the source's entry is exactly the strictly newer ones, and the stamp passes all of them. |
| NewsWatch.ScrapedTwice | src/web_scrapper/scrapper/automated_scrapper.py:69-99 | Scraping the same headlines again changes nothing: no headline is reported twice. |
| NewsWatch.AutomatedScrapper.constructor | src/web_scrapper/scrapper/automated_scrapper.py:17-35 | No tickers, no results and no stamps. |
| NewsWatch.AutomatedScrapper.SetTickerSymbol | src/web_scrapper/scrapper/automated_scrapper.py:101-102 | The ticker set is replaced. |
| NewsWatch.AutomatedScrapper.GetLatestNewsTimestamp | src/web_scrapper/scrapper/automated_scrapper.py:104-105 | Returns the stored stamp, or KeyError when the pair is not tracked. |
| NewsWatch.AutomatedScrapper.SetLatestNewsTimestamp | src/web_scrapper/scrapper/automated_scrapper.py:107-111 | Raises the stored stamp to the newest scraped date. An untracked pair raises KeyError and changes nothing. |
| NewsWatch.AutomatedScrapper.ReadPatterns | src/web_scrapper/scrapper/automated_scrapper.py:117-121 | Succeeds iff the four pattern options exist, and stores the news source. |
| NewsWatch.AutomatedScrapper.PrepareEntries | src/web_scrapper/scrapper/automated_scrapper.py:123-129 | The stamps and results become the prepared ones. |
| NewsWatch.AutomatedScrapper.BuildVariablesByValues | src/web_scrapper/scrapper/automated_scrapper.py:113-129 | Succeeds iff the upper-cased source is configured, and then prepares its keys. Otherwise it raises KeyError with stamps and results untouched. |
| NewsWatch.AutomatedScrapper.ScrapeWithTicker | src/web_scrapper/scrapper/automated_scrapper.py:69-99 | The new stamps and results are `Scraped` of the old ones and the fetch. |
| NewsWatch.AutomatedScrapper.ScrapeTicker | src/web_scrapper/scrapper/automated_scrapper.py:44-53 | A source that fails is skipped and the rest are still processed. Stamps never move back, other tickers keep their stamps and entries, and every configured source ends up tracking the ticker, which has a result entry. Each source entry of the ticker is kept, or is exactly the headlines fetched for the pair that are newer than its stamp, and at least one. A configured source that fetched such headlines has that entry. |
| NewsWatch.AutomatedScrapper.ScrapeTickers | src/web_scrapper/scrapper/automated_scrapper.py:40-53 | After the loop over the ticker set, every upper-cased ticker was scraped, and the facts `ScrapeTicker` states hold for all of them together. |
| NewsWatch.AutomatedScrapper.Run | src/web_scrapper/scrapper/automated_scrapper.py:37-67 | Returns the accumulated result set and leaves the internal one empty. Every upper-cased ticker has a key once a source is configured, and no key or source entry present at the start is lost. Every entry that changed holds only headlines fetched for its (source, ticker) pair that are newer than the pair's stamp at the start. Every pair whose fetch returned such headlines has an entry. Stamps never move back. |
| NewsWatch.ReportedFetchedNewer | src/web_scrapper/scrapper/automated_scrapper.py:86-88 | Headlines reported against a later stamp are also newer than every earlier stamp of the pair. |
| NewsWatch.PreparedScrapeStamps | src/web_scrapper/scrapper/automated_scrapper.py:107-129 | Preparing and scraping one source moves only that pair's stamp, and only forward. |
| NewsWatch.PreparedScrapeOthers | src/web_scrapper/scrapper/automated_scrapper.py:86-95 | Preparing and scraping one source gives the ticker an entry, and changes no other ticker and no other source's entry. |
| NewsWatch.PreparedScrapeEntry | src/web_scrapper/scrapper/automated_scrapper.py:86-95 | After preparing and scraping one source, its entry is the fetched headlines newer than the pair's stamp when there are any, and what it was otherwise. |
| CollectorRunner.Deal | src/data_collector/runner/runner.py:41-43 | Exactly `num_threads` bins. |
| CollectorRunner.DealSizes | src/data_collector/runner/runner.py:45-50 | Bin b holds `len // n` tickers, plus one when `b < len % n`. |
| CollectorRunner.DealPositions | src/data_collector/runner/runner.py:45-50 | The ticker at position k sits in bin `k mod n`, at position `k div n`. |
| CollectorRunner.DealSlots | src/data_collector/runner/runner.py:45-50 | Each slot j of bin b holds ticker `b + j·n`. So every ticker is in exactly one bin, and each bin follows input order. |
| CollectorRunner.DealBalanced | src/data_collector/runner/runner.py:45-50 | Bin sizes differ by at most one. |
| CollectorRunner.ValidateInputs | src/data_collector/runner/runner.py:29-34 | Raises ValueError iff `num_threads > len(tickers)`. |
| CollectorRunner.Runner.constructor | src/data_collector/runner/runner.py:21-24 | Stores the tickers and thread count, with no collectors yet. |
| CollectorRunner.Runner.New | src/data_collector/runner/runner.py:21-27 | Raises ValueError for too many threads, and IndexError for no bins with tickers to place. Otherwise it builds one collector per bin, in bin order. |
| CollectorRunner.Runner.CreateDataCollectors | src/data_collector/runner/runner.py:36-52 | The cursor loop builds the round-robin bins. With no bins and some ticker it raises IndexError. |
| PriceDate.LatestOffsets | src/data_collector/utils/price_date.py:18-26 | Sunday goes back 2 days and Monday 3, both to a Friday. Every other day, Saturday included, goes back 1. The copy in src/price_predictor/utils/price_date.py:16-24 is the same rule. |
| PriceDate.LatestIsLastWeekday | src/data_collector/utils/price_date.py:6-28 | The day returned is a weekday, 1 to 3 days before today, and no weekday lies between it and today. This holds for both copies, so the day is never a Saturday or Sunday and is strictly before today. |
| PriceDate.LatestIsLatest | src/data_collector/utils/price_date.py:6-28 | Every weekday before today is no later than the day returned. |
| PriceDate.DataIsLatest | src/data_collector/utils/price_date.py:30-45 | True exactly when the last row's date is that day. An empty table raises IndexError. |
| HeadlineAnalyzer.PolarityText | src/web_scrapper/sentiment_analyzer/analyzer.py:161-167 | '-' iff the score is below 0, '0' iff it is 0, and '+' iff it is above 0. |
| HeadlineAnalyzer.CompanyIndexFrom | src/web_scrapper/sentiment_analyzer/analyzer.py:78-83 | The company index is the first position holding the short name, or the list length when there is none. |
| HeadlineAnalyzer.RhsScan | src/web_scrapper/sentiment_analyzer/analyzer.py:100-114 | Finds the first verb other than 'be' right of the company, or reports that there is none. |
| HeadlineAnalyzer.LhsScan | src/web_scrapper/sentiment_analyzer/analyzer.py:121-135 | Finds the nearest verb other than 'be' left of the company, above index 0, or reports that there is none. |
| HeadlineAnalyzer.LhsIgnoresFirst | src/web_scrapper/sentiment_analyzer/analyzer.py:123 | The left scan never looks at the first word. |
| HeadlineAnalyzer.RhsRaises | src/web_scrapper/sentiment_analyzer/analyzer.py:95-114 | The right scan raises IndexError exactly when the verb found is the last word, which has no successor. Otherwise it leaves the noun on the verb's left. |
| HeadlineAnalyzer.LhsRaises | src/web_scrapper/sentiment_analyzer/analyzer.py:116-135 | The left scan raises IndexError exactly when the company is absent and the last word is a verb. Otherwise it leaves the noun on the verb's right. |
| HeadlineAnalyzer.EffectiveVerbSide | src/web_scrapper/sentiment_analyzer/analyzer.py:65-93 | It scans left when the company index is not 0, or the word before it (the last word, at index 0) is tagged 'IN'. It scans right otherwise. It raises IndexError exactly for an empty list or a scan that hits the last word. |
| HeadlineAnalyzer.EffectiveVerbFound | src/web_scrapper/sentiment_analyzer/analyzer.py:65-146 | The phrase is passive iff a verb was found and its successor is tagged 'IN' or its predecessor 'VB'. A new verb is a verb other than 'be'. |
| HeadlineAnalyzer.Decide | src/web_scrapper/sentiment_analyzer/analyzer.py:31-42 | The naive label is replaced only by the dictionary value of a found verb. That happens exactly when the noun's side, flipped when passive, matches the verb's direction. A dictionary verb whose direction does not match keeps the naive label, and so does a missing or unknown verb. |
| HeadlineAnalyzer.Analyzer.constructor | src/web_scrapper/sentiment_analyzer/analyzer.py:13-23 | The headline is lower-cased. No verb yet, noun on the right, not passive. |
| HeadlineAnalyzer.Analyzer.Analyze | src/web_scrapper/sentiment_analyzer/analyzer.py:25-44 | Raises when the verb search raises. Otherwise it returns the decided label, or None when no sentiment is required, together with the direct-headline test. |
| HeadlineAnalyzer.Analyzer.IsDirect | src/web_scrapper/sentiment_analyzer/analyzer.py:57-63 | The direct-headline test on the stored headline. |
| HeadlineAnalyzer.Analyzer.FindEffectiveVerb | src/web_scrapper/sentiment_analyzer/analyzer.py:65-93 | The index loop and the chosen scan leave the fields as `EffectiveVerb` says, or raise its exception. |
| HeadlineAnalyzer.Analyzer.FindVerbOnRhs | src/web_scrapper/sentiment_analyzer/analyzer.py:95-114 | The right scan's loop computes `RhsResult`. When it raises, only the noun side was set. |
| HeadlineAnalyzer.Analyzer.FindVerbOnLhs | src/web_scrapper/sentiment_analyzer/analyzer.py:116-135 | The left scan's loop computes `LhsResult`. When it raises, only the noun side was set. |
| HeadlineAnalyzer.Analyzer.SetPassiveVoice | src/web_scrapper/sentiment_analyzer/analyzer.py:137-146 | Passive iff both neighbours exist and the successor is 'IN' or the predecessor 'VB'. |
| HeadlineSentiment.DirectMeansFirstWord | src/headline_sentiment_analysis/sentiment_analyzer.py:18-24 | Direct iff the lower-cased first word of the company name occurs in the lower-cased headline. |
| HeadlineSentiment.DirectIgnoresCase | src/headline_sentiment_analysis/sentiment_analyzer.py:18-24 | The test does not depend on the headline's case. |
| HeadlineSentiment.SubjectivityText | src/headline_sentiment_analysis/sentiment_analyzer.py:26-33 | The buckets are exclusive at their lower bounds: above 0.8, (0.5, 0.8], (0.2, 0.5], and the rest. |
| HeadlineSentiment.SubjectivityMonotone | src/headline_sentiment_analysis/sentiment_analyzer.py:26-33 | A higher score never gives a less subjective label. |
| HeadlineSentiment.PolarityText | src/headline_sentiment_analysis/sentiment_analyzer.py:35-41 | "Negative" iff below 0, "Neutral" iff 0, and "Positive" iff above 0. |
| ScraperUtils.ReversedEnumeratePairs | src/web_scrapper/utils/utils.py:71-76 | Only `sequence[:start]` is enumerated. Indices run down from its length - 1 to 0, and each pair (i, x) has x = sequence[i]. |
| ScraperUtils.ReversedEnumerateCount | src/web_scrapper/utils/utils.py:71-76 | There are `min(start, len)` pairs for `start >= 0`, as Python slices for a negative start, and none for start 0. |

## Left out

- Characters are ASCII. `upper`, `lower`, `strip`, `isdigit` and `int()` ignore Unicode case mapping, Unicode whitespace, and `int()`'s underscores and non-ASCII digits.
- Matcher.Match: the similarity measure is an uninterpreted function returning a real. The numpy/scipy numerics of `pearson.py`, `spearmanr.py`, `dtw.py` and `measurement.py` are not part of this model. A NaN score is covered by "any value not above the floor", since `NaN > max` is false.
- Matcher.Match: a call whose loop never ends is reported as a `Hangs` outcome rather than as non-termination. This covers `steps == 0` with a first window inside the table, and `steps < 0` with an empty pattern. With `steps < 0` and a non-empty pattern the model returns `MeasureError` once the walk reaches a short window. It does not model the scores of the full windows met on the way there, because the call raises in either case. The timing pair `(start, stop)` is left out of the result tuple.
- Matcher.Match: the floor is the exact decimal value of `sys.float_info.min` as a real. Scores are reals, not IEEE doubles.
- PatternRunner.Process: the thread and process pools and `as_completed` ordering are not modelled. Of the concurrency argument only its check is kept: a count below 1 raises ValueError. The platform cap on process workers is not modelled. The fan-out runs sequentially in cache order and keeps one result per match that returns. This is the sequential meaning of `processor.py`.
- PatternRunner.PearsonRunner.Create: the `glob` listing is the `files` parameter. Loading a CSV is the `readable` map from path to table, where a missing path is a load that fails.
- PatternRunner.PearsonRunner.Run: `time.time()` in the job name is the `clock` text parameter. Logging is not modelled.
- PatternRunner.PearsonRunner.Configure: the shared configuration object and the logger are not modelled. The `[input]`/`[measurement]` entries the runner reads are the fields of `Conf`.
- The Flask controllers, `app.py`, `main.py` and the service wrappers are not part of this model.
- RelativeTime.CustomTime.TimeAgoParser: it uses the corrected January borrow described under Findings. The code as written is `SubtractAsWritten`.
- RelativeTime: the clock is a parameter, and seconds and microseconds (zeroed by the truncation) are not represented.
- `to_epoch_time`, with its dateutil fuzzy parse and epoch floats, is not part of this model.
- Subscriptions.Registry: the Tornado handler objects, `write_message`, JSON encoding and decoding, uuid generation and logging are not modelled. Client ids are parameters. The KeyError of a message without 'action' or 'value' is left out, since `json.loads` and dictionary access are outside the model. The generic `except Exception` branch of `add_ticker` is unreachable, because set insertion only raises KeyError there.
- `WSServer.scrape`, the threaded sleep loop that broadcasts scraped news, is not part of this model.
- NewsWatch.AutomatedScrapper: the scraper object, the HTTP fetch and `WITHIN_HOURS` are represented by the `fetch` parameter, which returns headlines or raises. JSON log writing and `time.time()` are left out. Iteration over the ticker set follows an arbitrary order of that set, so the contract of `Run` speaks of every ticker rather than an order.
- CollectorRunner.Runner: `get_ticker_list()` is replaced by the ticker list parameter. The `DataCollector` objects are represented by their ticker bins. `run` and its threads are not modelled.
- PriceDate: today is a parameter, counted as a proleptic Gregorian ordinal (day 1, 1 January of year 1, is a Monday), and `datetime.today()` and pandas date parsing are left out. `data_is_lastest` takes the row dates as day numbers.
- HeadlineAnalyzer.Analyzer: TextBlob tagging, WordNet lemmatising and the TextBlob polarity (`disect_headline`, `score_headline_naive`) are inputs (`words`, `polarity`). The verb dictionary is a constructor parameter instead of `get_verb_dict`'s file read. Dictionary entries lacking 'value' or 'direction' are not represented.
- HeadlineSentiment: `score_headline` is a TextBlob call and is not part of this model.
- The rest of `web_scrapper/utils/utils.py` (configuration file reading) is not part of this model; only `reversed_enumerate` is.

## Findings

| source | as written | input that shows it | evidently intended | confidence | as-written member | corrected member |
|---|---|---|---|---|---|---|
| src/web_scrapper/utils/date_time.py:131-133 | a non-positive day borrows `monthrange(publish_time.year, publish_time.month - 1)`, which in January asks for month 0 and raises ValueError | now 2020-01-01 05:00, text "1 days ago" | borrow the length of December of the previous year, giving 2019-12-31 05:00 | not executed | RelativeTime.JanuaryBorrowRaises | RelativeTime.SubtractCorrectedIsHourDifference |
