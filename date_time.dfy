/**
 * The relative-time parser of the headline scraper (web_scrapper/utils/date_time.py).
 *
 * A news source prints a publication time such as `4 hrs ago`.  The text
 * is spaced at every digit/non-digit boundary, cut into tokens, and for
 * each token equal to the source's day, hour or minute indicator the
 * preceding token is read as the count.  The counts are subtracted from
 * the current time truncated to the hour, borrowing through minute, hour,
 * day, month and year.  The indicators come from the source's section of
 * the scraper configuration.  The current time is a parameter.
 */
module RelativeTime {
  import opened Py

  /** A `datetime` down to the minute; seconds and microseconds are always
      zero here. */
  datatype DateTime = DateTime(year: int, month: int, day: int, hour: int, minute: int)

  /** The counts read from the text (`time_ago_dict`). */
  datatype TimeAgo = TimeAgo(days: int, hours: int, minutes: int)

  /** The three indicator tokens of a news source. */
  datatype Indicators = Indicators(day: string, hour: string, minute: string)

  /** The tokens one news source's configuration supplies. */
  datatype Format = Format(indicators: Indicators, optionalSplit: Option<(string, int)>)

  // ---------------------------------------------------------------------
  // The Gregorian calendar
  // ---------------------------------------------------------------------

  predicate IsLeap(year: int) {
    year % 4 == 0 && (year % 100 != 0 || year % 400 == 0)
  }

  function DaysInMonth(year: int, month: int): (n: int)
    ensures 28 <= n <= 31
  {
    if month == 2 then (if IsLeap(year) then 29 else 28)
    else if month == 4 || month == 6 || month == 9 || month == 11 then 30
    else 31
  }

  /** `calendar.monthrange(year, month)[1]`; a month outside 1..12 raises
      (IllegalMonthError, a ValueError). */
  function MonthRange(year: int, month: int): (r: Result<int>)
    ensures r.Ok? <==> 1 <= month <= 12
    ensures r.Ok? ==> r.value == DaysInMonth(year, month)
    ensures r.Raise? ==> r.exc == ValueError
  {
    if 1 <= month <= 12 then Ok(DaysInMonth(year, month)) else Raise(ValueError)
  }

  /** A date `datetime` accepts: years 1..9999. */
  predicate ValidDate(year: int, month: int, day: int) {
    1 <= year <= 9999 && 1 <= month <= 12 && 1 <= day <= DaysInMonth(year, month)
  }

  predicate Valid(t: DateTime) {
    ValidDate(t.year, t.month, t.day) && 0 <= t.hour <= 23 && 0 <= t.minute <= 59
  }

  /** Days in the months of `year` before `month`. */
  function MonthStart(year: int, month: int): int
    decreases month
  {
    if month <= 1 then 0 else MonthStart(year, month - 1) + DaysInMonth(year, month - 1)
  }

  /** Days in the years before `year`, counted from year 1. */
  function YearStart(year: int): int
    decreases year
  {
    if year <= 1 then 0 else YearStart(year - 1) + MonthStart(year - 1, 13)
  }

  /** Days elapsed since the start of year 1, for a date in range. */
  function DayNumber(year: int, month: int, day: int): int
  {
    YearStart(year) + MonthStart(year, month) + day
  }

  /** Hours elapsed since the start of year 1, for a date in range. */
  function HourNumber(t: DateTime): int
  {
    DayNumber(t.year, t.month, t.day) * 24 + t.hour
  }

  // ---------------------------------------------------------------------
  // Spacing and tokens
  // ---------------------------------------------------------------------

  /** The text after spacing `s`, when the previous character was a digit
      exactly when `prevDigit`: a space goes before each character whose
      class differs from the one before it. */
  function SpacedFrom(prevDigit: bool, s: string): string
    decreases |s|
  {
    if s == [] then []
    else (if IsDigit(s[0]) != prevDigit then " " else "") + [s[0]] + SpacedFrom(IsDigit(s[0]), s[1..])
  }

  /** One character of the spacing pass: when the text `r` produced so far
      followed by the spacing of the rest is `whole`, so is `r` with this
      character (and the space before it, when its class changes) followed
      by the spacing of what comes after it. */
  lemma SpacedStep(prevDigit: bool, s: string, k: nat, r: string, whole: string)
    requires k < |s| && r + SpacedFrom(prevDigit, s[k..]) == whole
    ensures IsDigit(s[k]) != prevDigit ==> r + " " + [s[k]] + SpacedFrom(IsDigit(s[k]), s[k + 1..]) == whole
    ensures IsDigit(s[k]) == prevDigit ==> r + [s[k]] + SpacedFrom(IsDigit(s[k]), s[k + 1..]) == whole
  {
    assert s[k..][0] == s[k] && s[k..][1..] == s[k + 1..];
    var gap := if IsDigit(s[k]) != prevDigit then " " else "";
    var tail := SpacedFrom(IsDigit(s[k]), s[k + 1..]);
    assert SpacedFrom(prevDigit, s[k..]) == gap + [s[k]] + tail;
    assert r + (gap + [s[k]] + tail) == r + gap + [s[k]] + tail;
    if gap == "" {
      assert r + gap == r;
    }
  }

  /** Reads spaced text back: a space followed by a character of the other
      class was inserted and is dropped; every other character is kept. */
  function Unspaced(prevDigit: bool, r: string): string
    decreases |r|
  {
    if r == [] then []
    else if |r| >= 2 && r[0] == ' ' && IsDigit(r[1]) != prevDigit then [r[1]] + Unspaced(IsDigit(r[1]), r[2..])
    else [r[0]] + Unspaced(IsDigit(r[0]), r[1..])
  }

  /** Dropping the inserted spaces gives back the original text. */
  lemma {:induction false} UnspacedSpaced(prevDigit: bool, s: string)
    ensures Unspaced(prevDigit, SpacedFrom(prevDigit, s)) == s
    decreases |s|
  {
    if s != [] {
      var c := s[0];
      var rest := SpacedFrom(IsDigit(c), s[1..]);
      UnspacedSpaced(IsDigit(c), s[1..]);
      if IsDigit(c) != prevDigit {
        var r := " " + [c] + rest;
        assert r[2..] == rest;
      } else {
        var r := [c] + rest;
        assert r[1..] == rest;
        if |r| >= 2 && r[0] == ' ' {
          // c is a non-digit space, so prevDigit is false; what follows is
          // either a non-digit or a space inserted before a digit
          assert !prevDigit;
          assert IsDigit(r[1]) == prevDigit by {
            var t := s[1..];
            assert t != [];
            if IsDigit(t[0]) != IsDigit(c) {
              assert r[1] == ' ';
            } else {
              assert r[1] == t[0];
            }
          }
        }
      }
      assert [c] + s[1..] == s;
    }
  }

  /** The tokens of the spaced text: pieces between spaces, empties dropped. */
  function Tokens(text: string): (r: seq<string>)
    ensures forall t :: t in r ==> t != "" && ' ' !in t
  {
    var spaced := SpacedFrom(true, text);
    SplitPiecesAvoidSep(spaced, ' ');
    NonEmpty(Split(spaced, " "))
  }

  // ---------------------------------------------------------------------
  // Reading the counts
  // ---------------------------------------------------------------------

  datatype Unit = Days | Hours | Minutes

  function IndicatorOf(ind: Indicators, u: Unit): string {
    match u
    case Days => ind.day
    case Hours => ind.hour
    case Minutes => ind.minute
  }

  function CountOf(a: TimeAgo, u: Unit): int {
    match u
    case Days => a.days
    case Hours => a.hours
    case Minutes => a.minutes
  }

  /** The token before position k; before the first token Python reads the
      last one (`tokens[-1]`). */
  function Before(tokens: seq<string>, k: int): string
    requires 0 <= k < |tokens|
  {
    At(tokens, k - 1).value
  }

  predicate IsIndicator(ind: Indicators, t: string) {
    t == ind.day || t == ind.hour || t == ind.minute
  }

  /** Token j, when it is an indicator, follows an integer. */
  predicate CountFollows(tokens: seq<string>, ind: Indicators, j: int)
    requires 0 <= j < |tokens|
  {
    IsIndicator(ind, tokens[j]) ==> ParseInt(Before(tokens, j)).Some?
  }

  /** The counts after reading token k: each indicator it equals takes the
      integer value of the token before it; a count that is not an integer
      raises ValueError. */
  function ReadToken(tokens: seq<string>, k: int, ind: Indicators, a: TimeAgo): (r: Result<TimeAgo>)
    requires 0 <= k < |tokens|
    ensures r.Ok? <==> CountFollows(tokens, ind, k)
    ensures r.Raise? ==> r.exc == ValueError
  {
    var t := tokens[k];
    var n := ParseInt(Before(tokens, k));
    if IsIndicator(ind, t) && n.None? then Raise(ValueError)
    else Ok(TimeAgo(
      if t == ind.day then n.value else a.days,
      if t == ind.hour then n.value else a.hours,
      if t == ind.minute then n.value else a.minutes))
  }

  /** The counts after reading tokens k.. from `a` on. */
  function CountsFrom(tokens: seq<string>, k: nat, ind: Indicators, a: TimeAgo): (r: Result<TimeAgo>)
    requires k <= |tokens|
    ensures r.Raise? ==> r.exc == ValueError
    decreases |tokens| - k
  {
    if k == |tokens| then Ok(a)
    else match ReadToken(tokens, k, ind, a)
      case Raise(e) => Raise(e)
      case Ok(a') => CountsFrom(tokens, k + 1, ind, a')
  }

  /** Reading succeeds exactly when every indicator token follows an integer. */
  lemma {:induction false} CountsFromOk(tokens: seq<string>, k: nat, ind: Indicators, a: TimeAgo)
    requires k <= |tokens|
    ensures CountsFrom(tokens, k, ind, a).Ok? <==> forall j :: k <= j < |tokens| ==> CountFollows(tokens, ind, j)
    decreases |tokens| - k
  {
    if k < |tokens| {
      CountsFromStep(tokens, k, ind, a);
      CountedSplit(tokens, k, ind);
      var s := ReadToken(tokens, k, ind, a);
      if s.Ok? {
        CountsFromOk(tokens, k + 1, ind, s.value);
      }
    }
  }

  /** Reading from token k is reading token k, then the rest. */
  lemma CountsFromStep(tokens: seq<string>, k: nat, ind: Indicators, a: TimeAgo)
    requires k < |tokens|
    ensures ReadToken(tokens, k, ind, a).Raise? ==> CountsFrom(tokens, k, ind, a) == Raise(ValueError)
    ensures ReadToken(tokens, k, ind, a).Ok? ==>
      CountsFrom(tokens, k, ind, a) == CountsFrom(tokens, k + 1, ind, ReadToken(tokens, k, ind, a).value)
  {
  }

  /** Every indicator from k on follows an integer exactly when token k
      does (if it is one) and every indicator from k + 1 on does. */
  lemma CountedSplit(tokens: seq<string>, k: nat, ind: Indicators)
    requires k < |tokens|
    ensures (forall j :: k <= j < |tokens| ==> CountFollows(tokens, ind, j)) <==>
      CountFollows(tokens, ind, k) && forall j :: k + 1 <= j < |tokens| ==> CountFollows(tokens, ind, j)
  {
  }

  /** A unit no later token names keeps its count. */
  lemma {:induction false} CountUnmentioned(tokens: seq<string>, k: nat, ind: Indicators, a: TimeAgo, u: Unit)
    requires k <= |tokens| && CountsFrom(tokens, k, ind, a).Ok?
    requires forall j :: k <= j < |tokens| ==> tokens[j] != IndicatorOf(ind, u)
    ensures CountOf(CountsFrom(tokens, k, ind, a).value, u) == CountOf(a, u)
    decreases |tokens| - k
  {
    if k < |tokens| {
      CountUnmentioned(tokens, k + 1, ind, ReadToken(tokens, k, ind, a).value, u);
    }
  }

  /** A unit's count is read from the token before its last mention: a
      later mention overwrites an earlier one. */
  lemma {:induction false} CountIsLastMention(tokens: seq<string>, k: nat, ind: Indicators, a: TimeAgo, u: Unit, j: nat)
    requires k <= j < |tokens| && CountsFrom(tokens, k, ind, a).Ok?
    requires tokens[j] == IndicatorOf(ind, u)
    requires forall i :: j < i < |tokens| ==> tokens[i] != IndicatorOf(ind, u)
    ensures ParseInt(Before(tokens, j)) == Some(CountOf(CountsFrom(tokens, k, ind, a).value, u))
    decreases j - k
  {
    CountsFromStep(tokens, k, ind, a);
    var a' := ReadToken(tokens, k, ind, a).value;
    if k == j {
      ReadMentioned(tokens, k, ind, a, u);
      CountUnmentioned(tokens, k + 1, ind, a', u);
    } else {
      CountIsLastMention(tokens, k + 1, ind, a', u, j);
    }
  }

  /** A token naming a unit sets that unit's count to the integer before it. */
  lemma ReadMentioned(tokens: seq<string>, k: nat, ind: Indicators, a: TimeAgo, u: Unit)
    requires k < |tokens| && ReadToken(tokens, k, ind, a).Ok?
    requires tokens[k] == IndicatorOf(ind, u)
    ensures ParseInt(Before(tokens, k)) == Some(CountOf(ReadToken(tokens, k, ind, a).value, u))
  {
    assert IsIndicator(ind, tokens[k]);
  }

  // ---------------------------------------------------------------------
  // Subtracting with borrows
  // ---------------------------------------------------------------------

  /** `datetime.replace(year, month, day, hour)`: out-of-range values raise
      ValueError; the minute is not passed and stays as it was. */
  function Replace(t: DateTime, year: int, month: int, day: int, hour: int): (r: Result<DateTime>)
    ensures r.Ok? <==> ValidDate(year, month, day) && 0 <= hour <= 23
    ensures r.Ok? ==> r.value == DateTime(year, month, day, hour, t.minute)
    ensures r.Raise? ==> r.exc == ValueError
  {
    if ValidDate(year, month, day) && 0 <= hour <= 23 then Ok(t.(year := year, month := month, day := day, hour := hour))
    else Raise(ValueError)
  }

  /** The subtraction of `time_ago_parser`, where `borrowed` is the length
      of the month a non-positive day borrows from.  A negative minute
      borrows an hour, a negative hour a day, a non-positive day a month
      and a non-positive month a year, each once. */
  function Subtract(now: DateTime, ago: TimeAgo, borrowed: Result<int>): Result<DateTime>
  {
    var minute := now.minute - ago.minutes;
    var h0 := now.hour - ago.hours - (if minute < 0 then 1 else 0);
    var d0 := now.day - ago.days - (if h0 < 0 then 1 else 0);
    var hour := if h0 < 0 then h0 + 24 else h0;
    if d0 <= 0 && borrowed.Raise? then Raise(borrowed.exc)
    else
      var m0 := if d0 <= 0 then now.month - 1 else now.month;
      var day := if d0 <= 0 then d0 + borrowed.value else d0;
      var year := if m0 <= 0 then now.year - 1 else now.year;
      var month := if m0 <= 0 then m0 + 12 else m0;
      Replace(now, year, month, day, hour)
  }

  /** As written: a day borrows `monthrange(year, month - 1)`, which raises
      in January. */
  function SubtractAsWritten(now: DateTime, ago: TimeAgo): Result<DateTime>
  {
    Subtract(now, ago, MonthRange(now.year, now.month - 1))
  }

  /** The length of the month before `month`: December of the year before
      for January. */
  function PreviousMonthLength(year: int, month: int): Result<int>
  {
    if month == 1 then MonthRange(year - 1, 12) else MonthRange(year, month - 1)
  }

  /** The subtraction with January borrowing from December. */
  function SubtractCorrected(now: DateTime, ago: TimeAgo): Result<DateTime>
  {
    Subtract(now, ago, PreviousMonthLength(now.year, now.month))
  }

  /** The two agree outside January. */
  lemma SubtractAgreesOutsideJanuary(now: DateTime, ago: TimeAgo)
    requires now.month != 1
    ensures SubtractAsWritten(now, ago) == SubtractCorrected(now, ago)
  {
  }

  /** One day before 1 January 2020, 05:00: the code as written raises,
      the corrected subtraction gives 31 December 2019, 05:00. */
  lemma JanuaryBorrowRaises()
    ensures SubtractAsWritten(DateTime(2020, 1, 1, 5, 0), TimeAgo(1, 0, 0)) == Raise(ValueError)
    ensures SubtractCorrected(DateTime(2020, 1, 1, 5, 0), TimeAgo(1, 0, 0)) == Ok(DateTime(2019, 12, 31, 5, 0))
  {
    assert DaysInMonth(2019, 12) == 31;
  }

  /** Day d of a month, counted back through the previous month, is the
      same day. */
  lemma BorrowMonth(year: int, month: int, d: int)
    requires 1 <= month <= 12 && (month == 1 ==> year >= 2)
    ensures month == 1 ==> DayNumber(year - 1, 12, d + DaysInMonth(year - 1, 12)) == DayNumber(year, 1, d)
    ensures month >= 2 ==> DayNumber(year, month - 1, d + DaysInMonth(year, month - 1)) == DayNumber(year, month, d)
  {
    if month == 1 {
      assert MonthStart(year - 1, 13) == MonthStart(year - 1, 12) + DaysInMonth(year - 1, 12);
      assert YearStart(year) == YearStart(year - 1) + MonthStart(year - 1, 13);
    } else {
      assert MonthStart(year, month) == MonthStart(year, month - 1) + DaysInMonth(year, month - 1);
    }
  }

  /** The fields of a corrected subtraction's result, given the borrowed
      hour h0 and day d0. */
  lemma SubtractFields(now: DateTime, ago: TimeAgo, t: DateTime, h0: int, d0: int)
    requires 1 <= now.month <= 12
    requires SubtractCorrected(now, ago) == Ok(t)
    requires h0 == now.hour - ago.hours - (if now.minute - ago.minutes < 0 then 1 else 0)
    requires d0 == now.day - ago.days - (if h0 < 0 then 1 else 0)
    ensures t.minute == now.minute && t.hour == (if h0 < 0 then h0 + 24 else h0) && t.year >= 1
    ensures d0 > 0 ==> t.year == now.year && t.month == now.month && t.day == d0
    ensures d0 <= 0 && now.month == 1 ==>
      t.year == now.year - 1 && t.month == 12 && t.day == d0 + DaysInMonth(now.year - 1, 12)
    ensures d0 <= 0 && now.month != 1 ==>
      t.year == now.year && t.month == now.month - 1 && t.day == d0 + DaysInMonth(now.year, now.month - 1)
  {
  }

  /** The borrowed day lies as many days before day 1 of the month as the
      day d0 does. */
  lemma BorrowedDay(y: int, m: int, d0: int, t: DateTime)
    requires 1 <= m <= 12 && t.year >= 1
    requires d0 > 0 ==> t.year == y && t.month == m && t.day == d0
    requires d0 <= 0 && m == 1 ==> t.year == y - 1 && t.month == 12 && t.day == d0 + DaysInMonth(y - 1, 12)
    requires d0 <= 0 && m != 1 ==> t.year == y && t.month == m - 1 && t.day == d0 + DaysInMonth(y, m - 1)
    ensures DayNumber(t.year, t.month, t.day) == DayNumber(y, m, d0)
  {
    if d0 <= 0 {
      BorrowMonth(y, m, d0);
    }
  }

  /** What the corrected subtraction computes: the start of the hour that
      lies the given days, hours and minutes before `now`.  The minute is
      unchanged. */
  lemma SubtractCorrectedIsHourDifference(now: DateTime, ago: TimeAgo, t: DateTime)
    requires Valid(now)
    requires SubtractCorrected(now, ago) == Ok(t)
    ensures t.minute == now.minute
    ensures HourNumber(t) ==
      HourNumber(now) - 24 * ago.days - ago.hours - (if now.minute - ago.minutes < 0 then 1 else 0)
  {
    var c1 := if now.minute - ago.minutes < 0 then 1 else 0;
    var h0 := now.hour - ago.hours - c1;
    var d0 := now.day - ago.days - (if h0 < 0 then 1 else 0);
    var hour := if h0 < 0 then h0 + 24 else h0;
    var y, m := now.year, now.month;
    SubtractFields(now, ago, t, h0, d0);
    BorrowedDay(y, m, d0, t);
    HourArithmetic(now, ago, t, c1, h0, d0);
  }

  /** The hour count of the borrowed fields. */
  lemma HourArithmetic(now: DateTime, ago: TimeAgo, t: DateTime, c1: int, h0: int, d0: int)
    requires h0 == now.hour - ago.hours - c1
    requires d0 == now.day - ago.days - (if h0 < 0 then 1 else 0)
    requires t.hour == (if h0 < 0 then h0 + 24 else h0)
    requires DayNumber(t.year, t.month, t.day) == DayNumber(now.year, now.month, d0)
    ensures HourNumber(t) == HourNumber(now) - 24 * ago.days - ago.hours - c1
  {
    assert DayNumber(now.year, now.month, d0) == DayNumber(now.year, now.month, now.day) - ago.days - (if h0 < 0 then 1 else 0);
  }

  /** With nothing to subtract the result is `now` itself. */
  lemma SubtractNothing(now: DateTime)
    requires Valid(now)
    ensures SubtractCorrected(now, TimeAgo(0, 0, 0)) == Ok(now)
  {
  }

  // ---------------------------------------------------------------------
  // The whole parse
  // ---------------------------------------------------------------------

  /** `time_ago_parser` on a text, with the source's indicators and the
      truncated current time. */
  function TimeAgoOf(text: string, ind: Indicators, now: DateTime): (r: Result<DateTime>)
    ensures r.Raise? ==> r.exc == ValueError
  {
    match CountsFrom(Tokens(text), 0, ind, TimeAgo(0, 0, 0))
    case Raise(e) => Raise(e)
    case Ok(ago) => SubtractCorrected(now, ago)
  }

  /** Some indicator occurs in the text. */
  predicate MentionsIndicator(text: string, ind: Indicators) {
    Contains(text, ind.day) || Contains(text, ind.hour) || Contains(text, ind.minute)
  }

  /** `parse_arbitrary_time_custom` */
  function ParseCustom(text: string, ind: Indicators, now: DateTime): (r: Result<DateTime>)
    ensures r.Raise? && r.exc == SyntaxError <==> !MentionsIndicator(text, ind)
  {
    if !MentionsIndicator(text, ind) then Raise(SyntaxError) else TimeAgoOf(text, ind, now)
  }

  /** `now.replace(minute=0, second=0, microsecond=0)` */
  function Truncate(now: DateTime): (r: DateTime)
    ensures r.minute == 0 && r.hour == now.hour && r.day == now.day
    ensures r.month == now.month && r.year == now.year
  {
    now.(minute := 0)
  }

  /** The result always has minute 0. */
  lemma ParseCustomOnTheHour(text: string, ind: Indicators, now: DateTime)
    requires Valid(now)
    ensures ParseCustom(text, ind, Truncate(now)).Ok? ==> ParseCustom(text, ind, Truncate(now)).value.minute == 0
  {
    var cur := Truncate(now);
    if ParseCustom(text, ind, cur).Ok? {
      var ago := CountsFrom(Tokens(text), 0, ind, TimeAgo(0, 0, 0)).value;
      SubtractCorrectedIsHourDifference(cur, ago, ParseCustom(text, ind, cur).value);
    }
  }

  /** A text naming no count leaves the current hour as it is. */
  lemma NoCountsIsNow(text: string, ind: Indicators, now: DateTime)
    requires Valid(now)
    requires forall j :: 0 <= j < |Tokens(text)| ==> !IsIndicator(ind, Tokens(text)[j])
    ensures TimeAgoOf(text, ind, Truncate(now)) == Ok(Truncate(now))
  {
    var tokens := Tokens(text);
    var zero := TimeAgo(0, 0, 0);
    CountsFromOk(tokens, 0, ind, zero);
    var ago := CountsFrom(tokens, 0, ind, zero).value;
    forall u: Unit ensures CountOf(ago, u) == 0 {
      CountUnmentioned(tokens, 0, ind, zero, u);
    }
    assert ago == TimeAgo(CountOf(ago, Days), CountOf(ago, Hours), CountOf(ago, Minutes));
    SubtractNothing(Truncate(now));
  }

  // ---------------------------------------------------------------------
  // Configuration
  // ---------------------------------------------------------------------

  /** `load_format_token` on the `NEWS_DATE_FORMAT` section: the three
      indicators must exist (KeyError), the optional split is None when
      either of its two options is missing, and a date index that is not
      an integer raises ValueError. */
  function FormatOf(section: map<string, string>, source: string): (r: Result<Format>)
    ensures r.Ok? <==>
      && ConfigOption(section, source + "_DAY_FORMAT").Ok?
      && ConfigOption(section, source + "_HOUR_FORMAT").Ok?
      && ConfigOption(section, source + "_MINUTE_FORMAT").Ok?
      && (ConfigOption(section, source + "_OPTIONAL_SPLIT").Ok? && ConfigOption(section, source + "_DATE_INDEX").Ok? ==>
            ParseInt(ConfigOption(section, source + "_DATE_INDEX").value).Some?)
    ensures r.Ok? ==> (r.value.optionalSplit.None? <==>
      ConfigOption(section, source + "_OPTIONAL_SPLIT").Raise? || ConfigOption(section, source + "_DATE_INDEX").Raise?)
    ensures r.Ok? && r.value.optionalSplit.Some? ==>
      r.value.optionalSplit.value.0 == ConfigOption(section, source + "_OPTIONAL_SPLIT").value &&
      Some(r.value.optionalSplit.value.1) == ParseInt(ConfigOption(section, source + "_DATE_INDEX").value)
    ensures r.Raise? ==> r.exc == KeyError || r.exc == ValueError
  {
    var day := ConfigOption(section, source + "_DAY_FORMAT");
    var hour := ConfigOption(section, source + "_HOUR_FORMAT");
    var minute := ConfigOption(section, source + "_MINUTE_FORMAT");
    var split := ConfigOption(section, source + "_OPTIONAL_SPLIT");
    var index := ConfigOption(section, source + "_DATE_INDEX");
    if day.Raise? || hour.Raise? || minute.Raise? then Raise(KeyError)
    else if split.Raise? || index.Raise? then Ok(Format(Indicators(day.value, hour.value, minute.value), None))
    else match ParseInt(index.value)
      case None => Raise(ValueError)
      case Some(i) => Ok(Format(Indicators(day.value, hour.value, minute.value), Some((split.value, i))))
  }

  // ---------------------------------------------------------------------
  // The parser object
  // ---------------------------------------------------------------------

  class CustomTime {
    const newsSource: string
    const arbitraryTime: string
    /** The current time truncated to the hour. */
    const currentTime: DateTime
    var dayIndicator: string
    var hourIndicator: string
    var minuteIndicator: string
    var optionalSplit: Option<(string, int)>

    /** The three indicators loaded so far. */
    function Loaded(): Indicators
      reads this
    {
      Indicators(dayIndicator, hourIndicator, minuteIndicator)
    }

    constructor(newsSource: string, arbitraryTime: string, now: DateTime)
      ensures this.newsSource == newsSource && this.arbitraryTime == arbitraryTime
      ensures currentTime == Truncate(now)
      ensures dayIndicator == "" && hourIndicator == "" && minuteIndicator == "" && optionalSplit == None
    {
      this.newsSource := newsSource;
      this.arbitraryTime := arbitraryTime;
      currentTime := Truncate(now);
      dayIndicator, hourIndicator, minuteIndicator := "", "", "";
      optionalSplit := None;
    }

    /** `customTime(news_source, arbitrary_time)`: construction loads the
        format tokens and raises what loading raises. */
    static method New(newsSource: string, arbitraryTime: string, now: DateTime, section: map<string, string>)
      returns (r: Result<CustomTime>)
      ensures r.Ok? <==> FormatOf(section, newsSource).Ok?
      ensures r.Raise? ==> r.exc == FormatOf(section, newsSource).exc
      ensures r.Ok? ==> fresh(r.value) && r.value.currentTime == Truncate(now)
      ensures r.Ok? ==> r.value.arbitraryTime == arbitraryTime && r.value.newsSource == newsSource
      ensures r.Ok? ==> r.value.Loaded() == FormatOf(section, newsSource).value.indicators
      ensures r.Ok? ==> r.value.optionalSplit == FormatOf(section, newsSource).value.optionalSplit
    {
      var c := new CustomTime(newsSource, arbitraryTime, now);
      var loaded := c.LoadFormatToken(section);
      if loaded.Raise? {
        return Raise(loaded.exc);
      }
      return Ok(c);
    }

    /** `load_format_token` */
    method LoadFormatToken(section: map<string, string>) returns (r: Result<()>)
      modifies this`dayIndicator, this`hourIndicator, this`minuteIndicator, this`optionalSplit
      ensures r.Ok? <==> FormatOf(section, newsSource).Ok?
      ensures r.Raise? ==> r.exc == FormatOf(section, newsSource).exc
      ensures r.Ok? ==> Loaded() == FormatOf(section, newsSource).value.indicators
                        && optionalSplit == FormatOf(section, newsSource).value.optionalSplit
    {
      var day := ConfigOption(section, newsSource + "_DAY_FORMAT");
      if day.Raise? { return Raise(KeyError); }
      dayIndicator := day.value;
      var hour := ConfigOption(section, newsSource + "_HOUR_FORMAT");
      if hour.Raise? { return Raise(KeyError); }
      hourIndicator := hour.value;
      var minute := ConfigOption(section, newsSource + "_MINUTE_FORMAT");
      if minute.Raise? { return Raise(KeyError); }
      minuteIndicator := minute.value;
      var split := ConfigOption(section, newsSource + "_OPTIONAL_SPLIT");
      var index := ConfigOption(section, newsSource + "_DATE_INDEX");
      if split.Raise? || index.Raise? {
        optionalSplit := None;
        return Ok(());
      }
      var i := ParseInt(index.value);
      if i.None? {
        return Raise(ValueError);
      }
      optionalSplit := Some((split.value, i.value));
      return Ok(());
    }

    /** `spacer`: one pass over the characters, remembering the class of
        the previous one (initially digit). */
    method Spacer(s: string) returns (r: string)
      ensures r == SpacedFrom(true, s)
    {
      var previousDigit := true;
      r := "";
      for k := 0 to |s|
        invariant r + SpacedFrom(previousDigit, s[k..]) == SpacedFrom(true, s)
      {
        var letter := s[k];
        var digit := IsDigit(letter);
        SpacedStep(previousDigit, s, k, r, SpacedFrom(true, s));
        if digit != previousDigit {
          r := r + " ";
          previousDigit := digit;
        }
        r := r + [letter];
      }
      assert s[|s|..] == [];
    }

    /** `time_ago_parser` */
    method TimeAgoParser() returns (r: Result<DateTime>)
      ensures r == TimeAgoOf(arbitraryTime, Loaded(), currentTime)
    {
      var spaced := Spacer(arbitraryTime);
      var tokens := NonEmpty(Split(spaced, " "));
      var ind := Loaded();
      var ago := TimeAgo(0, 0, 0);
      var k := 0;
      while k < |tokens|
        invariant 0 <= k <= |tokens|
        invariant CountsFrom(tokens, 0, ind, TimeAgo(0, 0, 0)) == CountsFrom(tokens, k, ind, ago)
      {
        var token := tokens[k];
        var before := if k == 0 then tokens[|tokens| - 1] else tokens[k - 1];
        assert before == Before(tokens, k);
        if token == dayIndicator {
          var n := ParseInt(before);
          if n.None? { return Raise(ValueError); }
          ago := ago.(days := n.value);
        }
        if token == hourIndicator {
          var n := ParseInt(before);
          if n.None? { return Raise(ValueError); }
          ago := ago.(hours := n.value);
        }
        if token == minuteIndicator {
          var n := ParseInt(before);
          if n.None? { return Raise(ValueError); }
          ago := ago.(minutes := n.value);
        }
        k := k + 1;
      }
      r := SubtractCorrected(currentTime, ago);
    }

    /** `parse_arbitrary_time_custom` */
    method ParseArbitraryTimeCustom() returns (r: Result<DateTime>)
      ensures r == ParseCustom(arbitraryTime, Loaded(), currentTime)
    {
      if !(Contains(arbitraryTime, dayIndicator) || Contains(arbitraryTime, hourIndicator)
           || Contains(arbitraryTime, minuteIndicator)) {
        return Raise(SyntaxError);
      }
      r := TimeAgoParser();
    }
  }
}
