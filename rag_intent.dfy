/**
 * `RAGService.parse_intent`: the resolver the chat pipeline calls. Rules in
 * order: ticker, category (whose trend keywords also hold "biến động"), the
 * two absolute date patterns each with its own format (return), "N ngày qua"
 * (return), the day keywords (return), the first matching week or month
 * keyword of an if/elif chain, and a 7-day default for a trend query that
 * has no time yet.
 */
module RagIntent {
  import opened Wrappers
  import opened Text
  import opened Calendar
  import opened Patterns
  import opened Intents

  const TrendKeywords: seq<string> := ["xu hướng", "trend", "phân tích", "analyze", "biến động"]

  /** `date_patterns`: each pattern with the format its match is read with. */
  const DatePatterns: seq<(DatePattern, DateFormat)> := [(IsoDate, YmdDash), (SlashDmy, DmySlash)]

  /** `relative_time_map` in insertion order. */
  const DayOffsets: seq<(string, int)> := [("hôm nay", 0), ("today", 0), ("hôm qua", -1), ("yesterday", -1), ("hôm kia", -2)]

  /** The if/elif chain of week and month keywords: two spellings per period. */
  const PeriodKeywords: seq<(string, string, Period)> := [
    ("tuần này", "this week", ThisWeek), ("tuần trước", "last week", LastWeek),
    ("tháng này", "this month", ThisMonth), ("tháng trước", "last month", LastMonth)]

  /** The date of the first pattern, from index `k` on, whose leftmost match parses with its format. */
  function FirstDate(msg: string, k: nat): (r: Option<Date>)
    requires k <= |DatePatterns|
    ensures r.Some? ==> IsPyDate(r.value)
    decreases |DatePatterns| - k
  {
    if k == |DatePatterns| then None
    else match SearchDateText(DatePatterns[k].0, msg, 0)
      case Some(text) =>
        (match Strptime(DatePatterns[k].1, text)
         case Some(d) => Some(d)
         case None => FirstDate(msg, k + 1))
      case None => FirstDate(msg, k + 1)
  }

  /** The offset of the first day keyword, from index `k` on, that occurs in the text. */
  function FirstDayOffset(lower: string, k: nat): (r: Option<int>)
    requires k <= |DayOffsets|
    ensures r.Some? ==> -2 <= r.value <= 0
    ensures r.Some? <==> exists j :: k <= j < |DayOffsets| && Contains(lower, DayOffsets[j].0)
    ensures r.Some? ==> exists j :: (k <= j < |DayOffsets| && Contains(lower, DayOffsets[j].0)
      && r.value == DayOffsets[j].1
      && forall i :: k <= i < j ==> !Contains(lower, DayOffsets[i].0))
    decreases |DayOffsets| - k
  {
    if k == |DayOffsets| then None
    else if Contains(lower, DayOffsets[k].0) then Some(DayOffsets[k].1)
    else FirstDayOffset(lower, k + 1)
  }

  /** The period of the first branch of the chain, from index `k` on, one of whose spellings occurs. */
  function FirstPeriod(lower: string, k: nat): (r: Option<Period>)
    requires k <= |PeriodKeywords|
    ensures r.Some? <==>
      exists j :: k <= j < |PeriodKeywords| && (Contains(lower, PeriodKeywords[j].0) || Contains(lower, PeriodKeywords[j].1))
    ensures r.Some? ==> exists j :: (k <= j < |PeriodKeywords|
      && (Contains(lower, PeriodKeywords[j].0) || Contains(lower, PeriodKeywords[j].1))
      && r.value == PeriodKeywords[j].2
      && forall i :: k <= i < j ==> !Contains(lower, PeriodKeywords[i].0) && !Contains(lower, PeriodKeywords[i].1))
    decreases |PeriodKeywords| - k
  {
    if k == |PeriodKeywords| then None
    else if Contains(lower, PeriodKeywords[k].0) || Contains(lower, PeriodKeywords[k].1) then Some(PeriodKeywords[k].2)
    else FirstPeriod(lower, k + 1)
  }

  /** The week/month chain, then the trend default when no time has been set. */
  function PeriodThenTrend(i: Intent, lower: string, now: DateTime): Intent
    requires ValidClock(now)
  {
    var i2 := match FirstPeriod(lower, 0)
      case Some(p) => i.(timeRange := Some(PeriodRange(p, now.date)))
      case None => i;
    if i2.kind == TrendAnalysis && i2.timeRange.None? && i2.exactTime.None? then i2.(timeRange := Some(RecentDays(now, 7)))
    else i2
  }

  /** The rules after the absolute dates: "N ngày qua", the day keywords, the periods and the trend default. */
  function RelativeRules(i: Intent, lower: string, now: DateTime): Resolution
    requires ValidClock(now)
  {
    match SearchLastDays(lower, 0)
    case Some(n) =>
      if AddDays(now.date, -(n as int)).year < MinYear then Overflow
      else Resolved(i.(timeRange := Some(RecentDays(now, n)), structured := true))
    case None =>
      match FirstDayOffset(lower, 0)
      case Some(off) => Resolved(i.(exactTime := Some(OnDay(AddDays(now.date, off)))))
      case None => Resolved(PeriodThenTrend(i, lower, now))
  }

  /** What `parse_intent(msg)` returns when `datetime.now()` is `now`. */
  function Resolve(msg: string, now: DateTime): Resolution
    requires ValidClock(now)
  {
    var lower := Lower(msg);
    var base := Classify(lower, TrendKeywords);
    match FirstDate(msg, 0)
    case Some(d) => Resolved(base.(exactTime := Some(OnDay(d))))
    case None => RelativeRules(base, lower, now)
  }

  // ---------------------------------------------------------------------------
  // Absolute dates

  /** Pattern `k`'s leftmost match names a date that exists. */
  predicate Parsable(msg: string, k: nat)
    requires k < |DatePatterns|
  {
    var m := SearchDateText(DatePatterns[k].0, msg, 0);
    m.Some? && IsPyDate(PatternDate(DatePatterns[k].0, m.value))
  }

  /** Each pattern's format reads its match as the date its digit groups name, when that date exists. */
  lemma FormatsFitPatterns(k: nat, t: string)
    requires k < |DatePatterns| && DateShape(DatePatterns[k].0, t)
    ensures Strptime(DatePatterns[k].1, t) ==
      if IsPyDate(PatternDate(DatePatterns[k].0, t)) then Some(PatternDate(DatePatterns[k].0, t)) else None
  {
  }

  /**
   * The date step finds the first pattern, ISO before day-first, whose
   * leftmost match names a date that exists; an impossible date falls through.
   */
  lemma {:induction false} FirstDateIsFirstParsable(msg: string, k: nat)
    requires k <= |DatePatterns|
    ensures FirstDate(msg, k).Some? <==> exists j :: k <= j < |DatePatterns| && Parsable(msg, j)
    ensures FirstDate(msg, k).Some? ==> exists j :: (k <= j < |DatePatterns| && Parsable(msg, j)
      && FirstDate(msg, k).value == PatternDate(DatePatterns[j].0, SearchDateText(DatePatterns[j].0, msg, 0).value)
      && forall i :: k <= i < j ==> !Parsable(msg, i))
    decreases |DatePatterns| - k
  {
    if k < |DatePatterns| {
      var m := SearchDateText(DatePatterns[k].0, msg, 0);
      if m.Some? {
        FormatsFitPatterns(k, m.value);
      }
      FirstDateIsFirstParsable(msg, k + 1);
      assert Parsable(msg, k) ==> FirstDate(msg, k).Some?;
      assert (exists j :: k <= j < |DatePatterns| && Parsable(msg, j)) ==>
        Parsable(msg, k) || exists j :: k + 1 <= j < |DatePatterns| && Parsable(msg, j);
    }
  }

  /** A parsed date ends the resolution: only the first steps' fields and the day are set. */
  lemma DateReturns(msg: string, now: DateTime)
    requires ValidClock(now) && FirstDate(msg, 0).Some?
    ensures var r := Resolve(msg, now); var base := Classify(Lower(msg), TrendKeywords);
      && r.Resolved? && r.intent == base.(exactTime := Some(OnDay(FirstDate(msg, 0).value)))
      && r.intent.timeRange.None?
  {
  }

  // ---------------------------------------------------------------------------
  // The later rules in order

  /**
   * "N ngày qua" returns at once: a range of N days ending today with the
   * structured flag, or the `OverflowError` when N days back passes 0001-01-01.
   */
  lemma LastDaysReturns(i: Intent, lower: string, now: DateTime)
    requires ValidClock(now) && SearchLastDays(lower, 0).Some?
    ensures var n := SearchLastDays(lower, 0).value; var r := RelativeRules(i, lower, now);
      && (r.Overflow? <==> Ordinal(now.date) <= n)
      && (r.Resolved? ==>
            && r.intent == i.(timeRange := r.intent.timeRange, structured := true)
            && r.intent.timeRange.Some? && r.intent.timeRange.value.end == now.date
            && Ordinal(r.intent.timeRange.value.end) - Ordinal(r.intent.timeRange.value.start) == n)
  {
    var n := SearchLastDays(lower, 0).value;
    var start := AddDays(now.date, -(n as int));
    OrdinalAddDays(now.date, -(n as int));
    OrdinalPositive(start);
    RecentDaysSpan(now, n);
    assert RelativeRules(i, lower, now) ==
      if start.year < MinYear then Overflow
      else Resolved(i.(timeRange := Some(RecentDays(now, n)), structured := true));
  }

  /** Without "N ngày qua", the first day keyword sets the day `off` days from today and returns. */
  lemma DayKeywordReturns(i: Intent, lower: string, now: DateTime)
    requires ValidClock(now) && SearchLastDays(lower, 0).None? && FirstDayOffset(lower, 0).Some?
    ensures var r := RelativeRules(i, lower, now);
      && r.Resolved? && r.intent == i.(exactTime := r.intent.exactTime)
      && r.intent.exactTime.Some? && r.intent.exactTime.value.OnDay?
      && Ordinal(r.intent.exactTime.value.date) == Ordinal(now.date) + FirstDayOffset(lower, 0).value
  {
    OrdinalAddDays(now.date, FirstDayOffset(lower, 0).value);
  }

  /**
   * A period keyword sets its range whatever the type; with none, a trend
   * query with no time gets the last 7 days and any other intent is unchanged.
   */
  lemma PeriodOrTrendDefault(i: Intent, lower: string, now: DateTime)
    requires ValidClock(now) && i.timeRange.None? && i.exactTime.None?
    ensures var r := PeriodThenTrend(i, lower, now);
      && (FirstPeriod(lower, 0).Some? ==> r == i.(timeRange := Some(PeriodRange(FirstPeriod(lower, 0).value, now.date))))
      && (FirstPeriod(lower, 0).None? && i.kind == TrendAnalysis ==>
            r == i.(timeRange := Some(r.timeRange.value)) && r.timeRange.value.end == now.date
            && Ordinal(r.timeRange.value.end) - Ordinal(r.timeRange.value.start) == 7)
      && (FirstPeriod(lower, 0).None? && i.kind != TrendAnalysis ==> r == i)
  {
    RecentDaysSpan(now, 7);
  }

  /** A trend query that reaches the last step always leaves with a range. */
  lemma TrendAlwaysHasTime(msg: string, now: DateTime)
    requires ValidClock(now)
    ensures var r := Resolve(msg, now);
      r.Resolved? && r.intent.kind == TrendAnalysis ==> r.intent.timeRange.Some? || r.intent.exactTime.Some?
  {
    var lower := Lower(msg);
    var base := Classify(lower, TrendKeywords);
    if FirstDate(msg, 0).None? && SearchLastDays(lower, 0).None? && FirstDayOffset(lower, 0).None? {
      PeriodOrTrendDefault(base, lower, now);
    }
  }

  // ---------------------------------------------------------------------------
  // Ticker, category, default

  lemma RelativeRulesKeepClass(i: Intent, lower: string, now: DateTime)
    requires ValidClock(now)
    ensures KeepsClass(i, RelativeRules(i, lower, now))
  {
  }

  /**
   * The type of a resolved intent is decided by the keywords alone, price
   * before trend (whose keywords include "biến động") before news; price and
   * trend queries ask for structured data and every intent asks for the
   * vector search.
   */
  lemma ResolvedCategory(msg: string, now: DateTime)
    requires ValidClock(now)
    ensures var lower := Lower(msg); var r := Resolve(msg, now);
      r.Resolved? ==>
        && (r.intent.kind == PriceQuery <==> ContainsAny(lower, PriceKeywords))
        && (r.intent.kind == TrendAnalysis <==> !ContainsAny(lower, PriceKeywords) && ContainsAny(lower, TrendKeywords))
        && (r.intent.kind == NewsSummary <==>
              !ContainsAny(lower, PriceKeywords) && !ContainsAny(lower, TrendKeywords) && ContainsAny(lower, NewsKeywords))
        && (r.intent.kind == PriceQuery || r.intent.kind == TrendAnalysis ==> r.intent.structured)
        && r.intent.vectorSearch
  {
    RelativeRulesKeepClass(Classify(Lower(msg), TrendKeywords), Lower(msg), now);
  }

  /** The ticker: the leftmost listed symbol with "USDT" appended, else "BTCUSDT". */
  lemma ResolvedTicker(msg: string, now: DateTime)
    requires ValidClock(now)
    ensures var lower := Lower(msg); var r := Resolve(msg, now);
      r.Resolved? ==>
        && ((forall p :: 0 <= p <= |lower| ==> TickerAt(lower, p).None?) ==> r.intent.ticker == DefaultTicker)
        && ((exists p :: 0 <= p <= |lower| && TickerAt(lower, p).Some?) ==>
              exists p :: (0 <= p <= |lower| && TickerAt(lower, p).Some? && r.intent.ticker == TickerAt(lower, p).value + "USDT"
                && forall q :: 0 <= q < p ==> TickerAt(lower, q).None?))
  {
    var lower := Lower(msg);
    RelativeRulesKeepClass(Classify(lower, TrendKeywords), lower, now);
    assert Resolve(msg, now).Resolved? ==> Resolve(msg, now).intent.ticker == TickerOf(lower);
    TickerOfLeftmost(lower);
  }

  /** "biến động" with no price word makes a trend query here; the stand-alone resolver's list lacks it. */
  lemma FluctuationIsTrend()
    ensures Classify("biến động", TrendKeywords).kind == TrendAnalysis
  {
    var s := "biến động";
    MissingCharNotContained(s, PriceKeywords[0], 2);
    MissingCharNotContained(s, PriceKeywords[1], 0);
    MissingCharNotContained(s, PriceKeywords[2], 1);
    MissingCharNotContained(s, PriceKeywords[3], 2);
    assert !ContainsAny(s, PriceKeywords);
    assert OccursAt(s, 0, TrendKeywords[4]);
    assert ContainsAny(s, TrendKeywords);
  }

  /** No cue of any rule occurs in the message. */
  predicate NoCue(msg: string) {
    var lower := Lower(msg);
    && SearchTicker(lower, 0).None?
    && !ContainsAny(lower, PriceKeywords) && !ContainsAny(lower, TrendKeywords) && !ContainsAny(lower, NewsKeywords)
    && (forall pat :: SearchDateText(pat, msg, 0).None?)
    && SearchLastDays(lower, 0).None?
    && (forall j :: 0 <= j < |DayOffsets| ==> !Contains(lower, DayOffsets[j].0))
    && (forall j :: 0 <= j < |PeriodKeywords| ==> !Contains(lower, PeriodKeywords[j].0) && !Contains(lower, PeriodKeywords[j].1))
  }

  /** A message without any cue gets the default record. */
  lemma DefaultWhenNoCue(msg: string, now: DateTime)
    requires ValidClock(now) && NoCue(msg)
    ensures Resolve(msg, now) == Resolved(DefaultIntent)
  {
    assert SearchDateText(DatePatterns[0].0, msg, 0).None?;
    assert SearchDateText(DatePatterns[1].0, msg, 0).None?;
  }

  // ---------------------------------------------------------------------------
  // Every date the resolver writes can be formatted

  lemma PeriodThenTrendRenderable(i: Intent, lower: string, now: DateTime)
    requires ValidClock(now) && Renderable(i)
    ensures Renderable(PeriodThenTrend(i, lower, now))
  {
    if FirstPeriod(lower, 0).Some? {
      PeriodRenderable(FirstPeriod(lower, 0).value, now);
    }
    NearToday(now, -7);
  }

  lemma RelativeRulesRenderable(i: Intent, lower: string, now: DateTime)
    requires ValidClock(now) && Renderable(i)
    ensures var r := RelativeRules(i, lower, now); r.Resolved? ==> Renderable(r.intent)
  {
    match SearchLastDays(lower, 0)
    case Some(n) =>
      if AddDays(now.date, -(n as int)).year >= MinYear {
        EarlierDayRenderable(now, n);
      }
    case None =>
      if FirstDayOffset(lower, 0).Some? {
        NearToday(now, FirstDayOffset(lower, 0).value);
      } else {
        PeriodThenTrendRenderable(i, lower, now);
      }
  }

  /** Every date of a resolved intent is one `strftime` can write: the resolver raises rather than leave the calendar. */
  lemma ResolvedRenderable(msg: string, now: DateTime)
    requires ValidClock(now)
    ensures var r := Resolve(msg, now); r.Resolved? ==> Renderable(r.intent)
  {
    var lower := Lower(msg);
    var base := Classify(lower, TrendKeywords);
    if FirstDate(msg, 0).None? {
      RelativeRulesRenderable(base, lower, now);
    }
  }
}
