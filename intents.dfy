/**
 * The intent record both resolvers build, the steps they share (ticker and
 * category), and the text forms its time fields take in the result dict.
 */
module Intents {
  import opened Wrappers
  import opened Text
  import opened Calendar
  import opened Patterns

  datatype QueryType = General | PriceQuery | TrendAnalysis | NewsSummary

  /** The value of the `type` key. */
  function QueryTypeText(k: QueryType): string {
    match k
    case General => "general"
    case PriceQuery => "price_query"
    case TrendAnalysis => "trend_analysis"
    case NewsSummary => "news_summary"
  }

  /** `exact_time`: a day (`%Y-%m-%d`) or a minute (`%Y-%m-%d %H:%M`). */
  datatype ExactTime = OnDay(date: Date) | AtMinute(time: DateTime)

  /** `time_range`: the `start` and `end` days. */
  datatype DayRange = DayRange(start: Date, end: Date)

  datatype Intent = Intent(
    kind: QueryType,
    ticker: string,
    timeRange: Option<DayRange>,
    exactTime: Option<ExactTime>,
    structured: bool,    // requires_structured_data
    vectorSearch: bool)  // requires_vector_search

  /** What a resolver produces: the intent, or the `OverflowError` a date before year 1 raises. */
  datatype Resolution = Resolved(intent: Intent) | Overflow

  const DefaultTicker: string := "BTCUSDT"

  /** The record before any rule has fired. */
  const DefaultIntent: Intent := Intent(General, DefaultTicker, None, None, false, true)

  const PriceKeywords: seq<string> := ["giá", "price", "bao nhiêu", "how much"]
  const NewsKeywords: seq<string> := ["tin tức", "news", "sentiment", "tâm lý"]

  /**
   * The clocks the model accepts as `datetime.now()`: a real datetime whose
   * year leaves room for the fixed offsets of up to two weeks the rules apply.
   */
  predicate ValidClock(now: DateTime) {
    IsPyDateTime(now) && 2 <= now.date.year <= 9998
  }

  /** The `ticker` value: the matched symbol plus "USDT", else the default. */
  function TickerOf(lower: string): (t: string)
    ensures t == DefaultTicker || exists k :: 0 <= k < |Symbols| && t == UpperAscii(Symbols[k]) + "USDT"
  {
    match SearchTicker(lower, 0)
    case Some(sym) => sym + "USDT"
    case None => DefaultTicker
  }

  /** The ticker is that of the leftmost whole-word symbol, else the default. */
  lemma TickerOfLeftmost(lower: string)
    ensures (forall p :: 0 <= p <= |lower| ==> TickerAt(lower, p).None?) ==> TickerOf(lower) == DefaultTicker
    ensures (exists p :: 0 <= p <= |lower| && TickerAt(lower, p).Some?) ==>
      exists p :: (0 <= p <= |lower| && TickerAt(lower, p).Some? && TickerOf(lower) == TickerAt(lower, p).value + "USDT"
        && forall q :: 0 <= q < p ==> TickerAt(lower, q).None?)
  {
    SearchTickerLeftmost(lower, 0);
  }

  /**
   * Ticker and category steps on the lowered message: price before trend
   * before news; price and trend ask for structured data.
   */
  function Classify(lower: string, trendKeywords: seq<string>): (r: Intent)
    ensures r.ticker == TickerOf(lower)
    ensures r.kind == PriceQuery <==> ContainsAny(lower, PriceKeywords)
    ensures r.kind == TrendAnalysis <==> !ContainsAny(lower, PriceKeywords) && ContainsAny(lower, trendKeywords)
    ensures r.kind == NewsSummary <==>
      !ContainsAny(lower, PriceKeywords) && !ContainsAny(lower, trendKeywords) && ContainsAny(lower, NewsKeywords)
    ensures r.structured <==> r.kind == PriceQuery || r.kind == TrendAnalysis
    ensures r.vectorSearch && r.timeRange.None? && r.exactTime.None?
  {
    var i := DefaultIntent.(ticker := TickerOf(lower));
    if ContainsAny(lower, PriceKeywords) then i.(kind := PriceQuery, structured := true)
    else if ContainsAny(lower, trendKeywords) then i.(kind := TrendAnalysis, structured := true, vectorSearch := true)
    else if ContainsAny(lower, NewsKeywords) then i.(kind := NewsSummary, vectorSearch := true)
    else i
  }

  /** The resolver keeps the type, ticker and vector-search flag of the first steps and never clears the structured flag. */
  predicate KeepsClass(i: Intent, r: Resolution) {
    r.Resolved? ==>
      && r.intent.kind == i.kind && r.intent.ticker == i.ticker && r.intent.vectorSearch == i.vectorSearch
      && (i.structured ==> r.intent.structured)
  }

  /** `[now - days, now]` as days. */
  function RecentDays(now: DateTime, days: int): (r: DayRange)
    requires Valid(now.date)
    ensures Valid(r.start) && Valid(r.end)
  {
    DayRange(AddDays(now.date, -days), now.date)
  }

  /** The range ends today and spans exactly `days` days. */
  lemma RecentDaysSpan(now: DateTime, days: int)
    requires Valid(now.date)
    ensures var r := RecentDays(now, days);
      r.end == now.date && Ordinal(r.end) - Ordinal(r.start) == days
  {
    OrdinalAddDays(now.date, -days);
  }

  /** `now - timedelta(days=now.weekday())`: this week's Monday. */
  function MondayOf(d: Date): (r: Date)
    requires Valid(d)
    ensures Valid(r)
  {
    AddDays(d, -Weekday(d))
  }

  /** The week and month keywords both resolvers know. */
  datatype Period = ThisWeek | LastWeek | ThisMonth | LastMonth

  /** The `time_range` a week or month keyword sets, seen from `today`. */
  function PeriodRange(p: Period, today: Date): DayRange
    requires Valid(today)
  {
    match p
    case ThisWeek => DayRange(MondayOf(today), today)
    case LastWeek =>
      var start := AddDays(today, -(Weekday(today) + 7));
      DayRange(start, AddDays(start, 6))
    case ThisMonth => DayRange(FirstOfMonth(today), today)
    case LastMonth =>
      var last := AddDays(FirstOfMonth(today), -1);
      DayRange(FirstOfMonth(last), last)
  }

  /** This week: from its Monday to today. */
  lemma ThisWeekRange(today: Date)
    requires Valid(today)
    ensures var w := PeriodRange(ThisWeek, today);
      && Weekday(w.start) == 0 && w.end == today
      && Ordinal(w.end) - Ordinal(w.start) == Weekday(today)
  {
    assert -Weekday(today) == 7 * 0 - Weekday(today);
    WeekStart(today, 0);
  }

  /** Last week: Monday to Sunday of the week before this one. */
  lemma LastWeekRange(today: Date)
    requires Valid(today)
    ensures var w := PeriodRange(LastWeek, today);
      && Weekday(w.start) == 0
      && Ordinal(w.start) == Ordinal(today) - Weekday(today) - 7
      && Ordinal(w.end) - Ordinal(w.start) == 6
  {
    assert -(Weekday(today) + 7) == 7 * -1 - Weekday(today);
    WeekStart(today, -1);
    OrdinalAddDays(AddDays(today, -(Weekday(today) + 7)), 6);
  }

  /** This month runs from its first day to today; last month is the whole previous month. */
  lemma MonthRanges(today: Date)
    requires Valid(today)
    ensures var w := PeriodRange(ThisMonth, today);
      w.start == Date(today.year, today.month, 1) && w.end == today
    ensures var w := PeriodRange(LastMonth, today);
      && w.start.day == 1 && w.end.day == DaysInMonth(w.end.year, w.end.month)
      && w.start.year == w.end.year && w.start.month == w.end.month
      && w.end.month == (if today.month == 1 then 12 else today.month - 1)
      && w.end.year == (if today.month == 1 then today.year - 1 else today.year)
  {
    LastDayOfPreviousMonth(today);
  }

  /** A date at most a year from a clock's date is one Python can hold. */
  lemma NearToday(now: DateTime, k: int)
    requires ValidClock(now) && -365 <= k <= 365
    ensures IsPyDate(AddDays(now.date, k))
  {
    AddDaysNearYear(now.date, k);
  }

  /** A week that starts `k` days from today. */
  lemma WeekNearToday(now: DateTime, k: int)
    requires ValidClock(now) && -14 <= k <= 7
    ensures IsPyDate(AddDays(now.date, k)) && IsPyDate(AddDays(AddDays(now.date, k), 6))
  {
    var start := AddDays(now.date, k);
    NearToday(now, k);
    OrdinalAddDays(now.date, k);
    OrdinalAddDays(start, 6);
    YearsNear(now.date, AddDays(start, 6));
  }

  /** Both ends of a period range are dates Python can hold. */
  lemma PeriodRenderable(p: Period, now: DateTime)
    requires ValidClock(now)
    ensures IsPyDate(PeriodRange(p, now.date).start) && IsPyDate(PeriodRange(p, now.date).end)
  {
    var today := now.date;
    match p
    case ThisWeek => NearToday(now, -Weekday(today));
    case LastWeek => WeekNearToday(now, -(Weekday(today) + 7));
    case ThisMonth =>
    case LastMonth =>
      OrdinalAddDays(FirstOfMonth(today), -1);
      YearsNear(today, AddDays(FirstOfMonth(today), -1));
  }

  /** A date `n` days back that is in year 1 or later is one Python can hold. */
  lemma EarlierDayRenderable(now: DateTime, n: nat)
    requires ValidClock(now) && AddDays(now.date, -(n as int)).year >= MinYear
    ensures IsPyDate(AddDays(now.date, -(n as int)))
  {
    OrdinalAddDays(now.date, -(n as int));
    YearsFollowOrdinals(AddDays(now.date, -(n as int)), now.date);
  }

  // ---------------------------------------------------------------------------
  // Text forms

  predicate ExactTimeOk(e: ExactTime) {
    match e
    case OnDay(d) => IsPyDate(d)
    case AtMinute(t) => IsPyDateTime(t)
  }

  function ExactTimeText(e: ExactTime): (s: string)
    requires ExactTimeOk(e)
    ensures |s| == (if e.OnDay? then 10 else 16)
  {
    match e
    case OnDay(d) => FormatDate(d)
    case AtMinute(t) => FormatMinute(t)
  }

  /** Every date the intent holds can be written with `strftime`. */
  predicate Renderable(i: Intent) {
    && (i.exactTime.Some? ==> ExactTimeOk(i.exactTime.value))
    && (i.timeRange.Some? ==> IsPyDate(i.timeRange.value.start) && IsPyDate(i.timeRange.value.end))
  }

  /** The routing test `' ' in exact_time and ':' in exact_time`. */
  predicate NamesMoment(text: string) {
    Contains(text, " ") && Contains(text, ":")
  }

  /** The routing test tells the two kinds of `exact_time` apart exactly. */
  lemma NamesMomentIffMinute(e: ExactTime)
    requires ExactTimeOk(e)
    ensures NamesMoment(ExactTimeText(e)) <==> e.AtMinute?
  {
    var s := ExactTimeText(e);
    ContainsChar(s, ' ');
    ContainsChar(s, ':');
    match e
    case OnDay(d) =>
      var y, m, dd := Pad(d.year, 4), Pad(d.month, 2), Pad(d.day, 2);
      assert s == y + "-" + m + "-" + dd;
      forall i | 0 <= i < |s| ensures s[i] != ' ' {
        if i < 4 { assert s[i] == y[i]; }
        else if 5 <= i < 7 { assert s[i] == m[i - 5]; }
        else if 8 <= i { assert s[i] == dd[i - 8]; }
      }
    case AtMinute(t) =>
      assert s[10] == ' ' && s[13] == ':';
  }
}
