/**
 * `IntentParser.parse_intent`: the stand-alone resolver. Rules in order:
 * ticker, category, absolute dates (return), the first relative keyword of
 * `RELATIVE_TIME_MAP` (return), "N ngày qua" (no return), the 7-day trend
 * default, "N giờ trước" and "N phút trước" (return), tomorrow and next week
 * (return), and the day-and-time phrase.
 */
module IntentParser {
  import opened Wrappers
  import opened Text
  import opened Calendar
  import opened Patterns
  import opened Intents

  const TrendKeywords: seq<string> := ["xu hướng", "trend", "phân tích", "analyze"]

  datatype RelativeOffset = Days(n: int) | InPeriod(p: Period) | ThisYear | LastYear

  /** `RELATIVE_TIME_MAP` in insertion order. */
  const RelativeTimeMap: seq<(string, RelativeOffset)> := [
    ("hôm nay", Days(0)), ("today", Days(0)), ("hôm qua", Days(-1)), ("yesterday", Days(-1)),
    ("hôm kia", Days(-2)), ("tuần này", InPeriod(ThisWeek)), ("tuần trước", InPeriod(LastWeek)),
    ("tháng này", InPeriod(ThisMonth)), ("tháng trước", InPeriod(LastMonth)), ("năm nay", ThisYear), ("năm ngoái", LastYear)]

  /** The three date patterns in the order they are tried. */
  const DatePatterns: seq<DatePattern> := [IsoDate, SlashDmy, DashDmy]

  /**
   * The `strptime` format each pattern's match is read with: its own field
   * order and separator (`%Y-%m-%d`, `%d/%m/%Y`, `%d-%m-%Y`).
   */
  function FormatFor(pat: DatePattern): DateFormat {
    match pat
    case IsoDate => YmdDash
    case SlashDmy => DmySlash
    case DashDmy => DmyDash
  }

  /**
   * The format as the loop writes it: only a pattern that starts with four
   * digits and has a '-' gets `%Y-%m-%d`; every other pattern gets `%d/%m/%Y`.
   */
  function FormatAsWritten(pat: DatePattern): DateFormat {
    if pat == IsoDate then YmdDash else DmySlash
  }

  /** The date of the first pattern, from index `k` on, whose leftmost match parses. */
  function FirstDate(msg: string, k: nat): (r: Option<Date>)
    requires k <= |DatePatterns|
    ensures r.Some? ==> IsPyDate(r.value)
    decreases |DatePatterns| - k
  {
    if k == |DatePatterns| then None
    else match SearchDateText(DatePatterns[k], msg, 0)
      case Some(text) =>
        (match Strptime(FormatFor(DatePatterns[k]), text)
         case Some(d) => Some(d)
         case None => FirstDate(msg, k + 1))
      case None => FirstDate(msg, k + 1)
  }

  /** `FirstDate` with the formats as the loop writes them. */
  function FirstDateAsWritten(msg: string, k: nat): (r: Option<Date>)
    requires k <= |DatePatterns|
    ensures r.Some? ==> IsPyDate(r.value)
    decreases |DatePatterns| - k
  {
    if k == |DatePatterns| then None
    else match SearchDateText(DatePatterns[k], msg, 0)
      case Some(text) =>
        (match Strptime(FormatAsWritten(DatePatterns[k]), text)
         case Some(d) => Some(d)
         case None => FirstDateAsWritten(msg, k + 1))
      case None => FirstDateAsWritten(msg, k + 1)
  }

  /** The offset of the first key of `RELATIVE_TIME_MAP`, from index `k` on, that occurs in the text. */
  function FirstRelative(lower: string, k: nat): (r: Option<RelativeOffset>)
    requires k <= |RelativeTimeMap|
    ensures r.Some? <==> exists j :: k <= j < |RelativeTimeMap| && Contains(lower, RelativeTimeMap[j].0)
    ensures r.Some? ==> exists j :: (k <= j < |RelativeTimeMap| && Contains(lower, RelativeTimeMap[j].0)
      && r.value == RelativeTimeMap[j].1
      && forall i :: k <= i < j ==> !Contains(lower, RelativeTimeMap[i].0))
    decreases |RelativeTimeMap| - k
  {
    if k == |RelativeTimeMap| then None
    else if Contains(lower, RelativeTimeMap[k].0) then Some(RelativeTimeMap[k].1)
    else FirstRelative(lower, k + 1)
  }

  /** The fields one relative keyword sets. */
  function ApplyRelative(i: Intent, off: RelativeOffset, now: DateTime): (r: Intent)
    requires ValidClock(now)
    requires off.Days? ==> -2 <= off.n <= 0
    ensures r.kind == i.kind && r.ticker == i.ticker && r.structured == i.structured && r.vectorSearch == i.vectorSearch
  {
    var today := now.date;
    match off
    case Days(n) => i.(exactTime := Some(OnDay(AddDays(today, n))))
    case InPeriod(p) => i.(timeRange := Some(PeriodRange(p, today)))
    case ThisYear => i
    case LastYear => i
  }

  lemma RelativeMapOffsets()
    ensures forall j :: 0 <= j < |RelativeTimeMap| && RelativeTimeMap[j].1.Days? ==> -2 <= RelativeTimeMap[j].1.n <= 0
  {
  }

  /** `now - timedelta(minutes=m)` as the `exact_time` of the hour and minute rules. */
  function AgoRule(i: Intent, now: DateTime, minutes: nat): (r: Resolution)
    requires ValidClock(now)
  {
    var t := MinusMinutes(now, minutes);
    if t.date.year < MinYear then Overflow
    else Resolved(i.(exactTime := Some(AtMinute(t)), structured := true))
  }

  /** The rules after "N ngày qua" and the trend default: hours, minutes, tomorrow, next week, day and time. */
  function LaterRules(i: Intent, lower: string, now: DateTime): Resolution
    requires ValidClock(now)
  {
    match SearchAgo(lower, HourUnits, 0)
    case Some(h) => AgoRule(i, now, 60 * h)
    case None =>
      match SearchAgo(lower, MinuteUnits, 0)
      case Some(m) => AgoRule(i, now, m)
      case None => Resolved(FutureRules(i, lower, now))
  }

  /** Tomorrow, next week, then the day-and-time phrase; none of them raises. */
  function FutureRules(i: Intent, lower: string, now: DateTime): Intent
    requires ValidClock(now)
  {
    if Contains(lower, "ngày mai") || Contains(lower, "tomorrow") then
      i.(exactTime := Some(OnDay(AddDays(now.date, 1))))
    else if Contains(lower, "tuần sau") || Contains(lower, "next week") then
      i.(timeRange := Some(NextWeekOf(now.date)))
    else DayTimeRule(i, lower, now)
  }

  /** `now + timedelta(days=7 - now.weekday())` and six days later: next week's Monday to Sunday. */
  function NextWeekOf(today: Date): (w: DayRange)
    requires Valid(today)
    ensures Valid(w.start) && Valid(w.end)
  {
    var start := AddDays(today, 7 - Weekday(today));
    DayRange(start, AddDays(start, 6))
  }

  /** The day-and-time phrase: a moment when its groups name one, and no change otherwise. */
  function DayTimeRule(i: Intent, lower: string, now: DateTime): Intent
    requires ValidClock(now)
  {
    match SearchDayTime(lower, 0)
    case Some(m) =>
      (match DayTimeValue(m, now.date.year)
       case Some(t) => i.(exactTime := Some(AtMinute(t)), structured := true)
       case None => i)
    case None => i
  }

  /** "N ngày qua" (range and structured flag, no return), then the trend default, then the later rules. */
  function RangeRules(i: Intent, lower: string, now: DateTime): Resolution
    requires ValidClock(now)
  {
    LastDaysRule(i, lower, now, SearchLastDays(lower, 0))
  }

  /** The "N ngày qua" rule given what its pattern matched. */
  function LastDaysRule(i: Intent, lower: string, now: DateTime, days: Option<nat>): Resolution
    requires ValidClock(now)
  {
    match days
    case Some(n) =>
      if AddDays(now.date, -(n as int)).year < MinYear then Overflow
      else TrendDefault(i.(timeRange := Some(RecentDays(now, n)), structured := true), lower, now)
    case None => TrendDefault(i, lower, now)
  }

  /** The 7-day default of the trend type overwrites any range, then the later rules run. */
  function TrendDefault(i: Intent, lower: string, now: DateTime): Resolution
    requires ValidClock(now)
  {
    var i2 := if i.kind == TrendAnalysis then i.(timeRange := Some(RecentDays(now, 7))) else i;
    LaterRules(i2, lower, now)
  }

  /** What `parse_intent(msg)` returns when `datetime.now()` is `now`. */
  function Resolve(msg: string, now: DateTime): Resolution
    requires ValidClock(now)
  {
    var lower := Lower(msg);
    var base := Classify(lower, TrendKeywords);
    match FirstDateAsWritten(msg, 0)
    case Some(d) => Resolved(base.(exactTime := Some(OnDay(d))))
    case None =>
      match FirstRelative(lower, 0)
      case Some(off) =>
        RelativeMapOffsets();
        Resolved(ApplyRelative(base, off, now))
      case None => RangeRules(base, lower, now)
  }

  /**
   * The loop over the date patterns: the first leftmost match that `strptime`
   * accepts, with the formats as the loop writes them.
   */
  method FindDate(msg: string) returns (date: Option<Date>)
    ensures date == FirstDateAsWritten(msg, 0)
  {
    for k := 0 to |DatePatterns|
      invariant FirstDateAsWritten(msg, 0) == FirstDateAsWritten(msg, k)
    {
      var pat := DatePatterns[k];
      var m := SearchDateText(pat, msg, 0);
      if m.Some? {
        date := Strptime(FormatAsWritten(pat), m.value);
        if date.Some? {
          return;
        }
      }
    }
    return None;
  }

  /** The first writes of `parse_intent`: the ticker, then the query type and the two flags. */
  method ClassifyMessage(lower: string) returns (intent: Intent)
    ensures intent == Classify(lower, TrendKeywords)
  {
    intent := DefaultIntent;
    var ticker := SearchTicker(lower, 0);
    if ticker.Some? {
      intent := intent.(ticker := ticker.value + "USDT");
    }
    if ContainsAny(lower, PriceKeywords) {
      intent := intent.(kind := PriceQuery, structured := true);
    } else if ContainsAny(lower, TrendKeywords) {
      intent := intent.(kind := TrendAnalysis, structured := true, vectorSearch := true);
    } else if ContainsAny(lower, NewsKeywords) {
      intent := intent.(kind := NewsSummary, vectorSearch := true);
    }
  }

  /** `parse_intent`: field writes on one record, loops over the patterns and the map, early returns. */
  method ParseIntent(msg: string, now: DateTime) returns (r: Resolution)
    requires ValidClock(now)
    ensures r == Resolve(msg, now)
  {
    var lower := Lower(msg);
    var intent := ClassifyMessage(lower);
    var date := FindDate(msg);
    if date.Some? {
      intent := intent.(exactTime := Some(OnDay(date.value)));
      return Resolved(intent);
    }

    var offset := FindRelative(lower);
    if offset.Some? {
      RelativeMapOffsets();
      intent := ApplyRelative(intent, offset.value, now);
      return Resolved(intent);
    }
    r := ApplyRangeRules(intent, lower, now);
  }

  /** The loop over `RELATIVE_TIME_MAP`: the offset of the first key, in the map's order, that occurs in the text. */
  method FindRelative(lower: string) returns (offset: Option<RelativeOffset>)
    ensures offset == FirstRelative(lower, 0)
  {
    for k := 0 to |RelativeTimeMap|
      invariant FirstRelative(lower, 0) == FirstRelative(lower, k)
    {
      var (keyword, off) := RelativeTimeMap[k];
      if Contains(lower, keyword) {
        return Some(off);
      }
    }
    return None;
  }

  /** The part of `parse_intent` from the "N ngày qua" rule on. */
  method ApplyRangeRules(i: Intent, lower: string, now: DateTime) returns (r: Resolution)
    requires ValidClock(now)
    ensures r == RangeRules(i, lower, now)
  {
    var intent := i;
    var days := SearchLastDays(lower, 0);
    if days.Some? {
      var start := AddDays(now.date, -(days.value as int));
      if start.year < MinYear {
        return Overflow;
      }
      intent := intent.(timeRange := Some(RecentDays(now, days.value)), structured := true);
    }
    assert LastDaysRule(i, lower, now, days) == TrendDefault(intent, lower, now);
    if intent.kind == TrendAnalysis {
      intent := intent.(timeRange := Some(RecentDays(now, 7)));
    }
    assert LastDaysRule(i, lower, now, days) == LaterRules(intent, lower, now);
    r := ApplyLaterRules(intent, lower, now);
  }

  /** The part of `parse_intent` from the "N giờ trước" rule on. */
  method ApplyLaterRules(i: Intent, lower: string, now: DateTime) returns (r: Resolution)
    requires ValidClock(now)
    ensures r == LaterRules(i, lower, now)
  {
    var intent := i;
    var hours := SearchAgo(lower, HourUnits, 0);
    if hours.Some? {
      r := AgoRule(intent, now, 60 * hours.value);
      return;
    }
    var minutes := SearchAgo(lower, MinuteUnits, 0);
    if minutes.Some? {
      r := AgoRule(intent, now, minutes.value);
      return;
    }

    intent := ApplyFutureRules(intent, lower, now);
    r := Resolved(intent);
  }

  /** Tomorrow, next week, then the day-and-time phrase, in the order `parse_intent` tries them. */
  method ApplyFutureRules(i: Intent, lower: string, now: DateTime) returns (r: Intent)
    requires ValidClock(now)
    ensures r == FutureRules(i, lower, now)
  {
    r := i;
    if Contains(lower, "ngày mai") || Contains(lower, "tomorrow") {
      r := r.(exactTime := Some(OnDay(AddDays(now.date, 1))));
      return;
    }
    if Contains(lower, "tuần sau") || Contains(lower, "next week") {
      r := r.(timeRange := Some(NextWeekOf(now.date)));
      return;
    }
    var m := SearchDayTime(lower, 0);
    if m.Some? {
      var t := DayTimeValue(m.value, now.date.year);
      if t.Some? {
        r := r.(exactTime := Some(AtMinute(t.value)), structured := true);
      }
    }
    assert r == DayTimeRule(i, lower, now);
  }

  // ---------------------------------------------------------------------------
  // Absolute dates

  /** Pattern `k`'s leftmost match names a date that exists. */
  predicate Parsable(msg: string, k: nat)
    requires k < |DatePatterns|
  {
    var m := SearchDateText(DatePatterns[k], msg, 0);
    m.Some? && IsPyDate(PatternDate(DatePatterns[k], m.value))
  }

  /** Each match is read with the format of its own shape: the date its digit groups name, when that date exists. */
  lemma FormatReadsMatch(pat: DatePattern, t: string)
    requires DateShape(pat, t)
    ensures Strptime(FormatFor(pat), t) == if IsPyDate(PatternDate(pat, t)) then Some(PatternDate(pat, t)) else None
  {
  }

  /** As written, the dash pattern's match goes to `%d/%m/%Y`, which it never fits. */
  lemma AsWrittenDashNeverParses(t: string)
    requires DateShape(DashDmy, t)
    ensures Strptime(FormatAsWritten(DashDmy), t) == None
  {
  }

  /**
   * The date step finds the first pattern whose leftmost match names a date
   * that exists; only the leftmost match of each pattern is tried.
   */
  lemma {:induction false} FirstDateIsFirstParsable(msg: string, k: nat)
    requires k <= |DatePatterns|
    ensures FirstDate(msg, k).Some? <==> exists j :: k <= j < |DatePatterns| && Parsable(msg, j)
    ensures FirstDate(msg, k).Some? ==> exists j :: (k <= j < |DatePatterns| && Parsable(msg, j)
      && FirstDate(msg, k).value == PatternDate(DatePatterns[j], SearchDateText(DatePatterns[j], msg, 0).value)
      && forall i :: k <= i < j ==> !Parsable(msg, i))
    decreases |DatePatterns| - k
  {
    if k < |DatePatterns| {
      FirstDateStep(msg, k);
      FirstDateIsFirstParsable(msg, k + 1);
      if !Parsable(msg, k) {
        assert (exists j :: k <= j < |DatePatterns| && Parsable(msg, j)) ==>
          exists j :: k + 1 <= j < |DatePatterns| && Parsable(msg, j);
      }
    }
  }

  /** One pattern of the loop: its match is taken when it names a date, and the next pattern is tried otherwise. */
  lemma FirstDateStep(msg: string, k: nat)
    requires k < |DatePatterns|
    ensures Parsable(msg, k) ==>
      FirstDate(msg, k) == Some(PatternDate(DatePatterns[k], SearchDateText(DatePatterns[k], msg, 0).value))
    ensures !Parsable(msg, k) ==> FirstDate(msg, k) == FirstDate(msg, k + 1)
  {
    var m := SearchDateText(DatePatterns[k], msg, 0);
    if m.Some? {
      FormatReadsMatch(DatePatterns[k], m.value);
    }
  }

  /** The `exact_time` text of a parsed date: an ISO match itself, a day-first match with its fields reordered. */
  lemma MatchedDateText(pat: DatePattern, t: string)
    requires DateShape(pat, t) && IsPyDate(PatternDate(pat, t))
    ensures FormatDate(PatternDate(pat, t)) == if pat == IsoDate then t else t[6..10] + "-" + t[3..5] + "-" + t[0..2]
  {
    if pat == IsoDate {
      FormatReadsMatch(pat, t);
      FormatParseDate(t);
    } else {
      PadDigits(t[6..10]);
      PadDigits(t[3..5]);
      PadDigits(t[0..2]);
    }
  }

  /** As written, the date loop never gets a date from the dash pattern. */
  lemma AsWrittenSkipsDash(msg: string)
    ensures FirstDateAsWritten(msg, 2) == None
  {
    var m := SearchDateText(DashDmy, msg, 0);
    if m.Some? {
      AsWrittenDashNeverParses(m.value);
    }
  }

  /**
   * A message whose only date is written day-first with dashes resolves as if
   * it had no date: the keyword and range rules decide.
   */
  lemma DashOnlyMeansNoDate(msg: string)
    requires SearchDateText(IsoDate, msg, 0).None? && SearchDateText(SlashDmy, msg, 0).None?
    ensures FirstDateAsWritten(msg, 0).None?
  {
    AsWrittenSkipsDash(msg);
    assert FirstDateAsWritten(msg, 0) == FirstDateAsWritten(msg, 1) == FirstDateAsWritten(msg, 2);
  }

  /** Where the loop as written finds a date, the corrected loop finds the same one. */
  lemma AsWrittenAgrees(msg: string)
    ensures FirstDateAsWritten(msg, 0).Some? ==> FirstDate(msg, 0) == FirstDateAsWritten(msg, 0)
  {
    AsWrittenSkipsDash(msg);
  }

  /** The three searches on "15-01-2024": only the dash pattern matches, the whole text. */
  lemma DashExampleSearches()
    ensures SearchDateText(IsoDate, "15-01-2024", 0) == None
    ensures SearchDateText(SlashDmy, "15-01-2024", 0) == None
    ensures SearchDateText(DashDmy, "15-01-2024", 0) == Some("15-01-2024")
  {
    var s := "15-01-2024";
    assert s[0..10] == s;
    assert SearchDateText(IsoDate, s, 0) == None by {
      SearchDateTextLeftmost(IsoDate, s, 0);
      assert !IsDateShape(s) by { assert s[4] == '1'; }
    }
    assert SearchDateText(SlashDmy, s, 0) == None by {
      SearchDateTextLeftmost(SlashDmy, s, 0);
      assert s[2] == '-';
    }
    assert s[0..2] == "15" && s[3..5] == "01" && s[6..10] == "2024";
    assert DmyDigits(s);
  }

  /** "15-01-2024": no date as written; 15 January 2024 as intended. */
  lemma DashDateExample()
    ensures FirstDateAsWritten("15-01-2024", 0) == None
    ensures FirstDate("15-01-2024", 0) == Some(Date(2024, 1, 15))
  {
    var s := "15-01-2024";
    DashExampleSearches();
    AsWrittenSkipsDash(s);
    DashExampleFields();
    assert DmyDate(s) == Some(Date(2024, 1, 15));
  }

  lemma DashExampleFields()
    ensures DmyDigits("15-01-2024")
    ensures var s := "15-01-2024"; DigitsValue(s[6..10]) == 2024 && DigitsValue(s[3..5]) == 1 && DigitsValue(s[0..2]) == 15
  {
    var s := "15-01-2024";
    assert s[0..2] == "15" && s[3..5] == "01" && s[6..10] == "2024";
    assert "15"[..1] == "1" && "01"[..1] == "0";
    assert "2024"[..3] == "202" && "202"[..2] == "20" && "20"[..1] == "2";
  }

  // ---------------------------------------------------------------------------
  // Ticker and category

  lemma LaterRulesKeepClass(i: Intent, lower: string, now: DateTime)
    requires ValidClock(now)
    ensures KeepsClass(i, LaterRules(i, lower, now))
  {
  }

  lemma RangeRulesKeepClass(i: Intent, lower: string, now: DateTime)
    requires ValidClock(now)
    ensures KeepsClass(i, RangeRules(i, lower, now))
  {
    var j := match SearchLastDays(lower, 0)
      case Some(n) => i.(timeRange := Some(RecentDays(now, n)), structured := true)
      case None => i;
    var k := if j.kind == TrendAnalysis then j.(timeRange := Some(RecentDays(now, 7))) else j;
    LaterRulesKeepClass(k, lower, now);
  }

  /**
   * The type of a resolved intent is decided by the keywords alone, price
   * before trend before news; price and trend queries ask for structured data
   * and every intent asks for the vector search.
   */
  lemma ResolvedCategory(msg: string, now: DateTime)
    requires ValidClock(now)
    ensures var lower := Lower(msg); var r := Resolve(msg, now);
      r.Resolved? ==>
        && (r.intent.kind == PriceQuery <==> ContainsAny(lower, PriceKeywords))
        && (r.intent.kind == TrendAnalysis <==> !ContainsAny(lower, PriceKeywords) && ContainsAny(lower, TrendKeywords))
        && (r.intent.kind == NewsSummary <==>
              !ContainsAny(lower, PriceKeywords) && !ContainsAny(lower, TrendKeywords) && ContainsAny(lower, NewsKeywords))
        && (r.intent.kind == PriceQuery || r.intent.kind == TrendAnalysis ==> r.intent.structured)
        && r.intent.vectorSearch
  {
    RangeRulesKeepClass(Classify(Lower(msg), TrendKeywords), Lower(msg), now);
  }

  /**
   * The ticker of a resolved intent: the leftmost listed symbol in the lowered
   * message, upper-cased with "USDT" appended, and "BTCUSDT" when there is none.
   */
  lemma ResolvedTicker(msg: string, now: DateTime)
    requires ValidClock(now)
    ensures var lower := Lower(msg); var r := Resolve(msg, now);
      r.Resolved? ==>
        && ((forall p :: 0 <= p <= |lower| ==> TickerAt(lower, p).None?) ==> r.intent.ticker == DefaultTicker)
        && ((exists p :: 0 <= p <= |lower| && TickerAt(lower, p).Some?) ==>
              exists p :: (0 <= p <= |lower| && TickerAt(lower, p).Some? && r.intent.ticker == TickerAt(lower, p).value + "USDT"
                && forall q :: 0 <= q < p ==> TickerAt(lower, q).None?))
  {
    var lower := Lower(msg);
    RangeRulesKeepClass(Classify(lower, TrendKeywords), lower, now);
    assert Resolve(msg, now).Resolved? ==> Resolve(msg, now).intent.ticker == TickerOf(lower);
    TickerOfLeftmost(lower);
  }

  /** No cue of any rule occurs in the message. */
  predicate NoCue(msg: string) {
    var lower := Lower(msg);
    && SearchTicker(lower, 0).None?
    && !ContainsAny(lower, PriceKeywords) && !ContainsAny(lower, TrendKeywords) && !ContainsAny(lower, NewsKeywords)
    && (forall pat :: SearchDateText(pat, msg, 0).None?)
    && (forall j :: 0 <= j < |RelativeTimeMap| ==> !Contains(lower, RelativeTimeMap[j].0))
    && SearchLastDays(lower, 0).None?
    && SearchAgo(lower, HourUnits, 0).None? && SearchAgo(lower, MinuteUnits, 0).None?
    && !Contains(lower, "ngày mai") && !Contains(lower, "tomorrow")
    && !Contains(lower, "tuần sau") && !Contains(lower, "next week")
    && SearchDayTime(lower, 0).None?
  }

  /** A message without any cue gets the default record. */
  lemma DefaultWhenNoCue(msg: string, now: DateTime)
    requires ValidClock(now) && NoCue(msg)
    ensures Resolve(msg, now) == Resolved(DefaultIntent)
  {
    var lower := Lower(msg);
    assert SearchDateText(DatePatterns[0], msg, 0).None?;
    assert SearchDateText(DatePatterns[1], msg, 0).None?;
    assert SearchDateText(DatePatterns[2], msg, 0).None?;
    assert FirstRelative(lower, 0).None?;
  }

  // ---------------------------------------------------------------------------
  // Relative keywords

  /**
   * With no absolute date, the first key of the map that occurs decides the
   * time fields and the result: no later rule runs.
   */
  lemma FirstKeywordDecides(msg: string, now: DateTime, j: nat)
    requires ValidClock(now) && FirstDateAsWritten(msg, 0).None?
    requires j < |RelativeTimeMap| && Contains(Lower(msg), RelativeTimeMap[j].0)
    requires forall i :: 0 <= i < j ==> !Contains(Lower(msg), RelativeTimeMap[i].0)
    ensures RelativeTimeMap[j].1.Days? ==> -2 <= RelativeTimeMap[j].1.n <= 0
    ensures Resolve(msg, now) == Resolved(ApplyRelative(Classify(Lower(msg), TrendKeywords), RelativeTimeMap[j].1, now))
  {
    var lower := Lower(msg);
    RelativeMapOffsets();
    var off := FirstRelative(lower, 0);
    var j' :| 0 <= j' < |RelativeTimeMap| && Contains(lower, RelativeTimeMap[j'].0) && off.value == RelativeTimeMap[j'].1
      && forall i :: 0 <= i < j' ==> !Contains(lower, RelativeTimeMap[i].0);
    assert j' == j;
    ResolveWhenRelative(msg, now);
  }

  /** With no absolute date and some key of the map present, the relative step ends the resolution. */
  lemma ResolveWhenRelative(msg: string, now: DateTime)
    requires ValidClock(now) && FirstDateAsWritten(msg, 0).None? && FirstRelative(Lower(msg), 0).Some?
    ensures RelativeTimeMap[0].1.Days? && (FirstRelative(Lower(msg), 0).value.Days? ==> -2 <= FirstRelative(Lower(msg), 0).value.n <= 0)
    ensures Resolve(msg, now) == Resolved(ApplyRelative(Classify(Lower(msg), TrendKeywords), FirstRelative(Lower(msg), 0).value, now))
  {
    RelativeMapOffsets();
  }

  /** "hôm nay", "hôm qua", "hôm kia": the day `n` days from today, and no range. */
  lemma DayKeyword(i: Intent, n: int, now: DateTime)
    requires ValidClock(now) && -2 <= n <= 0
    ensures var r := ApplyRelative(i, Days(n), now);
      && r.timeRange == i.timeRange && r.exactTime.Some? && r.exactTime.value.OnDay?
      && Ordinal(r.exactTime.value.date) == Ordinal(now.date) + n
  {
    OrdinalAddDays(now.date, n);
  }

  /** "năm nay" and "năm ngoái" end the resolution with no time at all, whatever else the message says. */
  lemma YearKeywordsSetNoTime(msg: string, now: DateTime)
    requires ValidClock(now) && FirstDateAsWritten(msg, 0).None?
    requires FirstRelative(Lower(msg), 0) == Some(ThisYear) || FirstRelative(Lower(msg), 0) == Some(LastYear)
    ensures Resolve(msg, now) == Resolved(Classify(Lower(msg), TrendKeywords))
  {
    var base := Classify(Lower(msg), TrendKeywords);
    ResolveWhenRelative(msg, now);
    assert ApplyRelative(base, FirstRelative(Lower(msg), 0).value, now) == base;
  }

  // ---------------------------------------------------------------------------
  // Ranges, moments and the later rules

  /** "N ngày qua" raises when N days back passes 0001-01-01. */
  lemma LastDaysOverflow(i: Intent, lower: string, now: DateTime, n: nat)
    requires ValidClock(now)
    requires Ordinal(now.date) <= n
    ensures LastDaysRule(i, lower, now, Some(n)) == Overflow
  {
    OrdinalAddDays(now.date, -(n as int));
    OrdinalPositive(AddDays(now.date, -(n as int)));
  }

  /**
   * Otherwise it sets an N-day range ending today and the structured flag,
   * and a trend query replaces the range by 7 days.
   */
  lemma LastDaysThenTrend(i: Intent, lower: string, now: DateTime, n: nat)
    requires ValidClock(now) && Ordinal(now.date) > n
    ensures var days := if i.kind == TrendAnalysis then 7 else n;
      LastDaysRule(i, lower, now, Some(n)) == LaterRules(i.(timeRange := Some(RecentDays(now, days)), structured := true), lower, now)
  {
    LastDaysInRange(i, lower, now, n);
    var k := i.(timeRange := Some(RecentDays(now, n)), structured := true);
    if i.kind == TrendAnalysis {
      assert k.(timeRange := Some(RecentDays(now, 7))) == i.(timeRange := Some(RecentDays(now, 7)), structured := true);
    }
  }

  lemma LastDaysInRange(i: Intent, lower: string, now: DateTime, n: nat)
    requires ValidClock(now) && Ordinal(now.date) > n
    ensures LastDaysRule(i, lower, now, Some(n)) == TrendDefault(i.(timeRange := Some(RecentDays(now, n)), structured := true), lower, now)
  {
    OrdinalAddDays(now.date, -(n as int));
    OrdinalPositive(AddDays(now.date, -(n as int)));
  }

  /**
   * `now - timedelta(minutes=n)` raises exactly when it falls before
   * 0001-01-01 00:00; otherwise `exact_time` is the moment `n` minutes
   * earlier and the structured flag is set.
   */
  lemma AgoRuleMoment(i: Intent, now: DateTime, n: nat)
    requires ValidClock(now)
    ensures var r := AgoRule(i, now, n);
      && (r.Overflow? <==> AbsSeconds(now) - 60 * n < 86400)
      && (r.Resolved? ==>
            && r.intent.exactTime.Some? && r.intent.exactTime.value.AtMinute?
            && IsPyDateTime(r.intent.exactTime.value.time)
            && AbsSeconds(r.intent.exactTime.value.time) == AbsSeconds(now) - 60 * n
            && r.intent == i.(exactTime := r.intent.exactTime, structured := true))
  {
    var t := MinusMinutes(now, n);
    MinusMinutesExact(now, n);
    OrdinalPositive(t.date);
    var o := Ordinal(t.date);
    assert o * 86400 <= AbsSeconds(t) < o * 86400 + 86400;
    if o >= 1 {
      assert AbsSeconds(t) >= 86400;
      var on := Ordinal(now.date);
      assert o * 86400 <= AbsSeconds(t) <= AbsSeconds(now) < on * 86400 + 86400;
      assert o <= on;
      YearsFollowOrdinals(t.date, now.date);
    } else {
      assert AbsSeconds(t) < 86400;
    }
  }

  /** "N giờ trước" wins over the minute phrase: the moment is N hours before now. */
  lemma HoursAgo(i: Intent, lower: string, now: DateTime)
    requires ValidClock(now) && SearchAgo(lower, HourUnits, 0).Some?
    ensures var h := SearchAgo(lower, HourUnits, 0).value; var r := LaterRules(i, lower, now);
      && (r.Overflow? <==> AbsSeconds(now) - 3600 * h < 86400)
      && (r.Resolved? ==>
            r.intent.exactTime.Some? && r.intent.exactTime.value.AtMinute?
            && AbsSeconds(r.intent.exactTime.value.time) == AbsSeconds(now) - 3600 * h && r.intent.structured)
  {
    AgoRuleMoment(i, now, 60 * SearchAgo(lower, HourUnits, 0).value);
  }

  /** "N phút trước", when no hour phrase occurs: the moment is N minutes before now. */
  lemma MinutesAgo(i: Intent, lower: string, now: DateTime)
    requires ValidClock(now) && SearchAgo(lower, HourUnits, 0).None? && SearchAgo(lower, MinuteUnits, 0).Some?
    ensures var m := SearchAgo(lower, MinuteUnits, 0).value; var r := LaterRules(i, lower, now);
      && (r.Overflow? <==> AbsSeconds(now) - 60 * m < 86400)
      && (r.Resolved? ==>
            r.intent.exactTime.Some? && r.intent.exactTime.value.AtMinute?
            && AbsSeconds(r.intent.exactTime.value.time) == AbsSeconds(now) - 60 * m && r.intent.structured)
  {
    AgoRuleMoment(i, now, SearchAgo(lower, MinuteUnits, 0).value);
  }

  /** Neither an hour nor a minute phrase occurs. */
  predicate NoAgo(lower: string) {
    SearchAgo(lower, HourUnits, 0).None? && SearchAgo(lower, MinuteUnits, 0).None?
  }

  /** "ngày mai": the day after today. */
  lemma Tomorrow(i: Intent, lower: string, now: DateTime)
    requires ValidClock(now)
    requires Contains(lower, "ngày mai") || Contains(lower, "tomorrow")
    ensures var r := FutureRules(i, lower, now);
      && r.exactTime.Some? && r.exactTime.value.OnDay?
      && Ordinal(r.exactTime.value.date) == Ordinal(now.date) + 1
      && r.timeRange == i.timeRange
  {
    OrdinalAddDays(now.date, 1);
  }

  /** "tuần sau": Monday to Sunday of the week after this one. */
  lemma NextWeek(i: Intent, lower: string, now: DateTime)
    requires ValidClock(now)
    requires !Contains(lower, "ngày mai") && !Contains(lower, "tomorrow")
    requires Contains(lower, "tuần sau") || Contains(lower, "next week")
    ensures var r := FutureRules(i, lower, now);
      && r.timeRange.Some? && r.exactTime == i.exactTime
      && var w := r.timeRange.value;
      && Weekday(w.start) == 0
      && Ordinal(w.start) == Ordinal(now.date) - Weekday(now.date) + 7
      && Ordinal(w.end) - Ordinal(w.start) == 6
  {
    NextWeekChosen(i, lower, now);
    NextWeekDays(now.date);
  }

  lemma NextWeekChosen(i: Intent, lower: string, now: DateTime)
    requires ValidClock(now)
    requires !Contains(lower, "ngày mai") && !Contains(lower, "tomorrow")
    requires Contains(lower, "tuần sau") || Contains(lower, "next week")
    ensures FutureRules(i, lower, now) == i.(timeRange := Some(NextWeekOf(now.date)))
  {
  }

  lemma NextWeekDays(today: Date)
    requires Valid(today)
    ensures var w := NextWeekOf(today);
      && Weekday(w.start) == 0
      && Ordinal(w.start) == Ordinal(today) - Weekday(today) + 7
      && Ordinal(w.end) - Ordinal(w.start) == 6
  {
    NextWeekStarts(today);
    NextWeekMonday(today);
    NextWeekSpan(today);
  }

  lemma NextWeekStarts(today: Date)
    requires Valid(today)
    ensures Ordinal(NextWeekOf(today).start) == Ordinal(today) - Weekday(today) + 7
  {
    OrdinalAddDays(today, 7 - Weekday(today));
  }

  lemma NextWeekMonday(today: Date)
    requires Valid(today)
    ensures Weekday(NextWeekOf(today).start) == 0
  {
    WeekStart(today, 1);
    assert NextWeekOf(today).start == AddDays(today, 7 * 1 - Weekday(today));
  }

  lemma NextWeekSpan(today: Date)
    requires Valid(today)
    ensures Ordinal(NextWeekOf(today).end) - Ordinal(NextWeekOf(today).start) == 6
  {
    OrdinalAddDays(NextWeekOf(today).start, 6);
  }

  /** The day-and-time phrase sets a real moment when its groups name one, and changes nothing otherwise. */
  lemma DayTimePhrase(i: Intent, lower: string, now: DateTime)
    requires ValidClock(now)
    ensures var r := DayTimeRule(i, lower, now); var m := SearchDayTime(lower, 0);
      && (m.None? || DayTimeValue(m.value, now.date.year).None? ==> r == i)
      && (m.Some? && DayTimeValue(m.value, now.date.year).Some? ==>
            && r.exactTime == Some(AtMinute(DayTimeValue(m.value, now.date.year).value))
            && IsPyDateTime(r.exactTime.value.time) && r.structured && r.timeRange == i.timeRange)
  {
  }

  // ---------------------------------------------------------------------------
  // Every date the resolver writes can be formatted

  lemma RelativeRenderable(i: Intent, off: RelativeOffset, now: DateTime)
    requires ValidClock(now) && Renderable(i)
    requires off.Days? ==> -2 <= off.n <= 0
    ensures Renderable(ApplyRelative(i, off, now))
  {
    match off
    case Days(n) => NearToday(now, n);
    case InPeriod(p) => PeriodRenderable(p, now);
    case ThisYear =>
    case LastYear =>
  }

  lemma FutureRulesRenderable(i: Intent, lower: string, now: DateTime)
    requires ValidClock(now) && Renderable(i)
    ensures Renderable(FutureRules(i, lower, now))
  {
    if Contains(lower, "ngày mai") || Contains(lower, "tomorrow") {
      NearToday(now, 1);
    } else if Contains(lower, "tuần sau") || Contains(lower, "next week") {
      var w := NextWeekOf(now.date);
      NextWeekRenderable(now);
      RangeKeepsRenderable(i, w);
      assert FutureRules(i, lower, now) == i.(timeRange := Some(w));
    } else {
      assert FutureRules(i, lower, now) == DayTimeRule(i, lower, now);
    }
  }

  lemma NextWeekRenderable(now: DateTime)
    requires ValidClock(now)
    ensures IsPyDate(NextWeekOf(now.date).start) && IsPyDate(NextWeekOf(now.date).end)
  {
    WeekNearToday(now, 7 - Weekday(now.date));
  }

  lemma RangeKeepsRenderable(i: Intent, w: DayRange)
    requires Renderable(i) && IsPyDate(w.start) && IsPyDate(w.end)
    ensures Renderable(i.(timeRange := Some(w)))
  {
  }

  lemma LaterRulesRenderable(i: Intent, lower: string, now: DateTime)
    requires ValidClock(now) && Renderable(i)
    ensures var r := LaterRules(i, lower, now); r.Resolved? ==> Renderable(r.intent)
  {
    match SearchAgo(lower, HourUnits, 0)
    case Some(h) => AgoRuleMoment(i, now, 60 * h);
    case None =>
      match SearchAgo(lower, MinuteUnits, 0)
      case Some(m) => AgoRuleMoment(i, now, m);
      case None => FutureRulesRenderable(i, lower, now);
  }

  lemma TrendDefaultRenderable(i: Intent, lower: string, now: DateTime)
    requires ValidClock(now) && Renderable(i)
    ensures var r := TrendDefault(i, lower, now); r.Resolved? ==> Renderable(r.intent)
  {
    NearToday(now, -7);
    var k := if i.kind == TrendAnalysis then i.(timeRange := Some(RecentDays(now, 7))) else i;
    LaterRulesRenderable(k, lower, now);
  }

  lemma LastDaysRuleRenderable(i: Intent, lower: string, now: DateTime, days: Option<nat>)
    requires ValidClock(now) && Renderable(i)
    ensures var r := LastDaysRule(i, lower, now, days); r.Resolved? ==> Renderable(r.intent)
  {
    match days
    case Some(n) =>
      if AddDays(now.date, -(n as int)).year >= MinYear {
        EarlierDayRenderable(now, n);
        TrendDefaultRenderable(i.(timeRange := Some(RecentDays(now, n)), structured := true), lower, now);
      }
    case None =>
      TrendDefaultRenderable(i, lower, now);
  }

  /** Every date of a resolved intent is one `strftime` can write: the resolver raises rather than leave the calendar. */
  lemma ResolvedRenderable(msg: string, now: DateTime)
    requires ValidClock(now)
    ensures var r := Resolve(msg, now); r.Resolved? ==> Renderable(r.intent)
  {
    var lower := Lower(msg);
    var base := Classify(lower, TrendKeywords);
    RelativeMapOffsets();
    match FirstRelative(lower, 0)
    case Some(off) => RelativeRenderable(base, off, now);
    case None => LastDaysRuleRenderable(base, lower, now, SearchLastDays(lower, 0));
  }
}
