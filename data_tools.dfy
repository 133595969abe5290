/**
 * `DataTools`: the four structured lookups over 5-minute candles and the two
 * helpers that turn a lookup's result into text. The database is not part of
 * the model: each lookup receives what its query returned (the candles, or
 * the text of the exception raised on the way) and shapes it into a result.
 * The Markdown text of a success (`formatted`) is presentation and is not
 * rendered.
 */
module DataTools {
  import opened Wrappers
  import opened Text
  import opened Calendar

  /** One row of `future_kline_5m`; prices and volumes after `pd.to_numeric`. */
  datatype Candle = Candle(openTime: int, open: real, high: real, low: real, close: real, volume: real)

  /** What the query inside the `try` produced: its rows, or the text of the exception raised. */
  datatype Fetch = Rows(rows: seq<Candle>) | Raised(error: string)

  /** `query_info`: the arguments echoed back with the lookup's name. */
  datatype QueryInfo =
    | ExactQuery(ticker: string, date: Date)
    | RangeQuery(ticker: string, startDate: Date, endDate: Date)
    | MomentQuery(ticker: string, at: DateTime)
    | OverviewQuery(ticker: string)

  /** The `data` of a success, one shape per lookup. */
  datatype Data =
    | DayData(ticker: string, date: Date, open: real, close: real, high: real, low: real, volume: real,
              changePct: real, candles: nat)
    | RangeData(ticker: string, startDate: Date, endDate: Date, daysCount: int, startPrice: real, endPrice: real,
                high: real, low: real, changePct: real, totalVolume: real, avgVolume: real, candles: nat)
    | MomentData(ticker: string, requested: DateTime, candleTime: DateTime, diffMinutes: nat,
                 open: real, close: real, high: real, low: real, volume: real)
    | OverviewData(ticker: string, currentPrice: real, change24h: real, high24h: real, low24h: real,
                   volume24h: real, lastUpdate: DateTime, candles: nat)

  /** The dict a lookup returns, by its `status`. */
  datatype LookupResult =
    | Found(data: Data)                                               // 'success'
    | NoData(message: string, suggestion: string, query: QueryInfo)   // 'no_data'
    | Failed(message: string, error: string, query: QueryInfo)        // 'error'

  /** `str(ZeroDivisionError)` for a float division. */
  const ZeroDivision: string := "float division by zero"

  // ---------------------------------------------------------------------------
  // Aggregates over a non-empty frame

  /** `df['high'].max()`. */
  function MaxHigh(cs: seq<Candle>): (m: real)
    requires |cs| > 0
    ensures forall i :: 0 <= i < |cs| ==> cs[i].high <= m
    ensures exists i :: 0 <= i < |cs| && cs[i].high == m
  {
    if |cs| == 1 then cs[0].high
    else
      var rest := MaxHigh(cs[1..]);
      assert forall i :: 1 <= i < |cs| ==> cs[i] == cs[1..][i - 1];
      if cs[0].high >= rest then cs[0].high else rest
  }

  /** `df['low'].min()`. */
  function MinLow(cs: seq<Candle>): (m: real)
    requires |cs| > 0
    ensures forall i :: 0 <= i < |cs| ==> m <= cs[i].low
    ensures exists i :: 0 <= i < |cs| && cs[i].low == m
  {
    if |cs| == 1 then cs[0].low
    else
      var rest := MinLow(cs[1..]);
      assert forall i :: 1 <= i < |cs| ==> cs[i] == cs[1..][i - 1];
      if cs[0].low <= rest then cs[0].low else rest
  }

  /** `df['volume'].sum()`. */
  function SumVolume(cs: seq<Candle>): real {
    if cs == [] then 0.0 else cs[0].volume + SumVolume(cs[1..])
  }

  /** The sum of non-negative volumes is at least each of them. */
  lemma {:induction false} SumVolumeBounds(cs: seq<Candle>)
    requires forall i :: 0 <= i < |cs| ==> cs[i].volume >= 0.0
    ensures SumVolume(cs) >= 0.0
    ensures forall i :: 0 <= i < |cs| ==> cs[i].volume <= SumVolume(cs)
  {
    if cs != [] {
      SumVolumeBounds(cs[1..]);
      assert forall i :: 1 <= i < |cs| ==> cs[i] == cs[1..][i - 1];
    }
  }

  /** `((later - base) / base) * 100`, defined when `base` is not zero. */
  function ChangePct(base: real, later: real): (p: real)
    requires base != 0.0
    ensures p * base == (later - base) * 100.0
    ensures base > 0.0 ==> (p > 0.0 <==> later > base) && (p == 0.0 <==> later == base)
  {
    (later - base) / base * 100.0
  }

  /** A candle whose high and low bound its open and close. */
  predicate Sane(c: Candle) {
    c.low <= c.open && c.low <= c.close && c.open <= c.high && c.close <= c.high
  }

  /** Over sane candles, the first open and the last close lie between the low and the high. */
  lemma ExtremesBound(cs: seq<Candle>)
    requires |cs| > 0 && forall i :: 0 <= i < |cs| ==> Sane(cs[i])
    ensures MinLow(cs) <= cs[0].open <= MaxHigh(cs)
    ensures MinLow(cs) <= cs[|cs| - 1].close <= MaxHigh(cs)
  {
    assert Sane(cs[0]) && Sane(cs[|cs| - 1]);
  }

  // ---------------------------------------------------------------------------
  // Query windows

  /** `get_exact_price`'s window: the date at 00:00:00 and at 23:59:59. */
  function DayWindow(d: Date): (w: (DateTime, DateTime))
    requires Valid(d)
    ensures w.0.date == d && w.1.date == d
    ensures AbsSeconds(w.1) - AbsSeconds(w.0) == 86399
    ensures ValidTimeOfDay(w.0.hour, w.0.minute, w.0.second) && ValidTimeOfDay(w.1.hour, w.1.minute, w.1.second)
  {
    (DateTime(d, 0, 0, 0), DateTime(d, 23, 59, 59))
  }

  /** `get_price_range`'s window: the start date at 00:00 and the end date at 23:59. */
  function RangeWindow(start: Date, end: Date): (DateTime, DateTime) {
    (DateTime(start, 0, 0, 0), DateTime(end, 23, 59, 0))
  }

  /** `(end_ts - start_ts).days + 1`: `timedelta.days` is the floor of the difference in days. */
  function DaysCount(start: Date, end: Date): (n: int)
    requires Valid(start) && Valid(end)
  {
    var w := RangeWindow(start, end);
    (AbsSeconds(w.1) - AbsSeconds(w.0)) / 86400 + 1
  }

  /** The day count is the number of calendar days from start to end, both included (negative when reversed). */
  lemma DaysCountInclusive(start: Date, end: Date)
    requires Valid(start) && Valid(end)
    ensures DaysCount(start, end) == Ordinal(end) - Ordinal(start) + 1
  {
    var k := Ordinal(end) - Ordinal(start);
    var w := RangeWindow(start, end);
    assert AbsSeconds(w.1) - AbsSeconds(w.0) == k * 86400 + 86340;
  }

  // ---------------------------------------------------------------------------
  // The four lookups

  /** `get_exact_price(ticker, date)` over the candles of the day's window. */
  function ExactPrice(ticker: string, date: Date, fetch: Fetch): (r: LookupResult)
    requires IsPyDate(date)
    ensures fetch.Raised? ==> r.Failed? && r.error == fetch.error && Contains(r.message, fetch.error)
    ensures r.NoData? <==> fetch == Rows([])
    ensures r.Found? <==> fetch.Rows? && |fetch.rows| > 0 && fetch.rows[0].open != 0.0
    ensures fetch.Rows? && |fetch.rows| > 0 && fetch.rows[0].open == 0.0 ==> r.Failed? && r.error == ZeroDivision
    ensures r.Failed? || r.NoData? ==> r.query == ExactQuery(ticker, date)
    ensures r.Found? ==> r.data == DayFigures(ticker, date, fetch.rows)
  {
    var q := ExactQuery(ticker, date);
    match fetch
    case Raised(e) => DbFailure("Lỗi truy vấn database: ", e, q)
    case Rows(cs) =>
      if cs == [] then
        NoData("Database không có dữ liệu cho " + ticker + " vào " + FormatDate(date),
               "Thử chọn ngày gần hơn hoặc ticker khác", q)
      else if cs[0].open == 0.0 then DbFailure("Lỗi truy vấn database: ", ZeroDivision, q)
      else Found(DayFigures(ticker, date, cs))
  }

  /** The `data` of `get_exact_price`: first open, last close, extremes, total volume and the change from the open. */
  function DayFigures(ticker: string, date: Date, cs: seq<Candle>): (d: Data)
    requires |cs| > 0 && cs[0].open != 0.0
    ensures d.DayData? && d.ticker == ticker && d.date == date
    ensures d.open == cs[0].open && d.close == cs[|cs| - 1].close
    ensures d.high == MaxHigh(cs) && d.low == MinLow(cs) && d.volume == SumVolume(cs)
    ensures d.changePct * d.open == (d.close - d.open) * 100.0
    ensures d.candles == |cs|
  {
    var open, close := cs[0].open, cs[|cs| - 1].close;
    DayData(ticker, date, open, close, MaxHigh(cs), MinLow(cs), SumVolume(cs), ChangePct(open, close), |cs|)
  }

  /** The `except` branch: the message is the lookup's prefix followed by the exception text. */
  function DbFailure(prefix: string, e: string, q: QueryInfo): (r: LookupResult)
    ensures r.Failed? && r.error == e && r.query == q && Contains(r.message, e)
  {
    ContainsMiddle(prefix, e, "");
    assert prefix + e + "" == prefix + e;
    Failed(prefix + e, e, q)
  }

  /** `get_price_range(ticker, start, end)` over the candles of the window. */
  function PriceRange(ticker: string, start: Date, end: Date, fetch: Fetch): (r: LookupResult)
    requires IsPyDate(start) && IsPyDate(end)
    ensures fetch.Raised? ==> r.Failed? && r.error == fetch.error && Contains(r.message, fetch.error)
    ensures r.NoData? <==> fetch == Rows([])
    ensures r.Found? <==>
      fetch.Rows? && |fetch.rows| > 0 && fetch.rows[0].open != 0.0 && MinLow(fetch.rows) != 0.0
    ensures r.Failed? || r.NoData? ==> r.query == RangeQuery(ticker, start, end)
    ensures r.Found? ==> r.data == RangeFigures(ticker, start, end, fetch.rows)
  {
    var q := RangeQuery(ticker, start, end);
    match fetch
    case Raised(e) => DbFailure("Lỗi truy vấn database: ", e, q)
    case Rows(cs) =>
      if cs == [] then
        NoData("Database không có dữ liệu cho " + ticker + " từ " + FormatDate(start) + " đến " + FormatDate(end),
               "Thử chọn khoảng thời gian gần hơn hoặc ticker khác", q)
      // the change and the amplitude `(high - low) / low` in the text divide Python floats
      else if cs[0].open == 0.0 || MinLow(cs) == 0.0 then DbFailure("Lỗi truy vấn database: ", ZeroDivision, q)
      else Found(RangeFigures(ticker, start, end, cs))
  }

  /** The `data` of `get_price_range`: the inclusive day count, first open, last close, extremes and volumes. */
  function RangeFigures(ticker: string, start: Date, end: Date, cs: seq<Candle>): (d: Data)
    requires Valid(start) && Valid(end) && |cs| > 0 && cs[0].open != 0.0
    ensures d.RangeData? && d.ticker == ticker && d.startDate == start && d.endDate == end
    ensures d.daysCount == Ordinal(end) - Ordinal(start) + 1
    ensures d.startPrice == cs[0].open && d.endPrice == cs[|cs| - 1].close
    ensures d.high == MaxHigh(cs) && d.low == MinLow(cs)
    ensures d.changePct * d.startPrice == (d.endPrice - d.startPrice) * 100.0
    ensures d.totalVolume == SumVolume(cs) && d.avgVolume * (|cs| as real) == d.totalVolume
    ensures d.candles == |cs|
  {
    var first, last := cs[0].open, cs[|cs| - 1].close;
    var total := SumVolume(cs);
    DaysCountInclusive(start, end);
    RangeData(ticker, start, end, DaysCount(start, end), first, last, MaxHigh(cs), MinLow(cs),
              ChangePct(first, last), total, total / (|cs| as real), |cs|)
  }

  /**
   * `SELECT … WHERE openTime <= ts ORDER BY openTime DESC LIMIT 1` over the
   * ticker's rows: the latest candle at or before `ts` (the first of equals).
   */
  function LatestAtOrBefore(rows: seq<Candle>, ts: int): (r: Option<Candle>)
    ensures r.None? <==> forall i :: 0 <= i < |rows| ==> rows[i].openTime > ts
    ensures r.Some? ==>
      r.value in rows && r.value.openTime <= ts && forall i :: 0 <= i < |rows| && rows[i].openTime <= ts ==> rows[i].openTime <= r.value.openTime
  {
    if rows == [] then None
    else
      var rest := LatestAtOrBefore(rows[1..], ts);
      assert forall i :: 1 <= i < |rows| ==> rows[i] == rows[1..][i - 1];
      if rows[0].openTime <= ts && (rest.None? || rest.value.openTime <= rows[0].openTime) then Some(rows[0])
      else rest
  }

  /**
   * `get_price_at_moment(ticker, at)`: `pd.Timestamp.timestamp()` reads the
   * naive time as UTC, and the distance to the candle is truncated to minutes.
   */
  function PriceAtMoment(ticker: string, at: DateTime, table: Fetch): (r: LookupResult)
    requires IsPyDateTime(at)
    ensures table.Raised? ==> r.Failed? && r.error == table.error && Contains(r.message, table.error)
    ensures r.NoData? <==> table.Rows? && LatestAtOrBefore(table.rows, NaiveMillis(at)).None?
    ensures r.Failed? || r.NoData? ==> r.query == MomentQuery(ticker, at)
    ensures r.Found? <==>
      table.Rows? && LatestAtOrBefore(table.rows, NaiveMillis(at)).Some?
      && LatestAtOrBefore(table.rows, NaiveMillis(at)).value.low != 0.0
    ensures (table.Rows? && LatestAtOrBefore(table.rows, NaiveMillis(at)).Some?
             && LatestAtOrBefore(table.rows, NaiveMillis(at)).value.low == 0.0) ==> r.Failed? && r.error == ZeroDivision
    ensures r.Found? ==> r.data == MomentFigures(ticker, at, LatestAtOrBefore(table.rows, NaiveMillis(at)).value)
  {
    var q := MomentQuery(ticker, at);
    match table
    case Raised(e) => DbFailure("Lỗi truy vấn thời điểm: ", e, q)
    case Rows(rows) =>
      match LatestAtOrBefore(rows, NaiveMillis(at))
      case None =>
        NoData("Database không có dữ liệu cho " + ticker + " tại thời điểm " + FormatMinute(at),
               "Thử chọn thời điểm gần hơn hoặc ticker khác", q)
      // the amplitude `(high - low) / low` in the text divides Python floats
      case Some(c) =>
        if c.low == 0.0 then DbFailure("Lỗi truy vấn thời điểm: ", ZeroDivision, q)
        else Found(MomentFigures(ticker, at, c))
  }

  /** The `data` of `get_price_at_moment`: the candle's prices, its time and its distance in whole minutes. */
  function MomentFigures(ticker: string, at: DateTime, c: Candle): (d: Data)
    requires Valid(at.date) && c.openTime <= NaiveMillis(at)
    ensures d.MomentData? && d.ticker == ticker && d.requested == at
    ensures Valid(d.candleTime.date) && NaiveMillis(d.candleTime) == c.openTime - c.openTime % 1000
    ensures d.diffMinutes * 60000 <= NaiveMillis(at) - c.openTime < (d.diffMinutes + 1) * 60000
    ensures d.open == c.open && d.close == c.close && d.high == c.high && d.low == c.low && d.volume == c.volume
  {
    FromMillisExact(c.openTime);
    var diff := NaiveMillis(at) - c.openTime;
    MomentData(ticker, at, FromMillis(c.openTime), diff / 60000, c.open, c.close, c.high, c.low, c.volume)
  }

  /** `get_latest_data(limit=288)`: 288 five-minute candles are 24 hours. */
  const OverviewLimit: nat := 288

  /**
   * `get_market_overview(ticker)` over the latest candles: the current price
   * is the last close and every change is measured from the first candle's
   * close. The last update is the last candle's open time.
   */
  function MarketOverview(ticker: string, fetch: Fetch): (r: LookupResult)
    ensures fetch.Raised? ==> r.Failed? && r.error == fetch.error && Contains(r.message, fetch.error)
    ensures r.NoData? <==> fetch == Rows([])
    ensures r.Found? <==>
      fetch.Rows? && |fetch.rows| > 0 && fetch.rows[0].close != 0.0 && MinLow(fetch.rows) != 0.0
    ensures r.Failed? || r.NoData? ==> r.query == OverviewQuery(ticker)
    ensures r.Found? ==> r.data == OverviewFigures(ticker, fetch.rows)
  {
    var q := OverviewQuery(ticker);
    match fetch
    case Raised(e) => DbFailure("Lỗi truy vấn market overview: ", e, q)
    case Rows(cs) =>
      if cs == [] then
        NoData("Database không có dữ liệu realtime cho " + ticker, "Thử ticker khác hoặc kiểm tra kết nối database", q)
      // the change and the amplitude `(high - low) / low` in the text divide Python floats
      else if cs[0].close == 0.0 || MinLow(cs) == 0.0 then DbFailure("Lỗi truy vấn market overview: ", ZeroDivision, q)
      else Found(OverviewFigures(ticker, cs))
  }

  /** The `data` of `get_market_overview`: the last close, measured against the first candle's close. */
  function OverviewFigures(ticker: string, cs: seq<Candle>): (d: Data)
    requires |cs| > 0 && cs[0].close != 0.0
    ensures d.OverviewData? && d.ticker == ticker
    ensures d.currentPrice == cs[|cs| - 1].close
    ensures d.change24h * cs[0].close == (d.currentPrice - cs[0].close) * 100.0
    ensures d.high24h == MaxHigh(cs) && d.low24h == MinLow(cs) && d.volume24h == SumVolume(cs)
    ensures Valid(d.lastUpdate.date)
    ensures NaiveMillis(d.lastUpdate) == cs[|cs| - 1].openTime - cs[|cs| - 1].openTime % 1000
    ensures d.candles == |cs|
  {
    var last := cs[|cs| - 1];
    FromMillisExact(last.openTime);
    OverviewData(ticker, last.close, ChangePct(cs[0].close, last.close), MaxHigh(cs), MinLow(cs),
                 SumVolume(cs), FromMillis(last.openTime), |cs|)
  }

  /** The high and low changes of the overview text, both measured from the first close. */
  function OverviewSwings(cs: seq<Candle>): (s: (real, real))
    requires |cs| > 0 && cs[0].close > 0.0
    ensures s.0 >= 0.0 <==> MaxHigh(cs) >= cs[0].close
    ensures s.1 <= 0.0 <==> MinLow(cs) <= cs[0].close
  {
    (ChangePct(cs[0].close, MaxHigh(cs)), ChangePct(cs[0].close, MinLow(cs)))
  }

  /** No lookup reports an error for an empty result, and every lookup reports one for a raised exception. */
  lemma EmptyIsNeverError(ticker: string, d: Date, e: Date, t: DateTime, f: Fetch)
    requires IsPyDate(d) && IsPyDate(e) && IsPyDateTime(t)
    ensures f == Rows([]) ==>
      ExactPrice(ticker, d, f).NoData? && PriceRange(ticker, d, e, f).NoData?
      && PriceAtMoment(ticker, t, f).NoData? && MarketOverview(ticker, f).NoData?
    ensures f.Raised? ==>
      ExactPrice(ticker, d, f).Failed? && PriceRange(ticker, d, e, f).Failed?
      && PriceAtMoment(ticker, t, f).Failed? && MarketOverview(ticker, f).Failed?
  {
  }

  // ---------------------------------------------------------------------------
  // Text helpers

  /** `str(query_info)`: a Python dict display of the echoed arguments, for a ticker without quotes, backslashes or control characters. */
  function QueryInfoText(q: QueryInfo): string
    requires QueryRenderable(q)
  {
    match q
    case ExactQuery(t, d) => "{'ticker': '" + t + "', 'date': '" + FormatDate(d) + "', 'type': 'exact_price'}"
    case RangeQuery(t, s, e) =>
      "{'ticker': '" + t + "', 'start_date': '" + FormatDate(s) + "', 'end_date': '" + FormatDate(e)
      + "', 'type': 'price_range'}"
    case MomentQuery(t, at) => "{'ticker': '" + t + "', 'datetime': '" + FormatMinute(at) + "', 'type': 'price_at_moment'}"
    case OverviewQuery(t) => "{'ticker': '" + t + "', 'type': 'market_overview'}"
  }

  predicate QueryRenderable(q: QueryInfo) {
    match q
    case ExactQuery(_, d) => IsPyDate(d)
    case RangeQuery(_, s, e) => IsPyDate(s) && IsPyDate(e)
    case MomentQuery(_, at) => IsPyDateTime(at)
    case OverviewQuery(_) => true
  }

  /** The dict `format_error_response` reads: `status`, `message` and the optional keys it looks up with defaults. */
  datatype StatusDict = StatusDict(
    status: string,
    message: string,
    suggestion: Option<string>,
    error: Option<string>,
    queryInfo: Option<QueryInfo>)

  /** The dict a non-success lookup returns, as `format_error_response` sees it. */
  function AsStatusDict(r: LookupResult): (d: StatusDict)
    requires !r.Found?
    ensures d.message == r.message && d.queryInfo == Some(r.query)
    ensures r.NoData? ==> d.status == "no_data" && d.suggestion == Some(r.suggestion) && d.error.None?
    ensures r.Failed? ==> d.status == "error" && d.error == Some(r.error) && d.suggestion.None?
  {
    match r
    case NoData(m, s, q) => StatusDict("no_data", m, Some(s), None, Some(q))
    case Failed(m, e, q) => StatusDict("error", m, None, Some(e), Some(q))
  }

  const WarningSign: string := "⚠️"

  /**
   * `format_error_response(d)`: a notice for `no_data` and for `error`, and
   * "Unknown error" followed by the dict's own text `dictText` (`str(d)`) for
   * any other status.
   */
  function FormatErrorResponse(d: StatusDict, dictText: string): (s: string)
    requires d.queryInfo.Some? ==> QueryRenderable(d.queryInfo.value)
    ensures d.status == "no_data" ==>
      Contains(s, d.message) && Contains(s, d.suggestion.GetOr("Thử với tham số khác"))
    ensures d.status == "error" ==> Contains(s, d.message) && Contains(s, d.error.GetOr("N/A"))
    ensures d.status != "no_data" && d.status != "error" ==> s == WarningSign + " Unknown error: " + dictText
  {
    if d.status == "no_data" then
      var info := if d.queryInfo.Some? then QueryInfoText(d.queryInfo.value) else "{}";
      Notice("\n" + WarningSign + " **KHÔNG CÓ DỮ LIỆU TRONG DATABASE**\n\n", d.message,
             "\n\n\U{1f4a1} **Gợi ý:** ", d.suggestion.GetOr("Thử với tham số khác"), "\n\n*Query Info: " + info + "*\n")
    else if d.status == "error" then
      Notice("\n❌ **LỖI TRUY VẤN**\n\n", d.message, "\n\n*Technical Details: ", d.error.GetOr("N/A"), "*\n")
    else WarningSign + " Unknown error: " + dictText
  }

  /** A notice: a heading, the message, a caption, a detail and a footer. */
  function Notice(head: string, message: string, caption: string, detail: string, tail: string): (s: string)
    ensures Contains(s, message) && Contains(s, detail)
  {
    ContainsMiddle(head, message, caption + detail + tail);
    ContainsMiddle(head + message + caption, detail, tail);
    assert head + message + caption + detail + tail == head + message + (caption + detail + tail);
    head + message + caption + detail + tail
  }

  /** A lookup's own no-data and error results always get their notice, never "Unknown error". */
  lemma LookupNotices(r: LookupResult, dictText: string)
    requires !r.Found? && QueryRenderable(r.query)
    ensures var s := FormatErrorResponse(AsStatusDict(r), dictText);
      && Contains(s, r.message)
      && (r.NoData? ==> Contains(s, r.suggestion))
      && (r.Failed? ==> Contains(s, r.error))
  {
  }

  // ---------------------------------------------------------------------------
  // extract_data_summary

  /** The keys of each `data` dict, in the order the lookups write them. */
  function DataKeys(d: Data): (keys: set<string>)
    ensures "ticker" in keys
  {
    match d
    case DayData(_, _, _, _, _, _, _, _, _) =>
      {"ticker", "date", "open", "close", "high", "low", "volume", "change_pct", "candles_count"}
    case RangeData(_, _, _, _, _, _, _, _, _, _, _, _) =>
      {"ticker", "start_date", "end_date", "days_count", "start_price", "end_price", "high", "low", "change_pct",
       "volatility", "volatility_pct", "total_volume", "avg_volume", "candles_count"}
    case MomentData(_, _, _, _, _, _, _, _, _) =>
      {"ticker", "requested_time", "actual_candle_time", "time_diff_minutes", "open", "close", "high", "low", "volume"}
    case OverviewData(_, _, _, _, _, _, _, _) =>
      {"ticker", "current_price", "change_24h", "high_24h", "low_24h", "volume_24h", "last_update", "candles_count"}
  }

  /** Which one-line summary a success gets. */
  datatype SummaryLine = OverviewLine | MomentLine | RangeLine | DayLine | GenericLine

  /** The summary: "[STATUS] message" for a non-success, else the line chosen for the data (numbers not rendered). */
  datatype Summary = StatusLine(text: string) | DataLine(line: SummaryLine, data: Data)

  /** The branch order of `extract_data_summary` as written: an at-moment dict also has `open`. */
  function SummaryLineAsWritten(keys: set<string>): SummaryLine {
    if "current_price" in keys then OverviewLine
    else if "close" in keys && "open" !in keys then MomentLine
    else if "change_pct" in keys && "start_price" in keys then RangeLine
    else if "change_pct" in keys then DayLine
    else GenericLine
  }

  /** The same order with the at-moment test on the key only that lookup writes. */
  function SummaryLineFor(keys: set<string>): SummaryLine {
    if "current_price" in keys then OverviewLine
    else if "actual_candle_time" in keys then MomentLine
    else if "change_pct" in keys && "start_price" in keys then RangeLine
    else if "change_pct" in keys then DayLine
    else GenericLine
  }

  /** `f"[{status.upper()}] {message}"`. */
  function StatusLineText(r: LookupResult): (s: string)
    requires !r.Found?
    ensures r.NoData? ==> s == "[NO_DATA] " + r.message
    ensures r.Failed? ==> s == "[ERROR] " + r.message
  {
    var status := if r.NoData? then "no_data" else "error";
    assert UpperAscii("no_data") == "NO_DATA";
    assert UpperAscii("error") == "ERROR";
    "[" + UpperAscii(status) + "] " + r.message
  }

  /** `extract_data_summary(r)` with the at-moment branch reachable. */
  function ExtractDataSummary(r: LookupResult): (s: Summary)
    ensures r.NoData? ==> s == StatusLine("[NO_DATA] " + r.message)
    ensures r.Failed? ==> s == StatusLine("[ERROR] " + r.message)
    ensures r.Found? ==> s.DataLine? && s.data == r.data
  {
    if r.Found? then DataLine(SummaryLineFor(DataKeys(r.data)), r.data)
    else StatusLine(StatusLineText(r))
  }

  /** `extract_data_summary(r)` as written. */
  function ExtractDataSummaryAsWritten(r: LookupResult): (s: Summary)
    ensures !r.Found? ==> s == ExtractDataSummary(r)
    ensures r.Found? ==> s.DataLine? && s.data == r.data
  {
    if r.Found? then DataLine(SummaryLineAsWritten(DataKeys(r.data)), r.data) else ExtractDataSummary(r)
  }

  /** The line each lookup's data was meant to get. */
  function IntendedLine(d: Data): SummaryLine {
    match d
    case DayData(_, _, _, _, _, _, _, _, _) => DayLine
    case RangeData(_, _, _, _, _, _, _, _, _, _, _, _) => RangeLine
    case MomentData(_, _, _, _, _, _, _, _, _) => MomentLine
    case OverviewData(_, _, _, _, _, _, _, _) => OverviewLine
  }

  /** Every lookup's success gets the summary line meant for it. */
  lemma SummaryMatchesLookup(d: Data)
    ensures ExtractDataSummary(Found(d)).line == IntendedLine(d)
  {
  }

  /**
   * As written, the at-moment test asks for `close` without `open`, but that
   * lookup writes both: its data always falls through to the generic line,
   * while the other three lookups get their own.
   */
  lemma MomentSummaryUnreachable(d: Data)
    ensures ExtractDataSummaryAsWritten(Found(d)).line == (if d.MomentData? then GenericLine else IntendedLine(d))
  {
  }

  // ---------------------------------------------------------------------------
  // The memo of get_exact_price

  /** `lru_cache(maxsize=1000)`. */
  const CacheSize: nat := 1000

  /**
   * The cache in front of `get_exact_price`, keyed on `(ticker, date)`: a hit
   * returns the stored result, whatever its status, and refreshes its
   * recency; a miss runs the lookup, stores it and drops the least recently
   * used entry once more than 1000 are held.
   */
  class ExactPriceCache {
    var entries: map<(string, Date), LookupResult>
    /** The keys from least to most recently used. */
    var order: seq<(string, Date)>

    ghost predicate Valid()
      reads this
    {
      && (forall k :: k in entries <==> k in order)
      && Distinct(order)
      && |order| <= CacheSize
    }

    constructor ()
      ensures Valid() && entries == map[] && order == []
    {
      entries := map[];
      order := [];
    }

    /** `order` without `key`, the rest kept in order. */
    static function Without(s: seq<(string, Date)>, key: (string, Date)): (r: seq<(string, Date)>)
      ensures forall k :: k in r <==> k in s && k != key
      ensures |r| <= |s| && (key in s ==> |r| < |s|)
      ensures Distinct(s) ==> Distinct(r)
    {
      if s == [] then []
      else if s[0] == key then Without(s[1..], key)
      else
        var rest := Without(s[1..], key);
        assert forall i :: 1 <= i < |s| ==> s[i] == s[1..][i - 1];
        assert Distinct(s) ==> s[0] !in s[1..];
        [s[0]] + rest
    }

    method Get(ticker: string, date: Date, fetch: Fetch) returns (r: LookupResult)
      requires Valid() && IsPyDate(date)
      modifies this
      ensures Valid()
      ensures (ticker, date) in entries && entries[(ticker, date)] == r
      // a hit: the stored value, nothing evicted, the key becomes the most recently used
      ensures (ticker, date) in old(entries) ==>
        && r == old(entries)[(ticker, date)] && entries == old(entries)
        && exists i :: 0 <= i < |old(order)| && old(order)[i] == (ticker, date)
             && order == old(order)[..i] + old(order)[i + 1..] + [(ticker, date)]
      // a miss: the lookup's value, stored as in `Insert`
      ensures (ticker, date) !in old(entries) ==> r == ExactPrice(ticker, date, fetch)
      ensures (ticker, date) !in old(entries) && |old(order)| < CacheSize ==>
        entries == old(entries)[(ticker, date) := r] && order == old(order) + [(ticker, date)]
      ensures (ticker, date) !in old(entries) && |old(order)| == CacheSize ==>
        && entries == (old(entries) - {old(order)[0]})[(ticker, date) := r]
        && order == old(order)[1..] + [(ticker, date)]
    {
      var key := (ticker, date);
      if key in entries {
        r := entries[key];
        WithoutCutsOne(order, key);
        order := Without(order, key) + [key];
      } else {
        r := ExactPrice(ticker, date, fetch);
        Insert(key, r);
      }
    }

    /** Stores a new entry as the most recently used, evicting first when the cache is full. */
    method Insert(key: (string, Date), value: LookupResult)
      requires Valid() && key !in entries
      modifies this
      ensures Valid()
      ensures |old(order)| < CacheSize ==> entries == old(entries)[key := value] && order == old(order) + [key]
      ensures |old(order)| == CacheSize ==>
        && entries == (old(entries) - {old(order)[0]})[key := value]
        && order == old(order)[1..] + [key]
    {
      if |order| == CacheSize {
        Evict();
      }
      entries := entries[key := value];
      order := order + [key];
    }

    /** Drops the least recently used entry. */
    method Evict()
      requires Valid() && |order| > 0
      modifies this
      ensures Valid() && |order| == |old(order)| - 1
      ensures entries == old(entries) - {old(order)[0]} && order == old(order)[1..]
    {
      assert forall i :: 1 <= i < |order| ==> order[i] == order[1..][i - 1];
      entries := entries - {order[0]};
      order := order[1..];
    }
  }

  /** On a list without repeats, `Without` cuts out the one position that holds the key. */
  lemma WithoutCutsOne(s: seq<(string, Date)>, key: (string, Date))
    requires Distinct(s) && key in s
    ensures exists i :: 0 <= i < |s| && s[i] == key && ExactPriceCache.Without(s, key) == s[..i] + s[i + 1..]
  {
    var i :| 0 <= i < |s| && s[i] == key;
    assert key !in s[..i] by {
      forall j | 0 <= j < i ensures s[..i][j] != key { assert s[j] != s[i]; }
    }
    var after := s[i + 1..];
    assert key !in after by {
      forall k | 0 <= k < |after| ensures after[k] != key { assert after[k] == s[i + 1 + k] != s[i]; }
    }
    WithoutCutsAt(s, key, i);
  }

  /** A key that occurs only at `i` is cut out there and nowhere else. */
  lemma {:induction false} WithoutCutsAt(s: seq<(string, Date)>, key: (string, Date), i: nat)
    requires i < |s| && s[i] == key && key !in s[..i] && key !in s[i + 1..]
    ensures ExactPriceCache.Without(s, key) == s[..i] + s[i + 1..]
    decreases i
  {
    if i == 0 {
      WithoutAbsent(s[1..], key);
      assert s[..0] + s[1..] == s[1..];
    } else {
      var t := s[1..];
      assert t[..i - 1] == s[1..i] && t[i..] == s[i + 1..];
      assert s[0] == s[..i][0];
      WithoutCutsAt(t, key, i - 1);
      assert s[..i] + s[i + 1..] == [s[0]] + (t[..i - 1] + t[i..]);
    }
  }

  /** A key that is not there leaves the list as it is. */
  lemma {:induction false} WithoutAbsent(s: seq<(string, Date)>, key: (string, Date))
    requires key !in s
    ensures ExactPriceCache.Without(s, key) == s
  {
    if s != [] {
      WithoutAbsent(s[1..], key);
      assert [s[0]] + s[1..] == s;
    }
  }

  predicate Distinct<T(==)>(s: seq<T>) {
    forall i, j :: 0 <= i < j < |s| ==> s[i] != s[j]
  }
}
