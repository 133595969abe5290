# Crypto market assistant: intent, lookups, vector search and chat, in Dafny

This project models the request path of a crypto market chat assistant. A user
message becomes an *intent*: the ticker, the query type, an exact day or moment,
or a range of days, plus two flags that ask for database figures and for a
vector search. The intent picks one of four price lookups over 5-minute
candles. In parallel, the vector store is searched across its collections, and
the hits are re-scored by keyword, recency and collection boosts. Both results
go into a prompt for the language model. The conversation history keeps only the
messages as the user typed them and the replies.

Modules, following the program's files:

- `Calendar`: Python's `date`/`datetime` arithmetic that the code relies on. It
  covers `timedelta` days and minutes, `toordinal`, `weekday`, `replace(day=1)`,
  `strftime`/`strptime` of `%Y-%m-%d`, and `pd.to_datetime(ms, unit='ms')`.
- `Text`: `str.lower`, `in`, `any(...)`, `str.split`, `str.join`, `str(n)`, `int(s)`.
- `Patterns`: each regular expression the resolvers use, as a match at one
  position. `re.search` is the leftmost position that matches.
- `Intents`: the intent record and the steps both resolvers share (ticker,
  query type, week and month ranges, the routing test on `exact_time`).
- `IntentParser`: the stand-alone resolver `IntentParser.parse_intent`.
- `RagIntent`: the chat service's own resolver `RAGService.parse_intent`.
- `DataTools`: `get_exact_price`, `get_price_range`, `get_price_at_moment`,
  `get_market_overview`, `format_error_response`, `extract_data_summary`, and
  the `lru_cache` in front of `get_exact_price`.
- `Sorting`: Python's stable `sorted` by a key, and slicing `s[:n]`.
- `Embedding`: `EmbeddingConfig`, `add_e5_prefix`, the collections
  `EmbeddingService.__init__` opens, `search`, and `rerank_results`.
- `RagService`: `create_context_from_results`, `chat` with its history, and
  `clear_history`.

The clock (`datetime.now()`), the ClickHouse database, the Chroma store and the
language model are parameters: a clock value, functions from a request to its
rows (or a raised exception), a function from a collection query to its hits,
and a function from the prompt to a reply or an error. The service classes keep
their mutable state as fields: the conversation history, the opened
collections, and the cache's entries with their recency order.

## Model

| member | source | states |
|---|---|---|
| IntentParser.ParseIntent | backend/intent_parser.py:21-192 | The resolver with its loops and early returns yields exactly `Resolve(msg, now)`, the resolution the lemmas below describe. Dates are read with the formats as the program writes them, so a DD-MM-YYYY date is passed over. |
| IntentParser.FindDate | backend/intent_parser.py:59-76 | The loop over the date patterns returns the date of the first pattern whose leftmost match parses with the format the program gives it (`%d/%m/%Y` for both day-first patterns). |
| IntentParser.ClassifyMessage | backend/intent_parser.py:25-55 | The writes of the ticker, the type and the two flags give the classifier's intent. |
| IntentParser.FindRelative | backend/intent_parser.py:79-81 | The loop over `RELATIVE_TIME_MAP` returns the offset of the first key, in the map's order, that occurs in the message. |
| IntentParser.ApplyRangeRules | backend/intent_parser.py:110-192 | The part from "N ngày qua" on computes the same resolution as the rules it models. |
| IntentParser.ApplyLaterRules | backend/intent_parser.py:130-192 | The part from the hour phrase on computes the same resolution as the rules it models. |
| IntentParser.ApplyFutureRules | backend/intent_parser.py:149-192 | Tomorrow, then next week, then the day-and-time phrase, in that order; the result equals the rules it models. |
| IntentParser.FirstRelative | backend/intent_parser.py:6-18 | Some key of the relative-time map occurs in the text exactly when there is a result. The result is the offset of the first occurring key, in the map's order. |
| IntentParser.ApplyRelative | backend/intent_parser.py:79-108 | A relative keyword changes only the time fields: type, ticker and both flags are kept. |
| IntentParser.FormatReadsMatch | backend/intent_parser.py:59-72 | When each shape is read with its own format, a match parses to the date its digit groups name exactly when that date exists. |
| IntentParser.AsWrittenDashNeverParses | backend/intent_parser.py:62-72 | The DD-MM-YYYY match is read with `%d/%m/%Y`, which never accepts it. |
| IntentParser.FirstDateIsFirstParsable | backend/intent_parser.py:59-76 | A date is found iff some pattern's leftmost match names a real date. The date found is that of the first such pattern, and only the leftmost match of each pattern is tried. |
| IntentParser.MatchedDateText | backend/intent_parser.py:73 | The `exact_time` text is the ISO match itself, or the day-first match with its fields reordered. |
| IntentParser.AsWrittenSkipsDash | backend/intent_parser.py:62-76 | As written, the loop never gets a date from the dash pattern. |
| IntentParser.AsWrittenAgrees | backend/intent_parser.py:65-76 | Wherever the loop as written finds a date, the corrected loop finds the same date. |
| IntentParser.DashExampleSearches | backend/intent_parser.py:59-66 | On "15-01-2024", only the dash pattern matches, and it matches the whole text. |
| IntentParser.DashDateExample | backend/intent_parser.py:58-76 | "15-01-2024" yields no date as written, and 15 January 2024 as intended. |
| IntentParser.LaterRulesKeepClass | backend/intent_parser.py:130-192 | The hour, minute, future and day-time rules keep type, ticker and the vector flag, and never clear the structured flag. |
| IntentParser.RangeRulesKeepClass | backend/intent_parser.py:110-192 | The same holds from "N ngày qua" on. |
| IntentParser.ResolvedCategory | backend/intent_parser.py:41-53 | The type depends only on the keyword lists: price before trend before news, each as an iff. Price and trend ask for structured data, and every intent asks for vector search. |
| IntentParser.ResolvedTicker | backend/intent_parser.py:35-39 | The ticker is the leftmost whole-word listed symbol, upper-cased, with "USDT" appended. With no symbol it is "BTCUSDT". |
| IntentParser.DefaultWhenNoCue | backend/intent_parser.py:25-32 | A message without any cue resolves to the default record. |
| IntentParser.FirstKeywordDecides | backend/intent_parser.py:79-108 | When the date loop as written finds no date (including every DD-MM-YYYY-only message), the first occurring key of the map sets the time fields and ends the resolution. |
| IntentParser.ResolveWhenRelative | backend/intent_parser.py:79-108 | When the date loop as written finds no date and some key is present, the relative step decides the result. |
| IntentParser.DayKeyword | backend/intent_parser.py:81-84 | "hôm nay", "hôm qua" and "hôm kia" set the day `n` days from today and leave the range alone. |
| IntentParser.YearKeywordsSetNoTime | backend/intent_parser.py:16-17 | When the date loop as written finds no date, "năm nay" and "năm ngoái" end the resolution with no time at all. |
| IntentParser.DashOnlyMeansNoDate | backend/intent_parser.py:59-76 | A message with no ISO and no slash date gets no date from the loop as written, whatever dash dates it holds. |
| IntentParser.LastDaysOverflow | backend/intent_parser.py:111-116 | "N ngày qua" raises when N days back is before 0001-01-01. |
| IntentParser.LastDaysThenTrend | backend/intent_parser.py:111-128 | Otherwise it sets an N-day range ending today and the structured flag. A trend query then replaces that range by 7 days, and the later rules run. |
| IntentParser.AgoRuleMoment | backend/intent_parser.py:140-147 | Subtracting minutes raises exactly when the result is before 0001-01-01 00:00. Otherwise the moment is exactly that many minutes earlier and the structured flag is set. |
| IntentParser.HoursAgo | backend/intent_parser.py:131-138 | An hour phrase sets the moment N hours before now, or raises; it takes precedence over the minute phrase. |
| IntentParser.MinutesAgo | backend/intent_parser.py:140-147 | Without an hour phrase, a minute phrase sets the moment N minutes before now, or raises. |
| IntentParser.Tomorrow | backend/intent_parser.py:150-152 | "ngày mai" sets the day after today. |
| IntentParser.NextWeek | backend/intent_parser.py:154-161 | "tuần sau" sets Monday to Sunday of the following week. |
| IntentParser.DayTimePhrase | backend/intent_parser.py:163-190 | The day-and-time phrase sets a real moment and the structured flag when its groups name one. Otherwise nothing changes (the bare `except`). |
| IntentParser.ResolvedRenderable | backend/intent_parser.py:21-192 | Every date of a resolved intent can be written with `strftime`: the resolver raises rather than leave the calendar. |
| Patterns.LeftmostFirst | backend/intent_parser.py:66 | A leftmost scan finds a match iff some position matches, and it returns the first such position's match. |
| Patterns.AlternativeAt | backend/intent_parser.py:35-36 | The alternation, tried symbol by symbol from a given one on, matches iff one of those symbols stands at the position as a whole word (optionally followed by "usdt"). It captures such a symbol, upper-cased. |
| Patterns.TickerAt | backend/intent_parser.py:35-38 | The pattern matches at a position iff a listed symbol stands there as a whole word: a word boundary before it, and one right after it or after a following "usdt". The capture is that symbol, upper-cased. |
| Patterns.SymbolsExclusive | backend/intent_parser.py:35-38 | At most one listed symbol occurs at a position, so the order of the alternation never matters. |
| Patterns.SearchTickerIsScan | backend/intent_parser.py:35-36 | The ticker search is the leftmost scan of the per-position match. |
| Patterns.SearchTickerLeftmost | backend/intent_parser.py:35-36 | The ticker search finds a match iff some position matches; it returns the first, and no earlier position matches. |
| Patterns.DateTextAt | backend/intent_parser.py:59-63 | A date match is ten characters of the pattern's shape occurring at that position. There is no match iff no such text occurs there. |
| Patterns.SearchDateTextIsScan | backend/intent_parser.py:66 | The date search is the leftmost scan of the per-position match. |
| Patterns.SearchDateTextLeftmost | backend/intent_parser.py:66 | The date search finds the first matching position, and none iff no position matches. |
| Patterns.LastDaysAt | backend/intent_parser.py:110-113 | The pattern matches at a position iff a digit stands there and, after the whole digit run and any spaces, "ngày", spaces and one of "gần nhất", "qua", "trước", "gần đây" follow. N is the value of the whole digit run. |
| Patterns.LastDaysExample | backend/intent_parser.py:110-111 | "7 ngày qua" asks for the last 7 days. |
| Patterns.SearchLastDaysIsScan | backend/intent_parser.py:111-112 | The "N ngày qua" search is the leftmost scan. |
| Patterns.SearchLastDaysLeftmost | backend/intent_parser.py:111-112 | The "N ngày qua" search finds the first match, and none iff no position matches. |
| Patterns.AgoAt | backend/intent_parser.py:131-143 | The pattern matches at a position iff a digit stands there and, after the whole digit run and any spaces, one of the units, spaces and one of "trước", "ago", "qua" follow. N is the value of the whole digit run. |
| Patterns.HoursWordExample | backend/intent_parser.py:131-132 | "3 hours ago" is no hour phrase: the unit "hour" is followed by "s", not by a suffix. |
| Patterns.HourLetterExample | backend/intent_parser.py:131-132 | "2h trước" is two hours ago. |
| Patterns.SearchAgoIsScan | backend/intent_parser.py:132-141 | The "N ... ago" search is the leftmost scan. |
| Patterns.SearchAgoLeftmost | backend/intent_parser.py:132-141 | The "N ... ago" search finds the first match, and none iff no position matches. |
| Patterns.TimeFirstAt | backend/intent_parser.py:164 | A match of the first alternative has groups of the widths the pattern allows, and each group is the text's own digits at its place. After an optional `lúc` and spaces come the hour, `:` or `h`, spaces and the minute. Then, past no newline, come the day, `/` or `-`, the month, and the year after a separator when there is one. |
| Patterns.DateFirstAt | backend/intent_parser.py:164 | A match of the second alternative has groups of the widths the pattern allows, each the text's own digits at its place. At the position come the day, a separator and the month, then the year after a separator when there is one. After spaces and an optional `lúc` come the hour, `:` or `h`, spaces and the minute. |
| Patterns.DayTimeAt | backend/intent_parser.py:164 | A match at a position is a match of one of the two alternatives, with that alternative's groups in place. |
| Patterns.LucTimeExample | backend/intent_parser.py:164-165 | "lúc 10h30 ngày 15/1" gives hour 10, minute 30, day 15, month 1 and no year. |
| Patterns.MinuteBacktrackExample | backend/intent_parser.py:164-165 | "10h 15/1" gives hour 10, minute 1, day 5 and month 1: the greedy minute gives back a digit so that the date can match. |
| Patterns.DateFirstExample | backend/intent_parser.py:164-165 | "15/1/2024 lúc 9h" gives day 15, month 1, year 2024, hour 9 and an empty minute. |
| Patterns.SearchDayTimeIsScan | backend/intent_parser.py:165 | The day-and-time search is the leftmost scan. |
| Patterns.SearchDayTimeLeftmost | backend/intent_parser.py:165 | The day-and-time search finds the first match, and none iff no position matches. |
| Patterns.DayTimeValue | backend/intent_parser.py:166-188 | The `datetime` built from the groups, when it exists, is a real minute. |
| Patterns.DayTimeDefaults | backend/intent_parser.py:168-184 | A missing minute is 0, a missing year is the clock's, and a two-digit year lies in 2000..2099. An hour past 23 or a month past 12 never gives a moment. |
| Intents.TickerOf | backend/intent_parser.py:35-39 | The ticker is the default, or a listed symbol upper-cased with "USDT" appended. |
| Intents.Classify | backend/intent_parser.py:41-53 | Each type holds iff its keywords occur and no earlier list's keywords do. Structured data iff price or trend. Vector search always, and no time yet. |
| Intents.RecentDaysSpan | backend/intent_parser.py:114-120 | `[now - days, now]` ends today and spans exactly `days` days. |
| Intents.ThisWeekRange | backend/intent_parser.py:85-89 | "This week" runs from its Monday to today. |
| Intents.LastWeekRange | backend/intent_parser.py:90-96 | "Last week" is Monday to Sunday of the previous week. |
| Intents.MonthRanges | backend/intent_parser.py:97-107 | "This month" runs from its first day to today. "Last month" is the whole previous month, crossing the year in January. |
| Intents.PeriodRenderable | backend/intent_parser.py:85-107 | Both ends of every period range are dates Python can hold. |
| Intents.ExactTimeText | backend/intent_parser.py:84 | The day text has 10 characters and the moment text has 16. |
| Intents.NamesMomentIffMinute | backend/rag_service.py:182-186 | The routing test "a space and a colon" holds exactly for a moment's text. |
| RagIntent.FirstDayOffset | backend/rag_service.py:92-104 | The offset of the first occurring day keyword, in `-2..0`; there is none iff no keyword occurs. |
| RagIntent.FirstPeriod | backend/rag_service.py:107-129 | The period of the first branch of the chain one of whose spellings occurs; there is none iff no spelling occurs. |
| RagIntent.FormatsFitPatterns | backend/rag_service.py:62-71 | Each pattern's own format reads its match as the date its groups name, when that date exists. |
| RagIntent.FirstDateIsFirstParsable | backend/rag_service.py:62-75 | A date is found iff some pattern's leftmost match names a real date; the ISO pattern is tried before the day-first one. |
| RagIntent.DateReturns | backend/rag_service.py:67-73 | A parsed date ends the resolution: only the classification and the day are set. |
| RagIntent.LastDaysReturns | backend/rag_service.py:78-89 | "N ngày qua" returns at once. It raises iff N days back is before 0001-01-01; otherwise it sets an N-day range ending today and the structured flag. |
| RagIntent.DayKeywordReturns | backend/rag_service.py:92-104 | Without "N ngày qua", the first day keyword sets the day `off` days from today and returns. |
| RagIntent.PeriodOrTrendDefault | backend/rag_service.py:107-136 | A period keyword sets its range. Otherwise a trend query with no time gets the last 7 days, and any other intent is unchanged. |
| RagIntent.TrendAlwaysHasTime | backend/rag_service.py:131-136 | A resolved trend query always has a range or a day. |
| RagIntent.RelativeRulesKeepClass | backend/rag_service.py:77-138 | The time rules keep type, ticker and the vector flag, and never clear the structured flag. |
| RagIntent.ResolvedCategory | backend/rag_service.py:45-57 | The type follows the keyword lists (trend includes "biến động"), each as an iff. Price and trend ask for structured data, and every intent asks for vector search. |
| RagIntent.ResolvedTicker | backend/rag_service.py:35-43 | The ticker is the leftmost listed symbol with "USDT" appended, else "BTCUSDT". |
| RagIntent.FluctuationIsTrend | backend/rag_service.py:50 | "biến động" alone makes a trend query. |
| RagIntent.DefaultWhenNoCue | backend/rag_service.py:26-33 | A message without any cue resolves to the default record. |
| RagIntent.ResolvedRenderable | backend/rag_service.py:21-138 | Every date of a resolved intent can be written with `strftime`. |
| RagService.RagService.ParseIntent | backend/rag_service.py:21-138 | The resolver with its loops and early returns yields exactly `Resolve(msg, now)`. |
| RagService.RagService.FindDate | backend/rag_service.py:62-75 | The loop over `date_patterns` returns the date of the first pattern whose match parses with its format. |
| DataTools.MaxHigh | backend/data_tools.py:55 | `df['high'].max()` bounds every high and is one of them. |
| DataTools.MinLow | backend/data_tools.py:56 | `df['low'].min()` is at most every low and is one of them. |
| DataTools.SumVolumeBounds | backend/data_tools.py:57 | The total of non-negative volumes is non-negative and at least each volume. |
| DataTools.ChangePct | backend/data_tools.py:58 | The percentage times the base is 100 times the difference. For a positive base it is positive iff the price rose, and 0 iff it is unchanged. |
| DataTools.ExtremesBound | backend/data_tools.py:53-56 | Over sane candles, the first open and the last close lie between the low and the high. |
| DataTools.DayWindow | backend/data_tools.py:24-26 | The day's window is 00:00:00 to 23:59:59 of that date, 86399 seconds apart. |
| DataTools.DaysCountInclusive | backend/data_tools.py:165 | `(end - start).days + 1` is the number of calendar days from start to end, both included. |
| DataTools.ExactPrice | backend/data_tools.py:10-107 | A raised fetch gives `error` with the exception text. The result is `no_data` iff there are no rows. A zero first open gives the division error. The query is echoed, and a success carries the day figures. |
| DataTools.DayFigures | backend/data_tools.py:53-94 | The first open, last close, extremes, total volume and candle count. The change is measured from the open. |
| DataTools.DbFailure | backend/data_tools.py:96-107 | The `except` branch: `error` status with the exception text in the message and the query echoed. |
| DataTools.PriceRange | backend/data_tools.py:109-223 | As for the exact price. The success condition adds a non-zero low, which the formatted text divides by. |
| DataTools.RangeFigures | backend/data_tools.py:152-208 | The inclusive day count, first open, last close, extremes, total and average volume, and the change from the start price. |
| DataTools.LatestAtOrBefore | backend/data_tools.py:243-249 | The SQL picks a candle at or before the time, and no candle at or before it is later; there is none iff every candle is later. |
| DataTools.PriceAtMoment | backend/data_tools.py:225-324 | `no_data` iff no candle is at or before the moment. A success iff that candle's low is nonzero, and it carries that candle's figures. A zero low gives `error` (the amplitude divides by it), and so does a raised fetch. |
| DataTools.MomentFigures | backend/data_tools.py:266-310 | The candle's prices, its time truncated to the second, and its distance from the moment in whole minutes. |
| DataTools.MarketOverview | backend/data_tools.py:326-421 | `no_data` iff there are no rows. A success needs a non-zero first close and low. A raised fetch gives `error`. |
| DataTools.OverviewFigures | backend/data_tools.py:356-410 | The current price is the last close, and the 24h change is measured from the first candle's close. Also the extremes, the volume, and the last open time as the update time (the frame is taken to have an `openTime` column). |
| DataTools.OverviewSwings | backend/data_tools.py:368-369 | The high change is non-negative iff the high reaches the first close; the low change is non-positive iff the low does not exceed it. |
| DataTools.EmptyIsNeverError | backend/data_tools.py:36-47 | Every lookup reports `no_data` for empty rows and `error` for a raised exception. |
| DataTools.AsStatusDict | backend/data_tools.py:36-47 | The non-success dict carries the status, the message, the suggestion or the error, and the query. |
| DataTools.FormatErrorResponse | backend/data_tools.py:423-453 | The `no_data` notice holds the message and the suggestion, or its default. The `error` notice holds the message and the error, or "N/A". Any other status gives "Unknown error" followed by the dict. |
| DataTools.Notice | backend/data_tools.py:435-451 | A notice holds its message and its detail. |
| DataTools.LookupNotices | backend/data_tools.py:423-451 | A lookup's own `no_data` and `error` results always get their notice with the message and the suggestion or error, never "Unknown error". |
| DataTools.StatusLineText | backend/data_tools.py:466-467 | The status line is "[NO_DATA] " or "[ERROR] " followed by the message. |
| DataTools.ExtractDataSummary | backend/data_tools.py:455-485 | Non-success results give the status line. A success gives a data line about that lookup's data. |
| DataTools.ExtractDataSummaryAsWritten | backend/data_tools.py:455-485 | As written, it agrees on every non-success result and gives a data line on success. |
| DataTools.SummaryMatchesLookup | backend/data_tools.py:472-483 | Each lookup's success gets the line meant for it. |
| DataTools.MomentSummaryUnreachable | backend/data_tools.py:475-477 | As written, an at-moment success always falls to the generic line, while the other three lookups get their own. |
| DataTools.ExactPriceCache.constructor | backend/data_tools.py:11 | The cache starts empty. |
| DataTools.ExactPriceCache.Get | backend/data_tools.py:11-12 | A hit returns the stored result, whatever its status, leaves the entries unchanged and moves the key from its place in the recency order to the end. A miss runs the lookup and stores it as `Insert` does. |
| DataTools.ExactPriceCache.Insert | backend/data_tools.py:11 | A new entry is appended as most recently used. Below 1000 entries nothing else changes. At 1000, exactly the least recently used entry (the head of the order) is dropped, and the other entries keep their order. |
| DataTools.WithoutCutsOne | backend/data_tools.py:11-12 | Taking a key out of a duplicate-free recency order removes exactly its one position. |
| DataTools.ExactPriceCache.Evict | backend/data_tools.py:11 | Drops exactly the least recently used entry. |
| Embedding.IntervalOf | backend/embedding_service.py:11-17 | `CandleInterval(value)` returns the member with that value. |
| Embedding.IntervalRoundTrip | backend/embedding_service.py:11-17 | Each interval is found again from its value. |
| Embedding.ToDict | backend/embedding_service.py:39-58 | The four collection keys, each with its flag and day count, plus the interval's value for klines. |
| Embedding.ToDictRoundTrip | backend/embedding_service.py:39-58 | The exported dict determines the configuration. |
| Embedding.AddE5Prefix | backend/embedding_service.py:107-111 | "query: " or "passage: " before the text. |
| Embedding.E5PrefixDistinct | backend/embedding_service.py:107-111 | A query never equals a passage, and the text follows the prefix unchanged. |
| Embedding.WhereFilter | backend/embedding_service.py:316-327 | A filter exists iff a range is given and the collection is kline, news or open interest. Its bounds read back as the midnights of the range's days in epoch seconds. |
| Embedding.TagAll | backend/embedding_service.py:335-342 | Each hit is kept, tagged with its collection. |
| Embedding.MergedOrigin | backend/embedding_service.py:310-345 | Every merged hit comes from a listed, opened collection whose query returned it. |
| Embedding.MergedComplete | backend/embedding_service.py:310-345 | Every hit a listed, opened collection returned is in the merge. |
| Embedding.Overlap | backend/embedding_service.py:365-379 | The share of query words found in the document lies in [0, 1], and is 0 when they share none. |
| Embedding.KeywordBoost | backend/embedding_service.py:365-379 | The keyword boost lies in [1, 1.56], and is at most 1.3 without a title. |
| Embedding.RecencyBoost | backend/embedding_service.py:382-397 | With a range and a readable timestamp, the boost is 1.3 below 1 day from the range's end, 1.15 below 7 days, 1.05 below 30 days, and 1 otherwise. It is 1 without a range, without a timestamp, or when `int()` rejects it. |
| Embedding.CollectionBoost | backend/embedding_service.py:400-405 | 1.2 iff the query names news and the hit is news. 1.25 iff otherwise the query names the price and the hit is a kline. Else 1. |
| Embedding.ScoreAtLeastBase | backend/embedding_service.py:369-408 | Since every boost is at least 1, the final score is at least the similarity. |
| Embedding.Ranked | backend/embedding_service.py:417 | The reranked list is a permutation of the scored hits, in non-increasing final score. |
| Embedding.RankedStable | backend/embedding_service.py:417 | Hits with equal scores keep their order. |
| Embedding.ScoreAll | backend/embedding_service.py:366-414 | Each hit with its own boosts, in the input order. |
| Embedding.RerankResults | backend/embedding_service.py:354-417 | The loop writes each hit's boosts, and the result is those hits by descending score. |
| Embedding.ScoreHits | backend/embedding_service.py:368-414 | The loop gives each hit its own boosts, in the input order. |
| Embedding.SearchAsWrittenShape | backend/embedding_service.py:347-352 | As written, `search` returns min(top_k, n) of the merged hits in distance order, each carrying the boosts the reranker wrote. |
| Embedding.SearchRerankedShape | backend/embedding_service.py:347-352 | The corrected search returns min(top_k, n) hits from the closest `2 * top_k`, with their boosts, by non-increasing final score. |
| Embedding.RerankedPrefix | backend/embedding_service.py:349-350 | The first `top_k` reranked hits come from the pool, with their boosts, in score order. |
| Embedding.RankedFromTop | backend/embedding_service.py:350 | Each reranked entry is a pool hit with its own boosts. |
| Embedding.SearchDropsRerank | backend/embedding_service.py:347-352 | An input where the reranker puts the news hit first (0.8 × 1.2 > 0.9), but `search` returns the closer analysis hit. |
| Embedding.EmbeddingService.constructor | backend/embedding_service.py:64-95 | The configuration defaults when none is given. A type has a collection iff it is enabled, named `<type>_data`. |
| Embedding.EmbeddingService.ActiveTypes | backend/embedding_service.py:304-305 | The default types are exactly the opened collections. |
| Embedding.EmbeddingService.Search | backend/embedding_service.py:288-352 | The method computes the as-written search over its collections. |
| Embedding.EmbeddingService.SearchRanked | backend/embedding_service.py:288-352 | The method computes the corrected, reranked search over its collections. |
| Embedding.EmbeddingService.MergeHits | backend/embedding_service.py:310-345 | The loop appends each known collection's hits in turn. An unknown type or a failing query adds none. |
| Embedding.AppendTagged | backend/embedding_service.py:334-341 | The inner loop appends one query's hits in order, each tagged with its collection. |
| Sorting.SortBy | backend/embedding_service.py:347 | `sorted(key=...)` is ordered by the key and is a permutation of its input. |
| Sorting.SortByStable | backend/embedding_service.py:347 | The sort is stable: elements with equal keys keep their order. |
| Sorting.PyPrefix | backend/embedding_service.py:349 | `s[:n]` is a prefix of length min(n, len) for n ≥ 0, and drops -n elements from the end for n < 0. |
| RagService.LastTen | backend/rag_service.py:265 | `history[-10:]` is the last min(len, 10) entries. |
| RagService.RouteOf | backend/rag_service.py:180-194 | No lookup iff no structured data is asked for. Otherwise a moment goes to the at-moment lookup, a day to the exact price, a range to the range lookup, and nothing else to the overview, each with the intent's own values. |
| RagService.Lookup | backend/rag_service.py:180-194 | A lookup is made iff the route asks for one. |
| RagService.NoDataText | backend/rag_service.py:199-204 | The no-data notice holds the message and the suggestion. |
| RagService.StructuredOf | backend/rag_service.py:196-210 | Nothing without a lookup. A success keeps its figures. `no_data` gives a notice with the message and the suggestion. `error` gives "❌ Lỗi: " followed by the message. |
| RagService.Entry | backend/rag_service.py:146-150 | A context part starts with its number and ". ". A bracketed date follows exactly when the metadata has a `date`, and it is that date. The part ends with the first 300 characters of the document and "...". |
| RagService.ContextHoldsEveryHit | backend/rag_service.py:140-152 | The context holds every hit's numbered part. |
| RagService.ContextNeverEmpty | backend/rag_service.py:142-143 | Without results, the context says no information was found; it is never empty. |
| RagService.SearchTypes | backend/rag_service.py:219 | `search_collections or ['news', 'analysis']` is never empty. |
| RagService.ResolvedDayOnly | backend/rag_service.py:21-138 | The chat resolver only ever sets a day as `exact_time`. |
| RagService.NeverAtMoment | backend/rag_service.py:182-184 | So `chat` never routes to the at-moment lookup. |
| RagService.ChatResolves | backend/rag_service.py:164 | A raised `OverflowError` leaves the history unchanged. Otherwise `chat` goes on with a writable intent that asks for vector search. |
| RagService.ChatHistory | backend/rag_service.py:260-306 | The reply is an answer iff the model succeeds. On success the history grows by the typed message and the reply, exactly 2 entries. On failure the history is unchanged and the reply is the apology. The model sees the last 10 entries and the question as typed. |
| RagService.ChatAnswer | backend/rag_service.py:293-299 | An answer carries the intent and the first 3 search results as sources. It reports structured and vector data exactly when the intent asked for them. |
| RagService.ClosestFirst | backend/rag_service.py:217-222 | The first three search results are the closest merged hits in distance order, with their boosts; none without vector search. |
| RagService.ChatSourcesClosest | backend/rag_service.py:217-222 | The sources are the first min(3, top_k, n) merged hits in distance order, each with the boosts the reranker wrote. Without vector search there are none. |
| RagService.ChatSourcesRanked | backend/embedding_service.py:347-352 | The intended half of the search finding: had `search` returned its reranked list, the chat's three sources would come in non-increasing final score. |
| RagService.RankedPrefix | backend/rag_service.py:295 | A prefix of a score-ordered list is score-ordered. |
| RagService.RagService.constructor | backend/rag_service.py:15-19 | The history starts empty. |
| RagService.RagService.ClearHistory | backend/rag_service.py:314-316 | The history becomes empty. |
| RagService.RagService.LookupData | backend/rag_service.py:180-194 | The if-chain calls the lookup the intent routes to. |
| RagService.RagService.StructuredData | backend/rag_service.py:177-210 | The structured step is the text made from that lookup's result. |
| RagService.RagService.VectorData | backend/rag_service.py:212-223 | With vector search, the search as written over the requested or default types, and its context. Otherwise nothing. |
| RagService.RagService.CreateContextFromResults | backend/rag_service.py:140-152 | The loop builds the context text. |
| RagService.RagService.Chat | backend/rag_service.py:154-306 | The new history and the reply are those of `Respond` on the old history. `ChatResolves`, `ChatHistory`, `ChatAnswer` and `ChatSourcesClosest` state what that means. |
| RagService.RagService.ReplyTo | backend/rag_service.py:165-306 | Once the intent is resolved, the new history and the reply are those of `Reply` on the old history. |
| Calendar.OrdinalAddDays | backend/intent_parser.py:83 | `date + timedelta(days=k)` moves the ordinal by exactly k. |
| Calendar.WeekStart | backend/intent_parser.py:155 | Going back to the week's Monday and on by whole weeks lands on a Monday, the expected number of days away. |
| Calendar.LastDayOfPreviousMonth | backend/intent_parser.py:103 | `replace(day=1) - timedelta(days=1)` is the last day of the previous month. |
| Calendar.MinusMinutesExact | backend/intent_parser.py:144 | `t - timedelta(minutes=n)` moves the time back by exactly 60·n seconds. |
| Calendar.ParseFormatDate | backend/intent_parser.py:73 | Parsing a formatted date gives it back. |
| Calendar.FormatParseDate | backend/intent_parser.py:70 | An accepted `%Y-%m-%d` text is canonical: formatting the parsed date gives the text back. |
| Calendar.ParseFormatMinute | backend/data_tools.py:239 | `pd.to_datetime` of a `%Y-%m-%d %H:%M` text gives the moment back. |
| Calendar.FromMillisExact | backend/data_tools.py:272 | `pd.to_datetime(ms, unit='ms')` keeps everything but the sub-second part. |
| Text.LowerIdempotent | backend/intent_parser.py:23 | Lowering twice is lowering once. |
| Text.JoinHolds | backend/rag_service.py:152 | Every part occurs in the joined text. |
| Text.IntTextRoundTrip | backend/embedding_service.py:316-327 | `int(str(i)) == i`. |

## Left out

- `IntentParser.FindDate` and `RagIntent.FirstDate` read `%Y` as exactly four digits, which is all the patterns pass. Platform differences in `strptime` are not modelled.
- `Calendar.FormatDate` always pads the year to four digits. `strftime('%Y')` pads years below 1000 on some platforms only, so `FormatParseDate`, `MatchedDateText` and `ExactTimeText` hold for such years only where the C library pads.
- The `re.IGNORECASE` flag is applied to already-lowered text. Its special case folds (such as the Kelvin sign) are not modelled.
- `\d` is ASCII only, and `\w` is approximated by ASCII, Latin-1, Latin Extended and Vietnamese letters, digits and `_`.
- `str.lower` is modelled for ASCII, Latin-1 and Vietnamese letters only.
- `int()` of a very long digit string has a digit limit in Python, which is not modelled.
- The clock is a parameter with a year in 2..9998, so the fixed offsets of up to two weeks never leave the calendar. The overflow of the "N days / hours / minutes" phrases, whose N the user chooses, is modelled.
- Prices and volumes are exact reals: floating-point rounding, `pd.to_numeric(errors='coerce')` NaNs and `float()` conversions are not modelled.
- `get_price_range`'s volatility (`std`, `mean`) is not modelled, apart from the division by the low that the formatted text performs.
- Formatted Markdown texts (`formatted`) and their number formatting are not modelled; a success is represented by its `data` figures.
- `pd.to_datetime` of arbitrary text is not modelled. The lookups take dates and moments, which is what `chat` passes them.
- The ClickHouse helper, the Chroma client, the SentenceTransformer model, and the Cerebras client are inputs: functions from the request to rows, hits, or a reply or error.
- The prompt text and the system prompt, including `datetime.now()` in it, are not modelled; the prompt is a record of its parts.
- `embed_text`, the `add_*` indexing methods, `get_stats`, `reset_collection` and `reset_all` are not part of this model. They only write to or report on the store.
- `Embedding.WhereFilter` turns the range's days into epoch seconds for any year. `pd.Timestamp` holds only moments from 1677-09-21 00:12 to 2262-04-11 23:47 and raises outside them. The source then skips the kline, news and open-interest collections for that search, which the model does not do.
- `Embedding.RecencyBoost` reads the range's end for any year. Outside the `pd.Timestamp` range the source's `try` fails and the boost stays 1.0, which the model does not promise.
- `DataTools.ExactPrice` builds the day's window for any date. A date outside the `pd.Timestamp` range makes the source raise, so its result is `error`. The model does not give that error.
- `DataTools.PriceRange` does the same for both dates, with the same gap.
- `DataTools.PriceAtMoment` does the same for the moment, with the same gap.
- `DataTools.OverviewFigures` takes the update time from the last candle's `openTime`. It assumes the latest-data frame has an `openTime` column, which every `Candle` here carries. The source's `datetime.now()` fallback for a frame without that column is not modelled.
- `DataTools.FormatErrorResponse` writes the ticker inside single quotes in `str(query_info)`. Python's `repr` of a string that holds a `'`, a backslash or a non-printable character uses double quotes or escapes instead, and that is not modelled. `chat` only passes listed symbols followed by "USDT".
- `Embedding.RecencyBoost`: metadata values are strings. Reading the `timestamp` with `int()` accepts an optionally signed digit run; whitespace and `_` separators are not modelled.
- `analyze_price_trend` and `analyze_news_sentiment` are one-line wrappers around `chat` and are not modelled.
- `RagService.RagService.Chat` calls `get_exact_price` directly, without the `lru_cache` layer. The cache is modelled on its own as `DataTools.ExactPriceCache`.
- `RagService.ChatAnswer` reports structured data exactly when the intent asked for it. This assumes that a success's formatted text is non-empty, which every lookup's text is.
- `RagService.RagService.Chat`: the `print` of the error, `temperature` and `max_tokens` are not modelled.

## Findings

| source | as written | input that shows it | evidently intended | confidence | as-written member | corrected member |
|---|---|---|---|---|---|---|
| backend/intent_parser.py:62-72 | The DD-MM-YYYY pattern's match is read with `%d/%m/%Y`, so `strptime` always raises and the date is dropped. | "15-01-2024" | Read it with `%d-%m-%Y`, giving 15 January 2024. | not executed | IntentParser.DashDateExample | IntentParser.FirstDateIsFirstParsable |
| backend/embedding_service.py:347-352 | `search` reranks the closest `2 * top_k` hits but returns `all_results[:top_k]`, the distance order. | query "news", top_k 1, an analysis hit at distance 0.1 and a news hit at distance 0.2 | Return the reranked list cut to `top_k`: the news hit, score 0.96 against 0.9. | not executed | Embedding.SearchDropsRerank | Embedding.SearchRerankedShape |
| backend/data_tools.py:475-477 | The at-moment branch asks for `close` without `open`, but `get_price_at_moment` writes both, so its summary is always the generic line. | any successful `get_price_at_moment` result | An at-moment line with the candle time and the close. | not executed | DataTools.MomentSummaryUnreachable | DataTools.SummaryMatchesLookup |
