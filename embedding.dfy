/**
 * `EmbeddingService`: the configuration of the vector store, the E5 text
 * prefixes, the merge of per-collection hits in `search` and the scores of
 * `rerank_results`. The sentence encoder and Chroma are not part of the
 * model: a collection's answer to a query is an input (`Store`).
 */
module Embedding {
  import opened Wrappers
  import opened Text
  import opened Calendar
  import opened Intents
  import opened Sorting

  // ---------------------------------------------------------------------------
  // Configuration

  datatype CandleInterval = FiveMin | FifteenMin | OneHour | FourHour | OneDay

  /** `CandleInterval.value`. */
  function IntervalValue(i: CandleInterval): string {
    match i
    case FiveMin => "5m"
    case FifteenMin => "15m"
    case OneHour => "1h"
    case FourHour => "4h"
    case OneDay => "1d"
  }

  /** `CandleInterval(value)`: the member with that value, if any. */
  function IntervalOf(value: string): (r: Option<CandleInterval>)
    ensures r.Some? ==> IntervalValue(r.value) == value
  {
    if value == "5m" then Some(FiveMin)
    else if value == "15m" then Some(FifteenMin)
    else if value == "1h" then Some(OneHour)
    else if value == "4h" then Some(FourHour)
    else if value == "1d" then Some(OneDay)
    else None
  }

  lemma IntervalRoundTrip(i: CandleInterval)
    ensures IntervalOf(IntervalValue(i)) == Some(i)
  {
  }

  datatype EmbeddingConfig = EmbeddingConfig(
    klineEnabled: bool, klineDays: int, klineInterval: CandleInterval,
    newsEnabled: bool, newsDays: int,
    oiEnabled: bool, oiDays: int,
    analysisEnabled: bool)

  /** `EmbeddingConfig()`: every collection on, 30 days each, hourly candles. */
  const DefaultConfig: EmbeddingConfig := EmbeddingConfig(true, 30, OneHour, true, 30, true, 30, true)

  /** A value of the exported dict. */
  datatype ConfigValue = Flag(on: bool) | Count(n: int) | Label(text: string)

  /** `to_dict()`: one entry per collection with its flag, its day count and the interval's value. */
  function ToDict(c: EmbeddingConfig): (m: map<string, map<string, ConfigValue>>)
    ensures m.Keys == {"kline", "news", "open_interest", "analysis"}
    ensures m["kline"] == map["enabled" := Flag(c.klineEnabled), "days" := Count(c.klineDays),
                              "interval" := Label(IntervalValue(c.klineInterval))]
    ensures m["news"] == map["enabled" := Flag(c.newsEnabled), "days" := Count(c.newsDays)]
    ensures m["open_interest"] == map["enabled" := Flag(c.oiEnabled), "days" := Count(c.oiDays)]
    ensures m["analysis"] == map["enabled" := Flag(c.analysisEnabled)]
  {
    map[
      "kline" := map["enabled" := Flag(c.klineEnabled), "days" := Count(c.klineDays),
                     "interval" := Label(IntervalValue(c.klineInterval))],
      "news" := map["enabled" := Flag(c.newsEnabled), "days" := Count(c.newsDays)],
      "open_interest" := map["enabled" := Flag(c.oiEnabled), "days" := Count(c.oiDays)],
      "analysis" := map["enabled" := Flag(c.analysisEnabled)]]
  }

  /** Reads a configuration back from its exported dict. */
  function FromDict(m: map<string, map<string, ConfigValue>>): Option<EmbeddingConfig> {
    if "kline" in m && "news" in m && "open_interest" in m && "analysis" in m
       && "enabled" in m["kline"] && "days" in m["kline"] && "interval" in m["kline"]
       && "enabled" in m["news"] && "days" in m["news"]
       && "enabled" in m["open_interest"] && "days" in m["open_interest"]
       && "enabled" in m["analysis"]
       && m["kline"]["enabled"].Flag? && m["kline"]["days"].Count? && m["kline"]["interval"].Label?
       && m["news"]["enabled"].Flag? && m["news"]["days"].Count?
       && m["open_interest"]["enabled"].Flag? && m["open_interest"]["days"].Count?
       && m["analysis"]["enabled"].Flag?
    then
      match IntervalOf(m["kline"]["interval"].text)
      case None => None
      case Some(i) =>
        Some(EmbeddingConfig(m["kline"]["enabled"].on, m["kline"]["days"].n, i,
                             m["news"]["enabled"].on, m["news"]["days"].n,
                             m["open_interest"]["enabled"].on, m["open_interest"]["days"].n,
                             m["analysis"]["enabled"].on))
    else None
  }

  /** The exported dict loses nothing: it determines the configuration. */
  lemma ToDictRoundTrip(c: EmbeddingConfig)
    ensures FromDict(ToDict(c)) == Some(c)
  {
    var m := ToDict(c);
    IntervalRoundTrip(c.klineInterval);
    assert m["kline"]["interval"] == Label(IntervalValue(c.klineInterval));
  }

  // ---------------------------------------------------------------------------
  // E5 prefixes

  /** `add_e5_prefix(text, is_query)`. */
  function AddE5Prefix(text: string, isQuery: bool): (r: string)
    ensures isQuery ==> r == "query: " + text
    ensures !isQuery ==> r == "passage: " + text
  {
    if isQuery then "query: " + text else "passage: " + text
  }

  /** The prefix tells a query from a passage, and the text follows it unchanged. */
  lemma E5PrefixDistinct(a: string, b: string)
    ensures AddE5Prefix(a, true) != AddE5Prefix(b, false)
    ensures AddE5Prefix(a, true)[7..] == a && AddE5Prefix(b, false)[9..] == b
  {
    assert AddE5Prefix(a, true)[0] == 'q' && AddE5Prefix(b, false)[0] == 'p';
  }

  // ---------------------------------------------------------------------------
  // Hits and the store

  /** One hit as a collection returns it. */
  datatype StoreHit = StoreHit(id: string, document: string, metadata: map<string, string>, distance: real)

  /** What one collection's `query` returned, or that it raised. */
  datatype Answer = Hits(hits: seq<StoreHit>) | QueryFailed

  /** A collection's answer to a query: its name, the `(start, end)` timestamp filter, and `n_results`. */
  type Store = (string, Option<(string, string)>, int) -> Answer

  /** A merged hit, tagged with the collection type it came from. */
  datatype Hit = Hit(id: string, document: string, metadata: map<string, string>, distance: real, collection: string)

  /** The four factors `rerank_results` writes into a hit as `boosts`. */
  datatype Boosts = Boosts(base: real, keyword: real, recency: real, collection: real)

  function FinalScore(b: Boosts): real {
    b.base * b.keyword * b.recency * b.collection
  }

  /** A hit and the `final_score`/`boosts` keys written into it, when it went through the reranker. */
  datatype SearchHit = SearchHit(hit: Hit, boosts: Option<Boosts>)

  /** Scored hit: `final_score` is the product of the boosts. */
  datatype Scored = Scored(hit: Hit, boosts: Boosts)

  function Distance(h: Hit): real {
    h.distance
  }

  /** The key of `sorted(…, key=final_score, reverse=True)`: the negated score, ascending. */
  function NegScore(s: Scored): real {
    -FinalScore(s.boosts)
  }

  const CollectionOrder: seq<string> := ["kline", "news", "open_interest", "analysis"]

  /** The collections a time range filters. */
  const TimedCollections: seq<string> := ["kline", "news", "open_interest"]

  /** The Chroma collection of a type: `kline_data`, `news_data`, `open_interest_data`, `analysis_data`. */
  function CollectionName(t: string): string {
    t + "_data"
  }

  lemma DistinctTypes()
    ensures "kline" != "news" && "kline" != "open_interest" && "kline" != "analysis"
    ensures "news" != "open_interest" && "news" != "analysis" && "open_interest" != "analysis"
  {
    assert "kline"[0] == 'k' && "news"[0] == 'n' && "open_interest"[0] == 'o' && "analysis"[0] == 'a';
  }

  predicate Enabled(c: EmbeddingConfig, t: string) {
    || (t == "kline" && c.klineEnabled)
    || (t == "news" && c.newsEnabled)
    || (t == "open_interest" && c.oiEnabled)
    || (t == "analysis" && c.analysisEnabled)
  }

  /** `int(pd.to_datetime(day).timestamp())`: the day's midnight read as UTC, in seconds. */
  function EpochSeconds(d: Date): int
    requires Valid(d)
  {
    UnixDays(d) * 86400
  }

  /**
   * The `where` filter of a collection: the start and end days' midnights as
   * text, for a given time range on a kline, news or open-interest collection.
   */
  function WhereFilter(t: string, timeRange: Option<DayRange>): (f: Option<(string, string)>)
    requires timeRange.Some? ==> Valid(timeRange.value.start) && Valid(timeRange.value.end)
    ensures f.Some? <==> timeRange.Some? && t in TimedCollections
    ensures f.Some? ==>
      && ParseInt(f.value.0) == Some(EpochSeconds(timeRange.value.start))
      && ParseInt(f.value.1) == Some(EpochSeconds(timeRange.value.end))
  {
    if timeRange.Some? && t in TimedCollections then
      IntTextRoundTrip(EpochSeconds(timeRange.value.start));
      IntTextRoundTrip(EpochSeconds(timeRange.value.end));
      Some((IntToText(EpochSeconds(timeRange.value.start)), IntToText(EpochSeconds(timeRange.value.end))))
    else None
  }

  predicate RangeOk(timeRange: Option<DayRange>) {
    timeRange.Some? ==> Valid(timeRange.value.start) && Valid(timeRange.value.end)
  }

  function Tag(h: StoreHit, t: string): Hit {
    Hit(h.id, h.document, h.metadata, h.distance, t)
  }

  function TagAll(hs: seq<StoreHit>, t: string): (r: seq<Hit>)
    ensures |r| == |hs| && forall i :: 0 <= i < |hs| ==> r[i] == Tag(hs[i], t)
  {
    seq(|hs|, i requires 0 <= i < |hs| => Tag(hs[i], t))
  }

  /** The inner loop of `search`: one query's hits appended in order, each tagged with its collection. */
  method AppendTagged(all: seq<Hit>, hs: seq<StoreHit>, t: string) returns (out: seq<Hit>)
    ensures out == all + TagAll(hs, t)
  {
    out := all;
    var i := 0;
    while i < |hs|
      invariant 0 <= i <= |hs|
      invariant out == all + TagAll(hs[..i], t)
    {
      out := out + [Tag(hs[i], t)];
      i := i + 1;
    }
    assert hs[..i] == hs;
  }

  /** What one entry of `collection_types` adds: nothing when it is unknown or its query raised. */
  function Contribution(cols: map<string, string>, t: string, topK: int, timeRange: Option<DayRange>, store: Store): seq<Hit>
    requires RangeOk(timeRange)
  {
    if t !in cols then []
    else match store(cols[t], WhereFilter(t, timeRange), topK)
      case QueryFailed => []
      case Hits(hs) => TagAll(hs, t)
  }

  /** The hits of `types`, collection after collection, before sorting. */
  function Merged(cols: map<string, string>, types: seq<string>, topK: int, timeRange: Option<DayRange>, store: Store): seq<Hit>
    requires RangeOk(timeRange)
  {
    if types == [] then []
    else Merged(cols, types[..|types| - 1], topK, timeRange, store) + Contribution(cols, types[|types| - 1], topK, timeRange, store)
  }

  // ---------------------------------------------------------------------------
  // Reranking

  /** `base_score = 1 - distance`. */
  function BaseScore(h: Hit): real {
    1.0 - h.distance
  }

  /** `metadata.get('type', '')`. */
  function MetaType(h: Hit): string {
    if "type" in h.metadata then h.metadata["type"] else ""
  }

  /** The share of the query's words that the document holds: `|Q ∩ D| / max(|Q|, 1)`. */
  function Overlap(q: set<string>, d: set<string>): (o: real)
    ensures 0.0 <= o <= 1.0
    ensures q !! d ==> o == 0.0
  {
    SubsetSize(q * d, q);
    var n := if |q| > 1 then |q| else 1;
    DivAtMostOne(|q * d| as real, n as real);
    |q * d| as real / n as real
  }

  lemma DivAtMostOne(a: real, b: real)
    requires 0.0 <= a <= b && 0.0 < b
    ensures 0.0 <= a / b <= 1.0
  {
    assert a / b * b == a;
  }

  /** `keyword_boost`: 1 plus 0.3 times the share of query words found in the document, times 1.2 for a title. */
  function KeywordBoost(h: Hit, query: string): (k: real)
    ensures 1.0 <= k <= 1.3 * 1.2
    ensures !Contains(MetaType(h), "title") ==> k <= 1.3
  {
    var boost := 1.0 + Overlap(Tokens(Lower(query)), Tokens(Lower(h.document))) * 0.3;
    if Contains(MetaType(h), "title") then boost * 1.2 else boost
  }

  lemma SubsetSize(a: set<string>, b: set<string>)
    requires a <= b
    ensures |a| <= |b|
  {
    assert b == a + (b - a);
  }

  /** `abs(doc_ts - target_end) / 86400`: how many days, as a fraction, lie between the two times. */
  function DaysApart(ts: int, end: int): (d: real)
    ensures d >= 0.0
    ensures d == 0.0 <==> ts == end
  {
    (if ts >= end then ts - end else end - ts) as real / 86400.0
  }

  /**
   * `recency_boost`: with a time range and a readable `timestamp`, by how many
   * days the document lies from the range's end; 1.0 otherwise.
   */
  function RecencyBoost(h: Hit, timeRange: Option<DayRange>): (b: real)
    requires RangeOk(timeRange)
    ensures b == 1.0 || b == 1.05 || b == 1.15 || b == 1.3
    ensures timeRange.None? || "timestamp" !in h.metadata || ParseInt(h.metadata["timestamp"]).None? ==> b == 1.0
    ensures timeRange.Some? && "timestamp" in h.metadata && ParseInt(h.metadata["timestamp"]).Some? ==>
      var d := DaysApart(ParseInt(h.metadata["timestamp"]).value, EpochSeconds(timeRange.value.end));
      && (b == 1.3 <==> d < 1.0)
      && (b == 1.15 <==> 1.0 <= d < 7.0)
      && (b == 1.05 <==> 7.0 <= d < 30.0)
      && (b == 1.0 <==> 30.0 <= d)
  {
    if timeRange.None? || "timestamp" !in h.metadata then 1.0
    else match ParseInt(h.metadata["timestamp"])
      case None => 1.0
      case Some(ts) =>
        var diff := if ts >= EpochSeconds(timeRange.value.end) then ts - EpochSeconds(timeRange.value.end)
                    else EpochSeconds(timeRange.value.end) - ts;
        if diff < 86400 then 1.3
        else if diff < 7 * 86400 then 1.15
        else if diff < 30 * 86400 then 1.05
        else 1.0
  }

  /** `collection_boost`: news hits for a query naming news, else kline hits for a query naming the price. */
  function CollectionBoost(h: Hit, query: string): (b: real)
    ensures b == 1.0 || b == 1.2 || b == 1.25
    ensures b == 1.2 <==> Contains(Lower(query), "news") && h.collection == "news"
    ensures b == 1.25 <==>
      !(Contains(Lower(query), "news") && h.collection == "news")
      && (Contains(Lower(query), "giá") || Contains(Lower(query), "price")) && h.collection == "kline"
  {
    var q := Lower(query);
    if Contains(q, "news") && h.collection == "news" then 1.2
    else if Contains(q, "giá") || Contains(q, "price") then (if h.collection == "kline" then 1.25 else 1.0)
    else 1.0
  }

  function BoostsFor(h: Hit, query: string, timeRange: Option<DayRange>): Boosts
    requires RangeOk(timeRange)
  {
    Boosts(BaseScore(h), KeywordBoost(h, query), RecencyBoost(h, timeRange), CollectionBoost(h, query))
  }

  /** Every boost is at least 1, so the score is at least the similarity when that is not negative. */
  lemma ScoreAtLeastBase(h: Hit, query: string, timeRange: Option<DayRange>)
    requires RangeOk(timeRange) && h.distance <= 1.0
    ensures FinalScore(BoostsFor(h, query, timeRange)) >= BaseScore(h) >= 0.0
  {
    BoostedScore(BoostsFor(h, query, timeRange));
  }

  lemma BoostedScore(b: Boosts)
    requires b.base >= 0.0 && b.keyword >= 1.0 && b.recency >= 1.0 && b.collection >= 1.0
    ensures FinalScore(b) >= b.base
  {
    Grows(b.base, b.keyword);
    Grows(b.base * b.keyword, b.recency);
    Grows(b.base * b.keyword * b.recency, b.collection);
  }

  lemma Grows(a: real, k: real)
    requires a >= 0.0 && k >= 1.0
    ensures a * k >= a
  {
    assert a * k - a == a * (k - 1.0);
  }

  /** The reranked order: stable by descending score. */
  function Ranked(scored: seq<Scored>): (r: seq<Scored>)
    ensures multiset(r) == multiset(scored) && |r| == |scored|
    ensures forall i, j :: 0 <= i < j < |r| ==> FinalScore(r[i].boosts) >= FinalScore(r[j].boosts)
  {
    var r := SortBy(scored, NegScore);
    assert forall i, j :: 0 <= i < j < |r| ==> NegScore(r[i]) <= NegScore(r[j]);
    r
  }

  /** Hits with equal scores keep the order they had. */
  lemma RankedStable(scored: seq<Scored>, score: real)
    ensures WithKey(Ranked(scored), NegScore, -score) == WithKey(scored, NegScore, -score)
  {
    SortByStable(scored, NegScore, -score);
  }

  /** Every hit with its boosts, in the input order. */
  function ScoreAll(results: seq<Hit>, query: string, timeRange: Option<DayRange>): (r: seq<Scored>)
    requires RangeOk(timeRange)
    ensures |r| == |results|
    ensures forall i :: 0 <= i < |r| ==> r[i] == Scored(results[i], BoostsFor(results[i], query, timeRange))
  {
    seq(|results|, i requires 0 <= i < |results| => Scored(results[i], BoostsFor(results[i], query, timeRange)))
  }

  /**
   * `rerank_results`: the loop writes the boosts into each hit (`annotated`,
   * the caller's dicts in their order) and the hits come back by descending
   * final score (`ranked`).
   */
  method RerankResults(results: seq<Hit>, query: string, timeRange: Option<DayRange>)
    returns (annotated: seq<Scored>, ranked: seq<Scored>)
    requires RangeOk(timeRange)
    ensures annotated == ScoreAll(results, query, timeRange)
    ensures ranked == Ranked(annotated)
  {
    annotated := ScoreHits(results, query, timeRange);
    ranked := Ranked(annotated);
  }

  /** The loop of `rerank_results`: each hit gets its boosts, in the input order. */
  method ScoreHits(results: seq<Hit>, query: string, timeRange: Option<DayRange>) returns (annotated: seq<Scored>)
    requires RangeOk(timeRange)
    ensures annotated == ScoreAll(results, query, timeRange)
  {
    annotated := [];
    var i := 0;
    while i < |results|
      invariant 0 <= i <= |results| && |annotated| == i
      invariant forall k :: 0 <= k < i ==> annotated[k] == Scored(results[k], BoostsFor(results[k], query, timeRange))
    {
      var r := results[i];
      var b := Boosts(BaseScore(r), KeywordBoost(r, query), RecencyBoost(r, timeRange), CollectionBoost(r, query));
      annotated := annotated + [Scored(r, b)];
      i := i + 1;
    }
  }

  // ---------------------------------------------------------------------------
  // Search

  function AsSearchHit(s: Scored): SearchHit {
    SearchHit(s.hit, Some(s.boosts))
  }

  function Unscored(hs: seq<Hit>): (r: seq<SearchHit>)
    ensures |r| == |hs| && forall i :: 0 <= i < |hs| ==> r[i] == SearchHit(hs[i], None)
  {
    seq(|hs|, i requires 0 <= i < |hs| => SearchHit(hs[i], None))
  }

  function Annotated(scored: seq<Scored>): (r: seq<SearchHit>)
    ensures |r| == |scored| && forall i :: 0 <= i < |r| ==> r[i] == AsSearchHit(scored[i])
  {
    seq(|scored|, i requires 0 <= i < |scored| => AsSearchHit(scored[i]))
  }

  /**
   * What `search` returns as written: the merged hits sorted by distance and
   * cut to `top_k`; the first `2 * top_k` of them carry the boosts the
   * reranker wrote into them, but the reranked order is dropped.
   */
  function SearchAsWritten(cols: map<string, string>, types: seq<string>, query: string, topK: int,
                           timeRange: Option<DayRange>, store: Store): seq<SearchHit>
    requires RangeOk(timeRange)
  {
    var sorted := SortBy(Merged(cols, types, topK, timeRange, store), Distance);
    var top := PyPrefix(sorted, topK * 2);
    PyPrefix(Annotated(ScoreAll(top, query, timeRange)) + Unscored(sorted[|top|..]), topK)
  }

  /** `search` returning the reranked list it computes: the best `top_k` of the closest `2 * top_k` by final score. */
  function SearchReranked(cols: map<string, string>, types: seq<string>, query: string, topK: int,
                          timeRange: Option<DayRange>, store: Store): seq<SearchHit>
    requires RangeOk(timeRange)
  {
    var sorted := SortBy(Merged(cols, types, topK, timeRange, store), Distance);
    var top := PyPrefix(sorted, topK * 2);
    Annotated(PyPrefix(Ranked(ScoreAll(top, query, timeRange)), topK))
  }

  /** A merged hit came from a listed, known collection whose query returned it. */
  lemma {:induction false} MergedOrigin(cols: map<string, string>, types: seq<string>, topK: int,
                                        timeRange: Option<DayRange>, store: Store, h: Hit)
    requires RangeOk(timeRange) && h in Merged(cols, types, topK, timeRange, store)
    ensures h.collection in types && h.collection in cols
    ensures store(cols[h.collection], WhereFilter(h.collection, timeRange), topK).Hits?
    ensures StoreHit(h.id, h.document, h.metadata, h.distance)
            in store(cols[h.collection], WhereFilter(h.collection, timeRange), topK).hits
  {
    var front := types[..|types| - 1];
    var t := types[|types| - 1];
    if h in Merged(cols, front, topK, timeRange, store) {
      MergedOrigin(cols, front, topK, timeRange, store, h);
      assert h.collection in types by { assert forall x :: x in front ==> x in types; }
    } else {
      var hs := store(cols[t], WhereFilter(t, timeRange), topK).hits;
      var i :| 0 <= i < |hs| && TagAll(hs, t)[i] == h;
      assert hs[i] == StoreHit(h.id, h.document, h.metadata, h.distance);
    }
  }

  /** Every hit a listed, known collection returned is in the merge. */
  lemma {:induction false} MergedComplete(cols: map<string, string>, types: seq<string>, topK: int,
                                          timeRange: Option<DayRange>, store: Store, t: string, sh: StoreHit)
    requires RangeOk(timeRange) && t in types && t in cols
    requires store(cols[t], WhereFilter(t, timeRange), topK).Hits?
    requires sh in store(cols[t], WhereFilter(t, timeRange), topK).hits
    ensures Tag(sh, t) in Merged(cols, types, topK, timeRange, store)
  {
    var front := types[..|types| - 1];
    assert types == front + [types[|types| - 1]];
    if t in front {
      MergedComplete(cols, front, topK, timeRange, store, t, sh);
    } else {
      var hs := store(cols[t], WhereFilter(t, timeRange), topK).hits;
      var i :| 0 <= i < |hs| && hs[i] == sh;
      assert TagAll(hs, t)[i] == Tag(sh, t);
    }
  }

  /**
   * `search` as written returns the `top_k` closest hits by distance, each
   * carrying the boosts the reranker wrote into it.
   */
  lemma SearchAsWrittenShape(cols: map<string, string>, types: seq<string>, query: string, topK: int,
                             timeRange: Option<DayRange>, store: Store)
    requires RangeOk(timeRange) && topK >= 0
    ensures var r := SearchAsWritten(cols, types, query, topK, timeRange, store);
      var m := Merged(cols, types, topK, timeRange, store);
      && |r| == Min(topK, |m|)
      && (forall i :: 0 <= i < |r| ==> r[i].hit == SortBy(m, Distance)[i] && r[i].hit in m)
      && (forall i :: 0 <= i < |r| ==> r[i].boosts == Some(BoostsFor(r[i].hit, query, timeRange)))
      && (forall i, j :: 0 <= i < j < |r| ==> r[i].hit.distance <= r[j].hit.distance)
  {
    var m := Merged(cols, types, topK, timeRange, store);
    var sorted := SortBy(m, Distance);
    var top := PyPrefix(sorted, topK * 2);
    var all := Annotated(ScoreAll(top, query, timeRange)) + Unscored(sorted[|top|..]);
    var r := PyPrefix(all, topK);
    assert r == SearchAsWritten(cols, types, query, topK, timeRange, store);
    forall i | 0 <= i < |r|
      ensures r[i].hit == sorted[i] && r[i].hit in m
      ensures r[i].boosts == Some(BoostsFor(r[i].hit, query, timeRange))
    {
      assert r[i] == all[i] == AsSearchHit(ScoreAll(top, query, timeRange)[i]);
      assert sorted[i] in multiset(m);
    }
  }

  /**
   * `search` returning its reranked list gives `top_k` of the `2 * top_k`
   * closest hits, by non-increasing final score.
   */
  lemma SearchRerankedShape(cols: map<string, string>, types: seq<string>, query: string, topK: int,
                            timeRange: Option<DayRange>, store: Store)
    requires RangeOk(timeRange) && topK >= 0
    ensures var r := SearchReranked(cols, types, query, topK, timeRange, store);
      var m := Merged(cols, types, topK, timeRange, store);
      && |r| == Min(topK, |m|)
      && (forall i :: 0 <= i < |r| ==> r[i].hit in PyPrefix(SortBy(m, Distance), topK * 2))
      && (forall i :: 0 <= i < |r| ==> r[i].boosts == Some(BoostsFor(r[i].hit, query, timeRange)))
      && (forall i, j :: 0 <= i < j < |r| ==> FinalScore(r[i].boosts.value) >= FinalScore(r[j].boosts.value))
  {
    var m := Merged(cols, types, topK, timeRange, store);
    var top := PyPrefix(SortBy(m, Distance), topK * 2);
    RerankedPrefix(top, query, topK, timeRange);
  }

  /** The first `top_k` of the reranked hits, with their boosts. */
  lemma RerankedPrefix(top: seq<Hit>, query: string, topK: int, timeRange: Option<DayRange>)
    requires RangeOk(timeRange) && topK >= 0
    ensures var r := Annotated(PyPrefix(Ranked(ScoreAll(top, query, timeRange)), topK));
      && |r| == Min(topK, |top|)
      && (forall i :: 0 <= i < |r| ==> r[i].hit in top)
      && (forall i :: 0 <= i < |r| ==> r[i].boosts == Some(BoostsFor(r[i].hit, query, timeRange)))
      && (forall i, j :: 0 <= i < j < |r| ==> FinalScore(r[i].boosts.value) >= FinalScore(r[j].boosts.value))
  {
    var ranked := Ranked(ScoreAll(top, query, timeRange));
    RankedFromTop(top, query, timeRange);
    var r := Annotated(PyPrefix(ranked, topK));
    forall i | 0 <= i < |r|
      ensures r[i].hit in top && r[i].boosts == Some(BoostsFor(r[i].hit, query, timeRange))
    {
      assert r[i] == AsSearchHit(ranked[i]);
    }
  }

  /** Each reranked entry is one of the hits handed to the reranker, with that hit's boosts. */
  lemma RankedFromTop(top: seq<Hit>, query: string, timeRange: Option<DayRange>)
    requires RangeOk(timeRange)
    ensures forall s :: s in Ranked(ScoreAll(top, query, timeRange)) ==>
      s.hit in top && s.boosts == BoostsFor(s.hit, query, timeRange)
  {
    var scored := ScoreAll(top, query, timeRange);
    forall s | s in Ranked(scored) ensures s.hit in top && s.boosts == BoostsFor(s.hit, query, timeRange) {
      assert s in multiset(scored);
      var j :| 0 <= j < |scored| && scored[j] == s;
    }
  }

  /** A store whose analysis collection holds a close hit and whose news collection a farther one. */
  function ExampleStore(name: string, filter: Option<(string, string)>, n: int): Answer {
    if name == "analysis_data" then Hits([StoreHit("a", "", map[], 0.1)])
    else if name == "news_data" then Hits([StoreHit("n", "", map[], 0.2)])
    else QueryFailed
  }

  /**
   * For the query "news" with `top_k = 1`, the reranker puts the news hit
   * first (0.8 * 1.2 > 0.9), but `search` returns the closer analysis hit.
   */
  lemma SearchDropsRerank()
    ensures var cols := map["analysis" := CollectionName("analysis"), "news" := CollectionName("news")];
      && SearchAsWritten(cols, ["analysis", "news"], "news", 1, None, ExampleStore)
         == [SearchHit(Hit("a", "", map[], 0.1, "analysis"), Some(Boosts(0.9, 1.0, 1.0, 1.0)))]
      && SearchReranked(cols, ["analysis", "news"], "news", 1, None, ExampleStore)
         == [SearchHit(Hit("n", "", map[], 0.2, "news"), Some(Boosts(0.8, 1.0, 1.0, 1.2)))]
  {
    var cols := map["analysis" := CollectionName("analysis"), "news" := CollectionName("news")];
    var a := Hit("a", "", map[], 0.1, "analysis");
    var n := Hit("n", "", map[], 0.2, "news");
    ExampleSorted();
    TwoHitsAsWritten(cols, ["analysis", "news"], "news", None, ExampleStore, a, n);
    ExampleBoosts();
    TwoHitsReranked(cols, ["analysis", "news"], "news", None, ExampleStore, a, n,
                    Boosts(0.9, 1.0, 1.0, 1.0), Boosts(0.8, 1.0, 1.0, 1.2));
    ExampleRanked();
  }

  /** With two merged hits and `top_k = 1`, `search` returns the closer one. */
  lemma TwoHitsAsWritten(cols: map<string, string>, types: seq<string>, query: string, timeRange: Option<DayRange>,
                         store: Store, a: Hit, n: Hit)
    requires RangeOk(timeRange)
    requires SortBy(Merged(cols, types, 1, timeRange, store), Distance) == [a, n]
    ensures SearchAsWritten(cols, types, query, 1, timeRange, store) == [AsSearchHit(Scored(a, BoostsFor(a, query, timeRange)))]
  {
    var sorted := [a, n];
    assert PyPrefix(sorted, 2) == sorted;
    var scored := ScoreAll(sorted, query, timeRange);
    var all := Annotated(scored) + Unscored(sorted[2..]);
    assert all[0] == AsSearchHit(Scored(a, BoostsFor(a, query, timeRange)));
    assert PyPrefix(all, 1) == [all[0]];
  }

  /** With two merged hits and `top_k = 1`, the reranked search returns the better scored one. */
  lemma TwoHitsReranked(cols: map<string, string>, types: seq<string>, query: string, timeRange: Option<DayRange>,
                        store: Store, a: Hit, n: Hit, ba: Boosts, bn: Boosts)
    requires RangeOk(timeRange)
    requires SortBy(Merged(cols, types, 1, timeRange, store), Distance) == [a, n]
    requires BoostsFor(a, query, timeRange) == ba && BoostsFor(n, query, timeRange) == bn
    ensures SearchReranked(cols, types, query, 1, timeRange, store) == [AsSearchHit(Ranked([Scored(a, ba), Scored(n, bn)])[0])]
  {
    assert SearchReranked(cols, types, query, 1, timeRange, store)
           == Annotated(PyPrefix(Ranked(ScoreAll([a, n], query, timeRange)), 1)) by {
      assert PyPrefix([a, n], 2) == [a, n];
    }
    ScoreTwo(a, n, query, timeRange);
    FirstOnly(Ranked([Scored(a, ba), Scored(n, bn)]));
  }

  lemma ScoreTwo(a: Hit, n: Hit, query: string, timeRange: Option<DayRange>)
    requires RangeOk(timeRange)
    ensures ScoreAll([a, n], query, timeRange)
            == [Scored(a, BoostsFor(a, query, timeRange)), Scored(n, BoostsFor(n, query, timeRange))]
  {
  }

  lemma FirstOnly(rk: seq<Scored>)
    requires |rk| >= 1
    ensures Annotated(PyPrefix(rk, 1)) == [AsSearchHit(rk[0])]
  {
    assert PyPrefix(rk, 1) == [rk[0]];
  }

  lemma ExampleSorted()
    ensures var cols := map["analysis" := CollectionName("analysis"), "news" := CollectionName("news")];
      var sorted := SortBy(Merged(cols, ["analysis", "news"], 1, None, ExampleStore), Distance);
      && sorted == [Hit("a", "", map[], 0.1, "analysis"), Hit("n", "", map[], 0.2, "news")]
      && PyPrefix(sorted, 2) == sorted
  {
    var a := Hit("a", "", map[], 0.1, "analysis");
    var n := Hit("n", "", map[], 0.2, "news");
    ExampleMerged();
    SortedPair(a, n, Distance);
  }

  /** The example store's two collections give one hit each, analysis first. */
  lemma ExampleMerged()
    ensures var cols := map["analysis" := CollectionName("analysis"), "news" := CollectionName("news")];
      Merged(cols, ["analysis", "news"], 1, None, ExampleStore)
      == [Hit("a", "", map[], 0.1, "analysis"), Hit("n", "", map[], 0.2, "news")]
  {
    var cols := map["analysis" := CollectionName("analysis"), "news" := CollectionName("news")];
    assert cols["analysis"] == "analysis_data" && cols["news"] == "news_data";
    assert Contribution(cols, "analysis", 1, None, ExampleStore) == [Hit("a", "", map[], 0.1, "analysis")];
    assert Contribution(cols, "news", 1, None, ExampleStore) == [Hit("n", "", map[], 0.2, "news")];
    assert ["analysis", "news"][..1] == ["analysis"];
    assert ["analysis"][..0] == [];
  }

  /** Two elements already in key order stay as they are. */
  lemma SortedPair<T(!new)>(x: T, y: T, key: T -> real)
    requires key(x) <= key(y)
    ensures SortBy([x, y], key) == [x, y] && PyPrefix([x, y], 2) == [x, y]
  {
    assert [x, y][..1] == [x];
    assert [x][..0] == [];
    assert SortBy([x], key) == [x];
  }

  /** Both documents are empty, so the keyword boost is 1; the query names news but not the price. */
  lemma ExampleBoosts()
    ensures BoostsFor(Hit("a", "", map[], 0.1, "analysis"), "news", None) == Boosts(0.9, 1.0, 1.0, 1.0)
    ensures BoostsFor(Hit("n", "", map[], 0.2, "news"), "news", None) == Boosts(0.8, 1.0, 1.0, 1.2)
  {
    EmptyDocumentKeyword(Hit("a", "", map[], 0.1, "analysis"), "news");
    EmptyDocumentKeyword(Hit("n", "", map[], 0.2, "news"), "news");
    NewsQuery();
  }

  lemma EmptyDocumentKeyword(h: Hit, query: string)
    requires h.document == "" && h.metadata == map[]
    ensures KeywordBoost(h, query) == 1.0
  {
    assert Lower("") == "";
    assert Words("") == [];
    assert Tokens(Lower(h.document)) == {};
    assert MetaType(h) == "";
    assert !Contains("", "title");
  }

  lemma NewsQuery()
    ensures Contains(Lower("news"), "news")
    ensures !Contains(Lower("news"), "giá") && !Contains(Lower("news"), "price")
  {
    assert Lower("news") == "news";
    MissingCharNotContained("news", "giá", 2);
    MissingCharNotContained("news", "price", 0);
    assert OccursAt("news", 0, "news");
  }

  lemma ExampleRanked()
    ensures var a := Scored(Hit("a", "", map[], 0.1, "analysis"), Boosts(0.9, 1.0, 1.0, 1.0));
      var n := Scored(Hit("n", "", map[], 0.2, "news"), Boosts(0.8, 1.0, 1.0, 1.2));
      Ranked([a, n]) == [n, a]
  {
    var a := Scored(Hit("a", "", map[], 0.1, "analysis"), Boosts(0.9, 1.0, 1.0, 1.0));
    var n := Scored(Hit("n", "", map[], 0.2, "news"), Boosts(0.8, 1.0, 1.0, 1.2));
    assert [a, n][..1] == [a];
    assert SortBy([a], NegScore) == [a];
  }

  class EmbeddingService {
    const config: EmbeddingConfig
    /** `collections`: collection type to the Chroma collection it queries. */
    var collections: map<string, string>

    /** `__init__`: one collection per enabled type, named after it. */
    constructor (config: Option<EmbeddingConfig>)
      ensures this.config == config.GetOr(DefaultConfig)
      ensures forall t :: t in collections <==> t in CollectionOrder && Enabled(this.config, t)
      ensures forall t :: t in collections ==> collections[t] == CollectionName(t)
    {
      DistinctTypes();
      this.config := config.GetOr(DefaultConfig);
      var c := config.GetOr(DefaultConfig);
      var cols: map<string, string> := map[];
      if c.klineEnabled {
        cols := cols["kline" := CollectionName("kline")];
      }
      if c.newsEnabled {
        cols := cols["news" := CollectionName("news")];
      }
      if c.oiEnabled {
        cols := cols["open_interest" := CollectionName("open_interest")];
      }
      if c.analysisEnabled {
        cols := cols["analysis" := CollectionName("analysis")];
      }
      collections := cols;
    }

    /** `list(self.collections.keys())`: the active types in the order `__init__` added them. */
    function ActiveTypes(): (r: seq<string>)
      reads this
      ensures forall t :: t in r <==> t in collections && t in CollectionOrder
    {
      Filter(CollectionOrder)
    }

    function Filter(s: seq<string>): (r: seq<string>)
      reads this
      ensures forall t :: t in r <==> t in s && t in collections
    {
      if s == [] then []
      else Filter(s[..|s| - 1]) + (if s[|s| - 1] in collections then [s[|s| - 1]] else [])
    }

    /** `search(query, collection_types, top_k, time_range)` as written. */
    method Search(query: string, collectionTypes: Option<seq<string>>, topK: int, timeRange: Option<DayRange>, store: Store)
      returns (hits: seq<SearchHit>)
      requires RangeOk(timeRange)
      ensures hits == SearchAsWritten(collections, collectionTypes.GetOr(ActiveTypes()), query, topK, timeRange, store)
    {
      var all := MergeHits(collectionTypes.GetOr(ActiveTypes()), topK, timeRange, store);
      all := SortBy(all, Distance);
      var top := PyPrefix(all, topK * 2);
      var annotated, reranked := RerankResults(top, query, timeRange);
      hits := PyPrefix(Annotated(annotated) + Unscored(all[|top|..]), topK);
    }

    /** `search` returning its reranked list. */
    method SearchRanked(query: string, collectionTypes: Option<seq<string>>, topK: int, timeRange: Option<DayRange>,
                        store: Store)
      returns (hits: seq<SearchHit>)
      requires RangeOk(timeRange)
      ensures hits == SearchReranked(collections, collectionTypes.GetOr(ActiveTypes()), query, topK, timeRange, store)
    {
      var all := MergeHits(collectionTypes.GetOr(ActiveTypes()), topK, timeRange, store);
      all := SortBy(all, Distance);
      var top := PyPrefix(all, topK * 2);
      var annotated, reranked := RerankResults(top, query, timeRange);
      hits := Annotated(PyPrefix(reranked, topK));
    }

    /** The loop of `search`: each known collection's hits are appended in turn; a failing query adds none. */
    method MergeHits(types: seq<string>, topK: int, timeRange: Option<DayRange>, store: Store) returns (all: seq<Hit>)
      requires RangeOk(timeRange)
      ensures all == Merged(collections, types, topK, timeRange, store)
    {
      all := [];
      var k := 0;
      while k < |types|
        invariant 0 <= k <= |types|
        invariant all == Merged(collections, types[..k], topK, timeRange, store)
      {
        var t := types[k];
        assert types[..k + 1][..k] == types[..k];
        ghost var before := all;
        if t in collections {
          var answer := store(collections[t], WhereFilter(t, timeRange), topK);
          if answer.Hits? {
            all := AppendTagged(all, answer.hits, t);
          }
        }
        assert all == before + Contribution(collections, t, topK, timeRange, store);
        k := k + 1;
      }
      assert types[..k] == types;
    }
  }
}
