/**
 * `RAGService`: resolving a message into an intent, the structured lookup
 * its intent routes to, the vector-search context, the conversation history
 * and what `chat` returns. The language model, the database and the vector
 * store are inputs: a prompt's answer (`Llm`), the rows each lookup's query
 * returns (`Database`) and each collection's answer (`Store`).
 */
module RagService {
  import opened Wrappers
  import opened Text
  import opened Calendar
  import opened Patterns
  import opened Intents
  import opened RagIntent
  import opened DataTools
  import opened Sorting
  import opened Embedding

  datatype Role = User | Assistant

  /** An entry of `conversation_history`. */
  datatype Message = Message(role: Role, content: string)

  /** `conversation_history[-10:]`: the last ten entries, that is five exchanges. */
  function LastTen(h: seq<Message>): (r: seq<Message>)
    ensures |r| == if |h| <= 10 then |h| else 10
    ensures r == h[|h| - |r|..]
  {
    if |h| <= 10 then h else h[|h| - 10..]
  }

  // ---------------------------------------------------------------------------
  // Structured data

  /** Which lookup the intent calls, with the arguments it passes. */
  datatype Route =
    | AtMoment(ticker: string, time: DateTime)
    | ExactDay(ticker: string, date: Date)
    | OverRange(ticker: string, start: Date, end: Date)
    | Overview(ticker: string)
    | NoLookup

  /**
   * The lookup `chat` calls: none unless the intent asks for structured data;
   * else by `exact_time` (a moment when its text holds a space and a colon),
   * else by `time_range`, else the market overview.
   */
  function RouteOf(i: Intent): (r: Route)
    requires Renderable(i)
    ensures r.NoLookup? <==> !i.structured
    ensures r.AtMoment? <==> i.structured && i.exactTime.Some? && i.exactTime.value.AtMinute?
    ensures r.ExactDay? <==> i.structured && i.exactTime.Some? && i.exactTime.value.OnDay?
    ensures r.OverRange? <==> i.structured && i.exactTime.None? && i.timeRange.Some?
    ensures r.Overview? <==> i.structured && i.exactTime.None? && i.timeRange.None?
    ensures !r.NoLookup? ==> r.ticker == i.ticker
    ensures r.AtMoment? ==> r.time == i.exactTime.value.time && IsPyDateTime(r.time)
    ensures r.ExactDay? ==> r.date == i.exactTime.value.date && IsPyDate(r.date)
    ensures r.OverRange? ==> r.start == i.timeRange.value.start && r.end == i.timeRange.value.end
  {
    if !i.structured then NoLookup
    else if i.exactTime.Some? then
      NamesMomentIffMinute(i.exactTime.value);
      if NamesMoment(ExactTimeText(i.exactTime.value)) then AtMoment(i.ticker, i.exactTime.value.time)
      else ExactDay(i.ticker, i.exactTime.value.date)
    else if i.timeRange.Some? then OverRange(i.ticker, i.timeRange.value.start, i.timeRange.value.end)
    else Overview(i.ticker)
  }

  /** What each lookup's query returns: the rows of a day, of a range, of the whole table, and the latest `limit` rows. */
  datatype Database = Database(
    day: (string, Date) -> Fetch,
    range: (string, Date, Date) -> Fetch,
    table: string -> Fetch,
    latest: (string, nat) -> Fetch)

  predicate RouteOk(r: Route) {
    match r
    case AtMoment(_, t) => IsPyDateTime(t)
    case ExactDay(_, d) => IsPyDate(d)
    case OverRange(_, s, e) => IsPyDate(s) && IsPyDate(e)
    case _ => true
  }

  function Lookup(r: Route, db: Database): (res: Option<LookupResult>)
    requires RouteOk(r)
    ensures res.None? <==> r.NoLookup?
  {
    match r
    case AtMoment(t, at) => Some(PriceAtMoment(t, at, db.table(t)))
    case ExactDay(t, d) => Some(ExactPrice(t, d, db.day(t, d)))
    case OverRange(t, s, e) => Some(PriceRange(t, s, e, db.range(t, s, e)))
    case Overview(t) => Some(MarketOverview(t, db.latest(t, OverviewLimit)))
    case NoLookup => None
  }

  /** `structured_data`: empty, a no-data notice, an error line, or the lookup's figures. */
  datatype Structured = NoStructured | NoDataNotice(text: string) | ErrorNotice(text: string) | Facts(data: Data)

  const ErrorMark: string := "❌ Lỗi: "

  /** The notice `chat` writes for a `no_data` result. */
  function NoDataText(message: string, suggestion: string): (s: string)
    ensures Contains(s, message) && Contains(s, suggestion)
  {
    Notice("\n          **KHÔNG CÓ DỮ LIỆU TRONG DATABASE**\n\n        ", message, "\n         Gợi ý: ", suggestion,
           "\n        ")
  }

  /** The text `chat` builds from a lookup's result; a success keeps its figures. */
  function StructuredOf(res: Option<LookupResult>): (s: Structured)
    ensures s.NoStructured? <==> res.None?
    ensures s.Facts? <==> res.Some? && res.value.Found?
    ensures s.Facts? ==> s.data == res.value.data
    ensures s.NoDataNotice? <==> res.Some? && res.value.NoData?
    ensures s.NoDataNotice? ==> Contains(s.text, res.value.message) && Contains(s.text, res.value.suggestion)
    ensures s.ErrorNotice? <==> res.Some? && res.value.Failed?
    ensures s.ErrorNotice? ==>
      |s.text| == |ErrorMark| + |res.value.message| && s.text[..|ErrorMark|] == ErrorMark && s.text[|ErrorMark|..] == res.value.message
  {
    match res
    case None => NoStructured
    case Some(NoData(m, sug, _)) => NoDataNotice(NoDataText(m, sug))
    case Some(Failed(m, _, _)) => ErrorNotice(ErrorMark + m)
    case Some(Found(d)) => Facts(d)
  }

  // ---------------------------------------------------------------------------
  // Vector context

  const NoContext: string := "Không tìm thấy thông tin liên quan."

  /** `[date] ` when the metadata has a date, else nothing. */
  function DateInfo(h: Hit): string {
    if "date" in h.metadata then "[" + h.metadata["date"] + "]" else ""
  }

  /** The layout of a part: the number, the date information and a space, then the tail. */
  lemma PartLayout(number: string, info: string, tail: string)
    ensures var s := number + info + " " + tail;
      && s[..|number|] == number
      && s[|number|..|number| + |info| + 1] == info + " "
      && |s| >= |tail| && s[|s| - |tail|..] == tail && Contains(s, tail)
  {
    var s := number + info + " " + tail;
    assert s == (number + info + " ") + tail + [];
    ContainsMiddle(number + info + " ", tail, []);
  }

  /**
   * One numbered part: `"{idx}. {date_info} {content[:300]}..."`. After the
   * number comes the bracketed date exactly when the metadata has one, and the
   * part ends with the first 300 characters of the document and "...".
   */
  function Entry(idx: nat, r: SearchHit): (s: string)
    ensures |s| > |NatToText(idx)| + 2 && s[..|NatToText(idx)| + 2] == NatToText(idx) + ". "
    ensures OccursAt(s, |NatToText(idx)| + 2, "[") <==> "date" in r.hit.metadata
    ensures "date" in r.hit.metadata ==> OccursAt(s, |NatToText(idx)| + 2, "[" + r.hit.metadata["date"] + "] ")
    ensures var tail := PyPrefix(r.hit.document, 300) + "...";
      |s| >= |tail| && s[|s| - |tail|..] == tail && Contains(s, tail)
  {
    var number := NatToText(idx) + ". ";
    var info := DateInfo(r.hit);
    var tail := PyPrefix(r.hit.document, 300) + "...";
    PartLayout(number, info, tail);
    var s := number + info + " " + tail;
    assert s[|number|] == (info + " ")[0];
    s
  }

  function Entries(results: seq<SearchHit>): (e: seq<string>)
    ensures |e| == |results| && forall i :: 0 <= i < |e| ==> e[i] == Entry(i + 1, results[i])
  {
    seq(|results|, i requires 0 <= i < |results| => Entry(i + 1, results[i]))
  }

  /** `create_context_from_results(results)`. */
  function ContextText(results: seq<SearchHit>): string {
    if results == [] then NoContext else Join(Entries(results), "\n\n")
  }

  /** The context names every hit: its number, its date and the first 300 characters of its document. */
  lemma ContextHoldsEveryHit(results: seq<SearchHit>, k: nat)
    requires k < |results|
    ensures Contains(ContextText(results), Entry(k + 1, results[k]))
  {
    JoinHolds(Entries(results), "\n\n", k);
  }

  /** The context is never empty: without results it says so. */
  lemma ContextNeverEmpty(results: seq<SearchHit>)
    ensures ContextText(results) != ""
  {
    if results != [] {
      ContextHoldsEveryHit(results, 0);
      assert |Entry(1, results[0])| > 0;
    }
  }

  // ---------------------------------------------------------------------------
  // chat

  /** What the model is asked: the intent's type, the history view, both kinds of context and the question. */
  datatype Prompt = Prompt(kind: QueryType, past: seq<Message>, structured: Structured, context: string, question: string)

  /** The model's reply text, or the text of the exception its call raised. */
  type Llm = Prompt -> Result<string, string>

  /** What `chat` returns; `Crashed` is the `OverflowError` `parse_intent` lets through. */
  datatype ChatReply =
    | Answer(response: string, sources: seq<SearchHit>, intent: Intent, hasStructured: bool, hasVector: bool)
    | ErrorReply(response: string)
    | Crashed

  const ApologyMark: string := "❌ Xin lỗi, tôi gặp lỗi: "

  /** `search_collections or ['news', 'analysis']`. */
  function SearchTypes(searchCollections: Option<seq<string>>): (t: seq<string>)
    ensures t != []
  {
    if searchCollections.None? || searchCollections.value == [] then ["news", "analysis"] else searchCollections.value
  }

  /** The history after `chat` and its reply, from the history before. */
  function Respond(past: seq<Message>, msg: string, searchCollections: Option<seq<string>>, topK: int, now: DateTime,
                   db: Database, cols: map<string, string>, store: Store, llm: Llm): (seq<Message>, ChatReply)
    requires ValidClock(now)
  {
    match Resolve(msg, now)
    case Overflow => (past, Crashed)
    case Resolved(i) =>
      ResolvedRenderable(msg, now);
      Reply(past, msg, i, searchCollections, topK, db, cols, store, llm)
  }

  /** The steps of `chat` after its intent `i` is resolved. */
  function Reply(past: seq<Message>, msg: string, i: Intent, searchCollections: Option<seq<string>>, topK: int,
                 db: Database, cols: map<string, string>, store: Store, llm: Llm): (seq<Message>, ChatReply)
    requires Renderable(i)
  {
    var results := SearchResults(msg, i, searchCollections, topK, cols, store);
    var prompt := ChatPrompt(past, msg, i, searchCollections, topK, db, cols, store);
    match llm(prompt)
    case Failure(e) => (past, ErrorReply(ApologyMark + e))
    case Success(text) =>
      (past + [Message(User, msg), Message(Assistant, text)],
       Answer(text, PyPrefix(results, 3), i, !prompt.structured.NoStructured?, prompt.context != ""))
  }

  /** `search_results`: what `search` returns as written, when the intent asks for vector search. */
  function SearchResults(msg: string, i: Intent, searchCollections: Option<seq<string>>, topK: int,
                         cols: map<string, string>, store: Store): seq<SearchHit>
    requires Renderable(i)
  {
    if i.vectorSearch then SearchAsWritten(cols, SearchTypes(searchCollections), msg, topK, i.timeRange, store) else []
  }

  /** `search_results` if `search` returned the reranked list it computes. */
  function SearchResultsRanked(msg: string, i: Intent, searchCollections: Option<seq<string>>, topK: int,
                               cols: map<string, string>, store: Store): seq<SearchHit>
    requires Renderable(i)
  {
    if i.vectorSearch then SearchReranked(cols, SearchTypes(searchCollections), msg, topK, i.timeRange, store) else []
  }

  /** The prompt `chat` sends for intent `i`. */
  function ChatPrompt(past: seq<Message>, msg: string, i: Intent, searchCollections: Option<seq<string>>, topK: int,
                      db: Database, cols: map<string, string>, store: Store): Prompt
    requires Renderable(i)
  {
    var results := SearchResults(msg, i, searchCollections, topK, cols, store);
    Prompt(i.kind, LastTen(past), StructuredOf(Lookup(RouteOf(i), db)), if i.vectorSearch then ContextText(results) else "", msg)
  }

  // ---------------------------------------------------------------------------
  // What chat promises

  /** `parse_intent` of the chat service only ever sets a day as `exact_time`, so `chat` never asks for a moment. */
  lemma ResolvedDayOnly(msg: string, now: DateTime)
    requires ValidClock(now)
    ensures var r := Resolve(msg, now);
      r.Resolved? && r.intent.exactTime.Some? ==> r.intent.exactTime.value.OnDay?
  {
    var lower := Lower(msg);
    var base := Classify(lower, TrendKeywords);
    if FirstDate(msg, 0).None? {
      match SearchLastDays(lower, 0)
      case Some(n) =>
      case None =>
        match FirstDayOffset(lower, 0)
        case Some(off) =>
        case None =>
          assert RelativeRules(base, lower, now) == Resolved(PeriodThenTrend(base, lower, now));
    }
  }

  lemma NeverAtMoment(msg: string, now: DateTime)
    requires ValidClock(now)
    ensures var r := Resolve(msg, now);
      r.Resolved? ==> Renderable(r.intent) && !RouteOf(r.intent).AtMoment?
  {
    ResolvedRenderable(msg, now);
    ResolvedDayOnly(msg, now);
  }

  /**
   * `chat` either lets the `OverflowError` of `parse_intent` through or goes
   * on with an intent whose dates can all be written, that asks for vector
   * search and never for a moment.
   */
  lemma ChatResolves(past: seq<Message>, msg: string, searchCollections: Option<seq<string>>, topK: int, now: DateTime,
                     db: Database, cols: map<string, string>, store: Store, llm: Llm)
    requires ValidClock(now)
    ensures var r := Resolve(msg, now);
      && (r.Overflow? ==> Respond(past, msg, searchCollections, topK, now, db, cols, store, llm) == (past, Crashed))
      && (r.Resolved? ==>
            && Renderable(r.intent) && r.intent.vectorSearch && !RouteOf(r.intent).AtMoment?
            && Respond(past, msg, searchCollections, topK, now, db, cols, store, llm)
               == Reply(past, msg, r.intent, searchCollections, topK, db, cols, store, llm))
  {
    NeverAtMoment(msg, now);
    ResolvedCategory(msg, now);
  }

  /**
   * Once the intent is resolved, the history grows by the message as typed
   * and the reply on success, and is left alone on failure; the model sees at
   * most the last ten entries and the question as typed.
   */
  lemma ChatHistory(past: seq<Message>, msg: string, i: Intent, searchCollections: Option<seq<string>>, topK: int,
                    db: Database, cols: map<string, string>, store: Store, llm: Llm)
    requires Renderable(i)
    ensures var (h, r) := Reply(past, msg, i, searchCollections, topK, db, cols, store, llm);
      var prompt := ChatPrompt(past, msg, i, searchCollections, topK, db, cols, store);
      && !r.Crashed?
      && (r.Answer? <==> llm(prompt).Success?)
      && (r.Answer? ==> h == past + [Message(User, msg), Message(Assistant, r.response)] && |h| == |past| + 2)
      && (r.Answer? ==> r.response == llm(prompt).value)
      && (r.ErrorReply? ==> h == past && r.response == ApologyMark + llm(prompt).error)
      && |prompt.past| <= 10 && prompt.past == past[|past| - |prompt.past|..]
      && (|past| >= 10 ==> |prompt.past| == 10)
      && prompt.question == msg
  {
  }

  /**
   * A successful reply carries the intent, at most three sources, the first
   * of the search results, and says whether each kind of data was gathered:
   * structured data exactly when the intent asked for it, vector data exactly
   * when it asked for a search.
   */
  lemma ChatAnswer(past: seq<Message>, msg: string, i: Intent, searchCollections: Option<seq<string>>, topK: int,
                   db: Database, cols: map<string, string>, store: Store, llm: Llm)
    requires Renderable(i)
    ensures var (h, r) := Reply(past, msg, i, searchCollections, topK, db, cols, store, llm);
      r.Answer? ==>
        && r.intent == i
        && |r.sources| <= 3
        && r.sources == PyPrefix(SearchResults(msg, i, searchCollections, topK, cols, store), 3)
        && r.hasStructured == i.structured
        && r.hasVector == i.vectorSearch
  {
    ContextNeverEmpty(SearchResults(msg, i, searchCollections, topK, cols, store));
  }

  /** The first three search results are the closest hits in the order of distance, with their boosts. */
  lemma ClosestFirst(msg: string, i: Intent, searchCollections: Option<seq<string>>, topK: int,
                     cols: map<string, string>, store: Store)
    requires Renderable(i) && topK >= 0
    ensures var rs := PyPrefix(SearchResults(msg, i, searchCollections, topK, cols, store), 3);
      var m := Merged(cols, SearchTypes(searchCollections), topK, i.timeRange, store);
      && (!i.vectorSearch ==> rs == [])
      && (i.vectorSearch ==> |rs| == Min(3, Min(topK, |m|)))
      && (i.vectorSearch ==> forall k :: 0 <= k < |rs| ==>
            rs[k].hit == SortBy(m, Distance)[k] && rs[k].boosts == Some(BoostsFor(rs[k].hit, msg, i.timeRange)))
      && (forall k, l :: 0 <= k < l < |rs| ==> rs[k].hit.distance <= rs[l].hit.distance)
  {
    if i.vectorSearch {
      var results := SearchResults(msg, i, searchCollections, topK, cols, store);
      SearchAsWrittenShape(cols, SearchTypes(searchCollections), msg, topK, i.timeRange, store);
      var rs := PyPrefix(results, 3);
      assert forall k :: 0 <= k < |rs| ==> rs[k] == results[k];
    }
  }

  /**
   * The sources of an answer are the closest hits of the requested
   * collections, at most three and in the order of distance, each carrying
   * the boosts the reranker wrote into it; without vector search there are none.
   */
  lemma ChatSourcesClosest(past: seq<Message>, msg: string, i: Intent, searchCollections: Option<seq<string>>, topK: int,
                           db: Database, cols: map<string, string>, store: Store, llm: Llm)
    requires Renderable(i) && topK >= 0
    ensures var (h, r) := Reply(past, msg, i, searchCollections, topK, db, cols, store, llm);
      var m := Merged(cols, SearchTypes(searchCollections), topK, i.timeRange, store);
      r.Answer? ==>
        && (!i.vectorSearch ==> r.sources == [])
        && (i.vectorSearch ==> |r.sources| == Min(3, Min(topK, |m|)))
        && (i.vectorSearch ==> forall k :: 0 <= k < |r.sources| ==>
              r.sources[k].hit == SortBy(m, Distance)[k]
              && r.sources[k].boosts == Some(BoostsFor(r.sources[k].hit, msg, i.timeRange)))
        && (forall k, l :: 0 <= k < l < |r.sources| ==> r.sources[k].hit.distance <= r.sources[l].hit.distance)
  {
    ChatAnswer(past, msg, i, searchCollections, topK, db, cols, store, llm);
    ClosestFirst(msg, i, searchCollections, topK, cols, store);
  }

  /**
   * The intended sources: had `search` returned its reranked list, the first
   * three results would be the best scored of the closest hits, by
   * non-increasing final score.
   */
  lemma ChatSourcesRanked(msg: string, i: Intent, searchCollections: Option<seq<string>>, topK: int,
                          cols: map<string, string>, store: Store)
    requires Renderable(i) && topK >= 0
    ensures ScoredInOrder(PyPrefix(SearchResultsRanked(msg, i, searchCollections, topK, cols, store), 3))
  {
    var results := SearchResultsRanked(msg, i, searchCollections, topK, cols, store);
    if i.vectorSearch {
      SearchRerankedShape(cols, SearchTypes(searchCollections), msg, topK, i.timeRange, store);
    }
    RankedPrefix(results, 3);
  }

  predicate ScoredInOrder(rs: seq<SearchHit>) {
    && (forall k :: 0 <= k < |rs| ==> rs[k].boosts.Some?)
    && (forall k, l :: 0 <= k < l < |rs| ==> FinalScore(rs[k].boosts.value) >= FinalScore(rs[l].boosts.value))
  }

  lemma RankedPrefix(rs: seq<SearchHit>, n: int)
    requires ScoredInOrder(rs)
    ensures ScoredInOrder(PyPrefix(rs, n))
  {
  }

  class RagService {
    /** `conversation_history`: the user's messages as typed and the replies, oldest first. */
    var history: seq<Message>

    constructor ()
      ensures history == []
    {
      history := [];
    }

    /** `clear_history()`. */
    method ClearHistory()
      modifies this
      ensures history == []
    {
      history := [];
    }

    /** `parse_intent(user_message)` when `datetime.now()` is `now`. */
    method ParseIntent(msg: string, now: DateTime) returns (r: Resolution)
      requires ValidClock(now)
      ensures r == Resolve(msg, now)
    {
      var lower := Lower(msg);
      var intent := Classify(lower, TrendKeywords);
      var date := FindDate(msg);
      if date.Some? {
        return Resolved(intent.(exactTime := Some(OnDay(date.value))));
      }
      var days := SearchLastDays(lower, 0);
      if days.Some? {
        if AddDays(now.date, -(days.value as int)).year < MinYear {
          return Overflow;
        }
        return Resolved(intent.(timeRange := Some(RecentDays(now, days.value)), structured := true));
      }
      var j := 0;
      while j < |DayOffsets|
        invariant 0 <= j <= |DayOffsets|
        invariant FirstDayOffset(lower, j) == FirstDayOffset(lower, 0)
      {
        if Contains(lower, DayOffsets[j].0) {
          return Resolved(intent.(exactTime := Some(OnDay(AddDays(now.date, DayOffsets[j].1)))));
        }
        j := j + 1;
      }
      var period := FirstPeriod(lower, 0);
      if period.Some? {
        intent := intent.(timeRange := Some(PeriodRange(period.value, now.date)));
      }
      if intent.kind == TrendAnalysis && intent.timeRange.None? && intent.exactTime.None? {
        intent := intent.(timeRange := Some(RecentDays(now, 7)));
      }
      return Resolved(intent);
    }

    /** The loop over `date_patterns`: the first pattern whose leftmost match parses with its format. */
    method FindDate(msg: string) returns (date: Option<Date>)
      ensures date == FirstDate(msg, 0)
    {
      var k := 0;
      while k < |DatePatterns|
        invariant 0 <= k <= |DatePatterns|
        invariant FirstDate(msg, k) == FirstDate(msg, 0)
      {
        var found := SearchDateText(DatePatterns[k].0, msg, 0);
        if found.Some? {
          var d := Strptime(DatePatterns[k].1, found.value);
          if d.Some? {
            return d;
          }
        }
        k := k + 1;
      }
      return None;
    }

    /** The lookup `chat` calls for an intent that asks for structured data. */
    method LookupData(intent: Intent, db: Database) returns (result: LookupResult)
      requires Renderable(intent) && intent.structured
      ensures Lookup(RouteOf(intent), db) == Some(result)
    {
      if intent.exactTime.Some? {
        NamesMomentIffMinute(intent.exactTime.value);
        if NamesMoment(ExactTimeText(intent.exactTime.value)) {
          result := PriceAtMoment(intent.ticker, intent.exactTime.value.time, db.table(intent.ticker));
        } else {
          var d := intent.exactTime.value.date;
          result := ExactPrice(intent.ticker, d, db.day(intent.ticker, d));
        }
      } else if intent.timeRange.Some? {
        var s, e := intent.timeRange.value.start, intent.timeRange.value.end;
        result := PriceRange(intent.ticker, s, e, db.range(intent.ticker, s, e));
      } else {
        result := MarketOverview(intent.ticker, db.latest(intent.ticker, OverviewLimit));
      }
    }

    /** The structured step of `chat`: the lookup the intent routes to and the text made of its result. */
    method StructuredData(intent: Intent, db: Database) returns (part: Structured)
      requires Renderable(intent)
      ensures part == StructuredOf(Lookup(RouteOf(intent), db))
    {
      part := NoStructured;
      if intent.structured {
        var result := LookupData(intent, db);
        if result.NoData? {
          part := NoDataNotice(NoDataText(result.message, result.suggestion));
        } else if result.Failed? {
          part := ErrorNotice(ErrorMark + result.message);
        } else {
          part := Facts(result.data);
        }
      }
    }

    /** The vector step of `chat`: the search as written when the intent asks for it, and its context. */
    method VectorData(msg: string, intent: Intent, searchCollections: Option<seq<string>>, topK: int,
                      service: EmbeddingService, store: Store)
      returns (results: seq<SearchHit>, context: string)
      requires Renderable(intent)
      ensures results == if intent.vectorSearch then
        SearchAsWritten(service.collections, SearchTypes(searchCollections), msg, topK, intent.timeRange, store) else []
      ensures context == if intent.vectorSearch then ContextText(results) else ""
    {
      results, context := [], "";
      if intent.vectorSearch {
        results := service.Search(msg, Some(SearchTypes(searchCollections)), topK, intent.timeRange, store);
        context := CreateContextFromResults(results);
      }
    }

    /** `create_context_from_results(results)`. */
    method CreateContextFromResults(results: seq<SearchHit>) returns (context: string)
      ensures context == ContextText(results)
    {
      if results == [] {
        return NoContext;
      }
      var parts: seq<string> := [];
      var k := 0;
      while k < |results|
        invariant 0 <= k <= |results|
        invariant parts == Entries(results[..k])
      {
        parts := parts + [Entry(k + 1, results[k])];
        k := k + 1;
      }
      assert results[..k] == results;
      context := Join(parts, "\n\n");
    }

    /**
     * `chat(user_message, search_collections, top_k)` with `datetime.now()`
     * at `now`: the structured lookup, the vector context, one call of the
     * model, and on success the message and the reply appended to the history.
     */
    method Chat(msg: string, searchCollections: Option<seq<string>>, topK: int, now: DateTime,
                db: Database, service: EmbeddingService, store: Store, llm: Llm)
      returns (reply: ChatReply)
      modifies this
      requires ValidClock(now)
      ensures (history, reply) == Respond(old(history), msg, searchCollections, topK, now, db, service.collections, store, llm)
    {
      var resolution := ParseIntent(msg, now);
      if resolution.Overflow? {
        return Crashed;
      }
      ResolvedRenderable(msg, now);
      reply := ReplyTo(msg, resolution.intent, searchCollections, topK, db, service, store, llm);
    }

    /** The steps of `chat` once the intent is resolved. */
    method ReplyTo(msg: string, intent: Intent, searchCollections: Option<seq<string>>, topK: int,
                   db: Database, service: EmbeddingService, store: Store, llm: Llm)
      returns (reply: ChatReply)
      modifies this
      requires Renderable(intent)
      ensures (history, reply) == Reply(old(history), msg, intent, searchCollections, topK, db, service.collections, store, llm)
    {
      var part := StructuredData(intent, db);
      var results, context := VectorData(msg, intent, searchCollections, topK, service, store);
      assert Prompt(intent.kind, LastTen(history), part, context, msg)
             == ChatPrompt(history, msg, intent, searchCollections, topK, db, service.collections, store);
      var answer := llm(Prompt(intent.kind, LastTen(history), part, context, msg));
      if answer.Failure? {
        return ErrorReply(ApologyMark + answer.error);
      }
      history := history + [Message(User, msg), Message(Assistant, answer.value)];
      reply := Answer(answer.value, PyPrefix(results, 3), intent, !part.NoStructured?, context != "");
    }
  }
}
