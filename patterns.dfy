/**
 * Hand-written matchers for the regular expressions of the intent resolvers.
 * Each `...At(s, p)` function says what `re.match` of the pattern does at
 * index `p` (with the regex engine's greedy, lazy and alternation order worked
 * out), and each `Search...` function is `re.search`: the match that starts at
 * the smallest index wins.
 */
module Patterns {
  import opened Wrappers
  import opened Text
  import opened Calendar

  /** `re.search` as a scan: start positions `i, i + 1, ..., n` in turn, the first that matches wins. */
  ghost function Leftmost<T>(f: nat -> Option<T>, i: nat, n: nat): Option<T>
    requires i <= n + 1
    decreases n + 1 - i
  {
    if i > n then None
    else if f(i).Some? then f(i)
    else Leftmost(f, i + 1, n)
  }

  /** The scan finds a match exactly when some position matches, and no earlier position does. */
  lemma {:induction false} LeftmostFirst<T>(f: nat -> Option<T>, i: nat, n: nat)
    requires i <= n + 1
    ensures var r := Leftmost(f, i, n);
      && (r.Some? ==> exists p :: i <= p <= n && f(p) == r && forall q :: i <= q < p ==> f(q).None?)
      && (r.None? <==> forall p :: i <= p <= n ==> f(p).None?)
    decreases n + 1 - i
  {
    if i <= n && f(i).None? {
      LeftmostFirst(f, i + 1, n);
    }
  }

  /** `search` unfolds position `j` exactly as the scan does. */
  ghost predicate ScanStep<T>(f: nat -> Option<T>, search: nat -> Option<T>, j: nat, n: nat) {
    search(j) == if j > n then None else if f(j).Some? then f(j) else search(j + 1)
  }

  /** A function that unfolds one position at a time exactly as the scan does is the scan. */
  lemma {:induction false} StepsAreLeftmost<T>(f: nat -> Option<T>, search: nat -> Option<T>, i: nat, n: nat)
    requires i <= n + 1
    requires forall j: nat | i <= j <= n + 1 :: ScanStep(f, search, j, n)
    ensures search(i) == Leftmost(f, i, n)
    decreases n + 1 - i
  {
    assert ScanStep(f, search, i, n);
    if i <= n && f(i).None? {
      StepsAreLeftmost(f, search, i + 1, n);
    }
  }

  /** Some alternative of `alts` occurs at `i` (the alternatives here never need backtracking). */
  predicate AnyAt(s: string, i: int, alts: seq<string>) {
    exists k | 0 <= k < |alts| :: OccursAt(s, i, alts[k])
  }

  /** `\b` just before a word character at `p`. */
  predicate BoundaryBefore(s: string, p: nat) {
    p == 0 || (p <= |s| && !IsWordChar(s[p - 1]))
  }

  /** `\b` just after a word character at `e - 1`. */
  predicate BoundaryAfter(s: string, e: nat) {
    e >= |s| || !IsWordChar(s[e])
  }

  // ---------------------------------------------------------------------------
  // Ticker: \b(BTC|ETH|BNB|SOL|ADA|DOT|MATIC|LINK)(?:USDT)?\b, case-insensitive

  /** The symbols in the order of the alternation, as they appear in lowered text. */
  const Symbols: seq<string> := ["btc", "eth", "bnb", "sol", "ada", "dot", "matic", "link"]

  /** `\bsym(?:usdt)?\b` matches at `p`: the symbol as a whole word, with or without `usdt` after it. */
  predicate WholeWordAt(s: string, p: nat, sym: string) {
    && BoundaryBefore(s, p) && OccursAt(s, p, sym)
    && (BoundaryAfter(s, p + |sym|) || (OccursAt(s, p + |sym|, "usdt") && BoundaryAfter(s, p + |sym| + 4)))
  }

  /**
   * The alternation from its `k`-th symbol on, as the regex engine tries it
   * at `p`: the first symbol that completes a whole-word match, upper-cased.
   */
  function AlternativeAt(s: string, p: nat, k: nat): (r: Option<string>)
    requires k <= |Symbols|
    ensures r.Some? ==> exists j :: k <= j < |Symbols| && r.value == UpperAscii(Symbols[j]) && WholeWordAt(s, p, Symbols[j])
    ensures r.None? <==> forall j :: k <= j < |Symbols| ==> !WholeWordAt(s, p, Symbols[j])
    decreases |Symbols| - k
  {
    if k == |Symbols| then None
    else if WholeWordAt(s, p, Symbols[k]) then Some(UpperAscii(Symbols[k]))
    else AlternativeAt(s, p, k + 1)
  }

  /** No two symbols start alike, so at most one occurs at any position and the order of the alternation never matters. */
  lemma SymbolsExclusive(s: string, p: nat, j: nat, k: nat)
    requires j < |Symbols| && k < |Symbols|
    requires OccursAt(s, p, Symbols[j]) && OccursAt(s, p, Symbols[k])
    ensures j == k
  {
    assert s[p] == s[p..p + |Symbols[j]|][0] == Symbols[j][0];
    assert s[p] == s[p..p + |Symbols[k]|][0] == Symbols[k][0];
    assert s[p + 1] == s[p..p + |Symbols[j]|][1] == Symbols[j][1];
    assert s[p + 1] == s[p..p + |Symbols[k]|][1] == Symbols[k][1];
  }

  /**
   * The upper-cased symbol the ticker pattern captures at `p`, on lowered
   * text: a match exactly when some symbol stands there as a whole word.
   */
  function TickerAt(s: string, p: nat): (r: Option<string>)
    ensures r.Some? ==> exists k :: 0 <= k < |Symbols| && r.value == UpperAscii(Symbols[k]) && WholeWordAt(s, p, Symbols[k])
    ensures r.None? <==> forall k :: 0 <= k < |Symbols| ==> !WholeWordAt(s, p, Symbols[k])
  {
    AlternativeAt(s, p, 0)
  }

  /** `re.search` of the ticker pattern: the symbol of the leftmost whole-word match; positions are tried from `i` on. */
  function SearchTicker(s: string, i: nat): (r: Option<string>)
    ensures r.Some? ==> exists k :: 0 <= k < |Symbols| && r.value == UpperAscii(Symbols[k])
    decreases |s| + 1 - i
  {
    if i > |s| then None
    else if TickerAt(s, i).Some? then TickerAt(s, i)
    else SearchTicker(s, i + 1)
  }

  lemma SearchTickerIsScan(s: string, i: nat)
    requires i <= |s| + 1
    ensures SearchTicker(s, i) == Leftmost(p => TickerAt(s, p), i, |s|)
  {
    var search := (j: nat) => SearchTicker(s, j);
    var f := p => TickerAt(s, p);
    forall j: nat | i <= j <= |s| + 1
      ensures ScanStep(f, search, j, |s|)
    {
      assert f(j) == TickerAt(s, j);
    }
    StepsAreLeftmost(f, search, i, |s|);
  }

  /** The search finds a match exactly when some position from `i` on matches, and none before it does. */
  lemma SearchTickerLeftmost(s: string, i: nat)
    requires i <= |s| + 1
    ensures var r := SearchTicker(s, i);
      && (r.Some? ==> exists p :: i <= p <= |s| && TickerAt(s, p) == r && forall q :: i <= q < p ==> TickerAt(s, q).None?)
      && (r.None? <==> forall p :: i <= p <= |s| ==> TickerAt(s, p).None?)
  {
    var f := p => TickerAt(s, p);
    SearchTickerIsScan(s, i);
    LeftmostFirst(f, i, |s|);
    assert forall p :: f(p) == TickerAt(s, p);
  }

  // ---------------------------------------------------------------------------
  // Absolute dates: (\d{4})-(\d{2})-(\d{2}), (\d{2})/(\d{2})/(\d{4}), (\d{2})-(\d{2})-(\d{4})

  datatype DatePattern = IsoDate | SlashDmy | DashDmy

  /** A ten-character text of the pattern's shape: digits, and its separator at its two places. */
  predicate DateShape(pat: DatePattern, t: string) {
    match pat
    case IsoDate => IsDateShape(t)
    case SlashDmy => DmyDigits(t) && t[2] == '/' && t[5] == '/'
    case DashDmy => DmyDigits(t) && t[2] == '-' && t[5] == '-'
  }

  /** The day, month and year the digit groups of a matched text name. */
  function PatternDate(pat: DatePattern, t: string): Date
    requires DateShape(pat, t)
  {
    if pat == IsoDate then Date(FieldAt(t, 0, 4), FieldAt(t, 5, 2), FieldAt(t, 8, 2))
    else Date(FieldAt(t, 6, 4), FieldAt(t, 3, 2), FieldAt(t, 0, 2))
  }

  /** The text the pattern matches at `p`, if it matches there. */
  function DateTextAt(pat: DatePattern, s: string, p: nat): (r: Option<string>)
    ensures r.Some? ==> |r.value| == 10 && OccursAt(s, p, r.value)
    ensures r.Some? ==> DateShape(pat, r.value)
    ensures r.None? ==> forall t :: OccursAt(s, p, t) ==> !DateShape(pat, t)
  {
    if p + 10 <= |s| && DateShape(pat, s[p..p + 10]) then Some(s[p..p + 10]) else None
  }

  /** `re.search` of a date pattern: the text of its leftmost match; positions are tried from `i` on. */
  function SearchDateText(pat: DatePattern, s: string, i: nat): (r: Option<string>)
    ensures r.Some? ==> |r.value| == 10 && DateShape(pat, r.value)
    decreases |s| + 1 - i
  {
    if i > |s| then None
    else if DateTextAt(pat, s, i).Some? then DateTextAt(pat, s, i)
    else SearchDateText(pat, s, i + 1)
  }

  lemma {:induction false} SearchDateTextIsScan(pat: DatePattern, s: string, i: nat)
    requires i <= |s| + 1
    ensures SearchDateText(pat, s, i) == Leftmost(p => DateTextAt(pat, s, p), i, |s|)
    decreases |s| + 1 - i
  {
    if i <= |s| && DateTextAt(pat, s, i).None? {
      SearchDateTextIsScan(pat, s, i + 1);
    }
  }

  /** The search finds a match exactly when some position from `i` on matches, and none before it does. */
  lemma SearchDateTextLeftmost(pat: DatePattern, s: string, i: nat)
    requires i <= |s| + 1
    ensures var r := SearchDateText(pat, s, i);
      && (r.Some? ==> exists p :: i <= p <= |s| && DateTextAt(pat, s, p) == r && forall q :: i <= q < p ==> DateTextAt(pat, s, q).None?)
      && (r.None? <==> forall p :: i <= p <= |s| ==> DateTextAt(pat, s, p).None?)
  {
    var f := p => DateTextAt(pat, s, p);
    SearchDateTextIsScan(pat, s, i);
    LeftmostFirst(f, i, |s|);
    assert forall p :: f(p) == DateTextAt(pat, s, p);
  }

  /** The two `strptime` formats the resolvers use, and the one the dash pattern evidently wanted. */
  datatype DateFormat = YmdDash | DmySlash | DmyDash

  /** A ten-character text with digits where one of the three patterns has them. */
  predicate DmyDigits(text: string) {
    |text| == 10 && AllDigits(text[0..2]) && AllDigits(text[3..5]) && AllDigits(text[6..10])
  }

  /**
   * `datetime.strptime(text, fmt)` on a text one of the date patterns matched;
   * `None` stands for the `ValueError` it raises (a separator that differs from
   * the format's, or a day, month or year no date has).
   */
  function Strptime(fmt: DateFormat, text: string): (r: Option<Date>)
    requires |text| == 10
    ensures r.Some? ==> IsPyDate(r.value)
  {
    match fmt
    case YmdDash => ParseDate(text)
    case DmySlash => if DmyDigits(text) && text[2] == '/' && text[5] == '/' then DmyDate(text) else None
    case DmyDash => if DmyDigits(text) && text[2] == '-' && text[5] == '-' then DmyDate(text) else None
  }

  function DmyDate(text: string): (r: Option<Date>)
    requires DmyDigits(text)
    ensures r.Some? ==> IsPyDate(r.value)
  {
    var d := Date(DigitsValue(text[6..10]), DigitsValue(text[3..5]), DigitsValue(text[0..2]));
    if IsPyDate(d) then Some(d) else None
  }

  // ---------------------------------------------------------------------------
  // (\d+)\s*ngày\s*(gần nhất|qua|trước|gần đây)

  const DaySuffixes: seq<string> := ["gần nhất", "qua", "trước", "gần đây"]

  /** `ngày\s*(gần nhất|qua|trước|gần đây)` at `k`. */
  predicate DaysTailAt(s: string, k: nat)
    requires k <= |s|
  {
    OccursAt(s, k, "ngày") && AnyAt(s, SkipSpaces(s, k + 4), DaySuffixes)
  }

  /**
   * The count `N` of "N ngày qua" matched at `p`: a match exactly when a
   * digit run starts at `p` and, after spaces, "ngày", spaces and a suffix
   * follow; `N` is the whole run (backing off digits cannot help, as a
   * digit is no space and no "n").
   */
  function LastDaysAt(s: string, p: nat): (r: Option<nat>)
    ensures r.Some? <==> p < |s| && IsDigit(s[p]) && DaysTailAt(s, SkipSpaces(s, SkipDigits(s, p)))
    ensures r.Some? ==> r.value == DigitsValue(s[p..SkipDigits(s, p)])
  {
    if p >= |s| || !IsDigit(s[p]) then None
    else
      var j := SkipDigits(s, p);
      if DaysTailAt(s, SkipSpaces(s, j)) then Some(DigitsValue(s[p..j])) else None
  }

  /** `re.search` of the "N ngày qua" pattern: N of the leftmost match; positions are tried from `i` on. */
  function SearchLastDays(s: string, i: nat): (r: Option<nat>)
    decreases |s| + 1 - i
  {
    if i > |s| then None
    else if LastDaysAt(s, i).Some? then LastDaysAt(s, i)
    else SearchLastDays(s, i + 1)
  }

  lemma {:induction false} SearchLastDaysIsScan(s: string, i: nat)
    requires i <= |s| + 1
    ensures SearchLastDays(s, i) == Leftmost(p => LastDaysAt(s, p), i, |s|)
    decreases |s| + 1 - i
  {
    if i <= |s| && LastDaysAt(s, i).None? {
      SearchLastDaysIsScan(s, i + 1);
    }
  }

  /** The search finds a match exactly when some position from `i` on matches, and none before it does. */
  lemma SearchLastDaysLeftmost(s: string, i: nat)
    requires i <= |s| + 1
    ensures var r := SearchLastDays(s, i);
      && (r.Some? ==> exists p :: i <= p <= |s| && LastDaysAt(s, p) == r && forall q :: i <= q < p ==> LastDaysAt(s, q).None?)
      && (r.None? <==> forall p :: i <= p <= |s| ==> LastDaysAt(s, p).None?)
  {
    var f := p => LastDaysAt(s, p);
    SearchLastDaysIsScan(s, i);
    LeftmostFirst(f, i, |s|);
    assert forall p :: f(p) == LastDaysAt(s, p);
  }

  /** "7 ngày qua" asks for the last seven days. */
  lemma LastDaysExample()
    ensures SearchLastDays("7 ngày qua", 0) == Some(7)
  {
    var s := "7 ngày qua";
    assert SkipDigits(s, 1) == 1 && SkipDigits(s, 0) == 1;
    assert SkipSpaces(s, 2) == 2 && SkipSpaces(s, 1) == 2;
    assert SkipSpaces(s, 7) == 7 && SkipSpaces(s, 6) == 7;
    assert s[2..6] == "ngày" && OccursAt(s, 7, DaySuffixes[1]);
    assert DaysTailAt(s, 2);
    assert DigitsValue(s[0..1]) == 7;
  }

  // ---------------------------------------------------------------------------
  // (\d+)\s*(giờ|hour|h)\s*(trước|ago|qua) and (\d+)\s*(phút|minute|min|m)\s*(trước|ago|qua)

  const HourUnits: seq<string> := ["giờ", "hour", "h"]
  const MinuteUnits: seq<string> := ["phút", "minute", "min", "m"]
  const AgoSuffixes: seq<string> := ["trước", "ago", "qua"]

  /** `(unit)\s*(trước|ago|qua)` at `k` for some unit of the alternation. */
  predicate AgoTailAt(s: string, k: nat, units: seq<string>)
    requires k <= |s|
  {
    exists u | 0 <= u < |units| :: OccursAt(s, k, units[u]) && AnyAt(s, SkipSpaces(s, k + |units[u]|), AgoSuffixes)
  }

  /**
   * The count of "N <unit> ago" at `p`: digits, spaces, then some unit of the
   * alternation followed, after spaces, by a suffix. Every unit is tried, so
   * "3 hours ago" does not match: neither "hour" nor "h" is followed by a suffix.
   */
  function AgoAt(s: string, p: nat, units: seq<string>): (r: Option<nat>)
    ensures r.Some? <==> p < |s| && IsDigit(s[p]) && AgoTailAt(s, SkipSpaces(s, SkipDigits(s, p)), units)
    ensures r.Some? ==> r.value == DigitsValue(s[p..SkipDigits(s, p)])
  {
    if p >= |s| || !IsDigit(s[p]) then None
    else
      var j := SkipDigits(s, p);
      if AgoTailAt(s, SkipSpaces(s, j), units) then Some(DigitsValue(s[p..j])) else None
  }

  /** `re.search` of an "N <unit> ago" pattern: N of the leftmost match; positions are tried from `i` on. */
  function SearchAgo(s: string, units: seq<string>, i: nat): (r: Option<nat>)
    decreases |s| + 1 - i
  {
    if i > |s| then None
    else if AgoAt(s, i, units).Some? then AgoAt(s, i, units)
    else SearchAgo(s, units, i + 1)
  }

  lemma {:induction false} SearchAgoIsScan(s: string, units: seq<string>, i: nat)
    requires i <= |s| + 1
    ensures SearchAgo(s, units, i) == Leftmost(p => AgoAt(s, p, units), i, |s|)
    decreases |s| + 1 - i
  {
    if i <= |s| && AgoAt(s, i, units).None? {
      SearchAgoIsScan(s, units, i + 1);
    }
  }

  /** The search finds a match exactly when some position from `i` on matches, and none before it does. */
  lemma SearchAgoLeftmost(s: string, units: seq<string>, i: nat)
    requires i <= |s| + 1
    ensures var r := SearchAgo(s, units, i);
      && (r.Some? ==> exists p :: i <= p <= |s| && AgoAt(s, p, units) == r && forall q :: i <= q < p ==> AgoAt(s, q, units).None?)
      && (r.None? <==> forall p :: i <= p <= |s| ==> AgoAt(s, p, units).None?)
  {
    var f := p => AgoAt(s, p, units);
    SearchAgoIsScan(s, units, i);
    LeftmostFirst(f, i, |s|);
    assert forall p :: f(p) == AgoAt(s, p, units);
  }

  /** "3 hours ago" is no hour phrase: after "hour" or "h" comes no suffix. */
  lemma HoursWordExample()
    ensures SearchAgo("3 hours ago", HourUnits, 0).None?
  {
    var s := "3 hours ago";
    assert SkipDigits(s, 1) == 1 && SkipDigits(s, 0) == 1;
    assert SkipSpaces(s, 2) == 2 && SkipSpaces(s, 1) == 2;
    HoursWordNoTail();
    assert AgoAt(s, 0, HourUnits).None?;
    forall p | 0 <= p <= |s| ensures AgoAt(s, p, HourUnits).None? {
      if p > 0 {
        assert p == |s| || !IsDigit(s[p]);
      }
    }
    SearchAgoLeftmost(s, HourUnits, 0);
  }

  /** In "3 hours ago" no hour unit after the digits is followed by a suffix. */
  lemma HoursWordNoTail()
    ensures !AgoTailAt("3 hours ago", 2, HourUnits)
  {
    var s := "3 hours ago";
    assert !OccursAt(s, 2, HourUnits[0]) by {
      assert s[2..5][0] == 'h';
    }
    NoSuffixAfter(s, 2 + |HourUnits[1]|);
    NoSuffixAfter(s, 2 + |HourUnits[2]|);
  }

  /** In "3 hours ago" no suffix follows "hour" (at 6) or "h" (at 3). */
  lemma NoSuffixAfter(s: string, k: nat)
    requires s == "3 hours ago" && (k == 3 || k == 6)
    ensures !AnyAt(s, SkipSpaces(s, k), AgoSuffixes)
  {
    assert SkipSpaces(s, k) == k;
    NoAlternativeAt(s, k, AgoSuffixes);
  }

  /** "2h trước" is two hours ago. */
  lemma HourLetterExample()
    ensures SearchAgo("2h trước", HourUnits, 0) == Some(2)
  {
    var s := "2h trước";
    assert SkipDigits(s, 1) == 1 && SkipDigits(s, 0) == 1;
    assert SkipSpaces(s, 1) == 1;
    assert SkipSpaces(s, 3) == 3 && SkipSpaces(s, 2) == 3;
    assert OccursAt(s, 1, HourUnits[2]) && OccursAt(s, 3, AgoSuffixes[0]);
    assert AgoTailAt(s, 1, HourUnits);
    assert DigitsValue(s[0..1]) == 2;
  }

  /** No alternative occurs at `i` when none starts with the character there. */
  lemma NoAlternativeAt(s: string, i: nat, alts: seq<string>)
    requires i < |s|
    requires forall k | 0 <= k < |alts| :: |alts[k]| > 0 && alts[k][0] != s[i]
    ensures !AnyAt(s, i, alts)
  {
  }

  // ---------------------------------------------------------------------------
  // Day and time of day:
  //   (?:lúc\s*)?(\d{1,2})[:h]\s*(\d{0,2}).*?(\d{1,2})[/-](\d{1,2})(?:[/-](\d{2,4}))?
  // | (\d{1,2})[/-](\d{1,2})(?:[/-](\d{2,4}))?\s*(?:lúc\s*)?(\d{1,2})[:h]\s*(\d{0,2})

  /** The captured texts; an empty `minute` or `year` is a group that did not take part. */
  datatype DayTime = DayTime(hour: string, minute: string, day: string, month: string, year: string)

  /** The shapes the groups can have. */
  predicate WellFormed(m: DayTime) {
    && 1 <= |m.hour| <= 2 && AllDigits(m.hour)
    && |m.minute| <= 2 && AllDigits(m.minute)
    && 1 <= |m.day| <= 2 && AllDigits(m.day)
    && 1 <= |m.month| <= 2 && AllDigits(m.month)
    && (|m.year| == 0 || 2 <= |m.year| <= 4) && AllDigits(m.year)
  }

  predicate IsTimeSep(c: char) { c == ':' || c == 'h' }
  predicate IsDateSep(c: char) { c == '/' || c == '-' }

  /** Where the hour group starts: past `lúc` and spaces when the text at `v` has them, else at `v`. */
  function LeadIn(s: string, v: nat): (q: nat)
    ensures v <= |s| ==> v <= q <= |s|
  {
    if OccursAt(s, v, "lúc") then SkipSpaces(s, v + 3) else v
  }

  /** `(\d{1,2})[:h]\s*(\d{0,2})` captured `hour` and `minute` at `q`: the hour, a time separator, spaces, the minute. */
  predicate TimeGroupsAt(s: string, q: nat, hour: string, minute: string) {
    && OccursAt(s, q, hour) && q + |hour| < |s| && IsTimeSep(s[q + |hour|])
    && OccursAt(s, SkipSpaces(s, q + |hour| + 1), minute)
  }

  /** `(?:[/-](\d{2,4}))?` at `e`: the empty text when the group took no part, else a date separator and the year. */
  predicate YearAt(s: string, e: nat, year: string) {
    |year| == 0 || (e < |s| && IsDateSep(s[e]) && OccursAt(s, e + 1, year))
  }

  /** `(\d{1,2})[/-](\d{1,2})(?:[/-](\d{2,4}))?` captured these texts at `t`. */
  predicate DatePartsAt(s: string, t: nat, day: string, month: string, year: string) {
    && OccursAt(s, t, day) && t + |day| < |s| && IsDateSep(s[t + |day|])
    && OccursAt(s, t + |day| + 1, month) && YearAt(s, t + |day| + 1 + |month|, year)
  }

  /** The lazy `.*?` can run from `a` to `b`: no newline lies in between. */
  predicate NoNewline(s: string, a: nat, b: nat) {
    a <= b <= |s| && forall k | a <= k < b :: s[k] != '\n'
  }

  /** The lazy `.*?` then the date: past no newline from `v`, the date groups of `m` stand in the text. */
  ghost predicate DateFollows(s: string, v: nat, m: DayTime) {
    exists t: nat :: NoNewline(s, v, t) && DatePartsAt(s, t, m.day, m.month, m.year)
  }

  /** The first alternative captured `m` at `p`: the time after an optional `lúc`, then, past no newline, the date. */
  ghost predicate TimeFirstShape(s: string, p: nat, m: DayTime) {
    TimeThenDateAt(s, LeadIn(s, p), m)
  }

  /** From `q` on: the time groups, then, past no newline, the date. */
  ghost predicate TimeThenDateAt(s: string, q: nat, m: DayTime) {
    TimeGroupsAt(s, q, m.hour, m.minute) && DateFollows(s, SkipSpaces(s, q + |m.hour| + 1) + |m.minute|, m)
  }

  /** After the month, ending at `e`: the optional year, spaces, an optional `lúc` and the time. */
  predicate DateTailAt(s: string, e: nat, m: DayTime) {
    && e <= |s| && YearAt(s, e, m.year)
    && TimeGroupsAt(s, LeadIn(s, SkipSpaces(s, YearEnd(e, m.year))), m.hour, m.minute)
  }

  /** Where the text after the month at `e` goes on: past the year when there is one. */
  function YearEnd(e: nat, year: string): nat {
    if |year| == 0 then e else e + 1 + |year|
  }

  /** The second alternative captured `m` at `p`: the day, a date separator, then the month, the optional year and the time. */
  predicate DateFirstShape(s: string, p: nat, m: DayTime) {
    OccursAt(s, p, m.day) && p + |m.day| < |s| && IsDateSep(s[p + |m.day|]) && MonthTailAt(s, p + |m.day| + 1, m)
  }

  /** Width of `(\d{1,2})` followed by a separator at `i`: two digits are tried first; 0 means no match. */
  function FieldWidth(s: string, i: nat, isTime: bool): (w: nat)
    ensures w <= 2
    ensures w > 0 ==> i + w < |s| && AllDigits(s[i..i + w])
  {
    if i + 2 < |s| && IsDigit(s[i]) && IsDigit(s[i + 1]) && (if isTime then IsTimeSep(s[i + 2]) else IsDateSep(s[i + 2])) then 2
    else if i + 1 < |s| && IsDigit(s[i]) && (if isTime then IsTimeSep(s[i + 1]) else IsDateSep(s[i + 1])) then 1
    else 0
  }

  /** Length of the digit run at `i`. */
  function DigitRun(s: string, i: nat): (n: nat)
    requires i <= |s|
    ensures i + n <= |s| && AllDigits(s[i..i + n])
  {
    SkipDigits(s, i) - i
  }

  /** `(\d{1,2})[/-](\d{1,2})(?:[/-](\d{2,4}))?` at the end of the pattern, where the first try succeeds. */
  function DateGroupsAt(s: string, t: nat): (r: Option<(string, string, string)>)
    ensures r.Some? ==> 1 <= |r.value.0| <= 2 && AllDigits(r.value.0)
    ensures r.Some? ==> 1 <= |r.value.1| <= 2 && AllDigits(r.value.1)
    ensures r.Some? ==> (|r.value.2| == 0 || 2 <= |r.value.2| <= 4) && AllDigits(r.value.2)
    ensures r.Some? ==> DatePartsAt(s, t, r.value.0, r.value.1, r.value.2)
  {
    var dw := FieldWidth(s, t, false);
    if dw == 0 then None
    else
      var u := t + dw + 1;
      var mw := Min(2, DigitRun(s, u));
      if mw == 0 then None
      else
        var e := u + mw;
        FieldWidthSep(s, t, false);
        DateGroupsCase(s, t, dw, u, e);
        Some((s[t..t + dw], s[u..e], YearGroup(s, e)))
  }

  /** The optional `[/-](\d{2,4})` after the month: greedy, up to four digits, else absent. */
  function YearGroup(s: string, e: nat): (year: string)
    requires e <= |s|
    ensures (|year| == 0 || 2 <= |year| <= 4) && AllDigits(year)
    ensures YearAt(s, e, year)
  {
    var yw := YearWidthAt(s, e);
    if yw >= 2 then s[e + 1..e + 1 + yw] else ""
  }

  /** How many digits, up to four, follow a date separator at `e`; none without a separator. */
  function YearWidthAt(s: string, e: nat): (yw: nat)
    requires e <= |s|
    ensures yw <= 4
    ensures yw > 0 ==> e < |s| && IsDateSep(s[e]) && e + 1 + yw <= |s| && AllDigits(s[e + 1..e + 1 + yw])
  {
    if e < |s| && IsDateSep(s[e]) then
      var run := DigitRun(s, e + 1);
      DigitsPrefix(s[e + 1..e + 1 + run], Min(4, run));
      assert s[e + 1..e + 1 + Min(4, run)] == s[e + 1..e + 1 + run][..Min(4, run)];
      Min(4, run)
    else 0
  }

  /** The lazy `.*?`: the first `t` from `i` on, not past a newline, where the date groups match. */
  function ScanDateGroups(s: string, t: nat): (r: Option<(string, string, string)>)
    ensures r.Some? ==> 1 <= |r.value.0| <= 2 && AllDigits(r.value.0)
    ensures r.Some? ==> 1 <= |r.value.1| <= 2 && AllDigits(r.value.1)
    ensures r.Some? ==> (|r.value.2| == 0 || 2 <= |r.value.2| <= 4) && AllDigits(r.value.2)
    ensures r.Some? ==> exists t': nat :: NoNewline(s, t, t') && DatePartsAt(s, t', r.value.0, r.value.1, r.value.2)
    decreases |s| - t
  {
    if t > |s| then None
    else match DateGroupsAt(s, t)
      case Some(g) =>
        assert NoNewline(s, t, t);
        Some(g)
      case None =>
        if t < |s| && s[t] != '\n' then
          match ScanDateGroups(s, t + 1)
          case Some(g) =>
            ScanBack(s, t, g);
            Some(g)
          case None => None
        else None
  }

  /** A match found past `t + 1` without crossing a newline is one past `t` too, when `s[t]` is not a newline. */
  lemma ScanBack(s: string, t: nat, g: (string, string, string))
    requires t < |s| && s[t] != '\n'
    requires exists t': nat :: NoNewline(s, t + 1, t') && DatePartsAt(s, t', g.0, g.1, g.2)
    ensures exists t': nat :: NoNewline(s, t, t') && DatePartsAt(s, t', g.0, g.1, g.2)
  {
    var t': nat :| NoNewline(s, t + 1, t') && DatePartsAt(s, t', g.0, g.1, g.2);
    assert NoNewline(s, t, t');
  }

  /** The greedy `(\d{0,2})` of the first alternative: widths `k, k - 1, ..., 0` in turn. */
  function TryMinuteWidths(s: string, hour: string, w: nat, k: nat): (r: Option<DayTime>)
    requires 1 <= |hour| <= 2 && AllDigits(hour)
    requires w + k <= |s| && AllDigits(s[w..w + k]) && k <= 2
    ensures r.Some? ==> WellFormed(r.value) && r.value.hour == hour
    ensures r.Some? ==> OccursAt(s, w, r.value.minute)
    ensures r.Some? ==> DateFollows(s, w + |r.value.minute|, r.value)
    decreases k
  {
    var v := w + k;
    match ScanDateGroups(s, v)
    case Some(g) =>
      MinuteCase(s, w, v, DayTime(hour, s[w..v], g.0, g.1, g.2));
      Some(DayTime(hour, s[w..v], g.0, g.1, g.2))
    case None =>
      if k == 0 then None
      else
        DigitsShorter(s, w, k);
        TryMinuteWidths(s, hour, w, k - 1)
  }

  /** First alternative at `p`: "lúc 10h30 ngày 15/1". */
  function TimeFirstAt(s: string, p: nat): (r: Option<DayTime>)
    ensures r.Some? ==> WellFormed(r.value)
    ensures r.Some? ==> TimeFirstShape(s, p, r.value)
  {
    TimeThenDate(s, LeadIn(s, p))
  }

  /** The first alternative past the optional `lúc`: the time at `q`, then the date. */
  function TimeThenDate(s: string, q: nat): (r: Option<DayTime>)
    ensures r.Some? ==> WellFormed(r.value)
    ensures r.Some? ==> TimeThenDateAt(s, q, r.value)
  {
    var hw := FieldWidth(s, q, true);
    if hw == 0 then None
    else
      FieldWidthSep(s, q, true);
      var w := SkipSpaces(s, q + hw + 1);
      match TryMinuteWidths(s, s[q..q + hw], w, GroupWidth(s, w))
      case Some(m) =>
        TimeFirstCase(s, q, hw, w, m);
        Some(m)
      case None => None
  }

  /** The greedy `(\d{0,2})` minute group at `w`. */
  function MinuteText(s: string, w: nat): (m: string)
    requires w <= |s|
    ensures |m| <= 2 && AllDigits(m)
  {
    var run := DigitRun(s, w);
    DigitsPrefix(s[w..w + run], Min(2, run));
    assert s[w..w + Min(2, run)] == s[w..w + run][..Min(2, run)];
    s[w..w + Min(2, run)]
  }

  lemma DigitsPrefix(t: string, n: nat)
    requires AllDigits(t) && n <= |t|
    ensures AllDigits(t[..n])
  {
  }

  /** Width of the greedy `\d{0,2}` at `i`: the digit run, cut to two. */
  function GroupWidth(s: string, i: nat): (k: nat)
    requires i <= |s|
    ensures k <= 2 && i + k <= |s| && AllDigits(s[i..i + k])
    ensures k == Min(2, DigitRun(s, i))
  {
    var run := DigitRun(s, i);
    DigitsPrefix(s[i..i + run], Min(2, run));
    assert s[i..i + Min(2, run)] == s[i..i + run][..Min(2, run)];
    Min(2, run)
  }

  /** A digit group one character shorter is still all digits. */
  lemma DigitsShorter(s: string, a: nat, w: nat)
    requires 1 <= w && a + w <= |s| && AllDigits(s[a..a + w])
    ensures AllDigits(s[a..a + (w - 1)])
  {
    var shorter, longer := s[a..a + (w - 1)], s[a..a + w];
    forall k | 0 <= k < |shorter| ensures IsDigit(shorter[k]) {
      assert shorter[k] == longer[k];
    }
  }

  /** `(\d{1,2})[:h]\s*(\d{0,2})` at `z`: hour and minute texts. */
  function TimeAt(s: string, z: nat): (r: Option<(string, string)>)
    ensures r.Some? ==> 1 <= |r.value.0| <= 2 && AllDigits(r.value.0) && |r.value.1| <= 2 && AllDigits(r.value.1)
  {
    var hw := FieldWidth(s, z, true);
    if hw == 0 then None
    else Some((s[z..z + hw], MinuteText(s, SkipSpaces(s, z + hw + 1))))
  }

  /** `\s*(?:lúc\s*)?(\d{1,2})[:h]\s*(\d{0,2})` at `v`, ending the second alternative: hour and minute texts. */
  function TimeTailAt(s: string, v: nat): (r: Option<(string, string)>)
    ensures r.Some? ==> 1 <= |r.value.0| <= 2 && AllDigits(r.value.0) && |r.value.1| <= 2 && AllDigits(r.value.1)
  {
    if v > |s| then None else TimeAt(s, LeadIn(s, SkipSpaces(s, v)))
  }

  /** The greedy `(\d{2,4})` year group after the separator at `e`: widths `yw, ..., 2`, then no year. */
  function TryYearWidths(s: string, day: string, month: string, e: nat, yw: nat): (r: Option<DayTime>)
    requires 1 <= |day| <= 2 && AllDigits(day) && 1 <= |month| <= 2 && AllDigits(month)
    requires e <= |s|
    requires yw >= 2 ==> yw <= 4 && e < |s| && IsDateSep(s[e]) && e + 1 + yw <= |s| && AllDigits(s[e + 1..e + 1 + yw])
    ensures r.Some? ==> WellFormed(r.value) && r.value.day == day && r.value.month == month
    ensures r.Some? ==> DateTailAt(s, e, r.value)
    decreases yw
  {
    if yw >= 2 then
      var v := e + 1 + yw;
      match TimeTailAt(s, v)
      case Some(hm) =>
        YearCase(s, e, yw, v, hm, day, month);
        Some(DayTime(hm.0, hm.1, day, month, s[e + 1..v]))
      case None =>
        DigitsShorter(s, e + 1, yw);
        TryYearWidths(s, day, month, e, yw - 1)
    else
      match TimeTailAt(s, e)
      case Some(hm) =>
        NoYearCase(s, e, hm, day, month);
        Some(DayTime(hm.0, hm.1, day, month, ""))
      case None => None
  }

  /** The greedy month group of the second alternative: widths `mw, ..., 1`. */
  function TryMonthWidths(s: string, day: string, u: nat, mw: nat): (r: Option<DayTime>)
    requires 1 <= |day| <= 2 && AllDigits(day)
    requires u + mw <= |s| && AllDigits(s[u..u + mw]) && mw <= 2
    ensures r.Some? ==> WellFormed(r.value) && r.value.day == day
    ensures r.Some? ==> MonthTailAt(s, u, r.value)
    decreases mw
  {
    if mw == 0 then None
    else
      var e := u + mw;
      match TryYearWidths(s, day, s[u..e], e, YearWidthAt(s, e))
      case Some(m) =>
        MonthCase(s, u, e, m);
        Some(m)
      case None =>
        DigitsShorter(s, u, mw);
        TryMonthWidths(s, day, u, mw - 1)
  }

  /** Second alternative at `p`: "15/1 lúc 10h". */
  function DateFirstAt(s: string, p: nat): (r: Option<DayTime>)
    ensures r.Some? ==> WellFormed(r.value)
    ensures r.Some? ==> DateFirstShape(s, p, r.value)
  {
    var dw := FieldWidth(s, p, false);
    if dw == 0 then None
    else
      FieldWidthSep(s, p, false);
      var u := p + dw + 1;
      match TryMonthWidths(s, s[p..p + dw], u, GroupWidth(s, u))
      case Some(m) =>
        DateFirstShapeIntro(s, p, dw, u, m);
        Some(m)
      case None => None
  }

  /** The whole pattern at `p`: the first alternative, then the second. */
  function DayTimeAt(s: string, p: nat): (r: Option<DayTime>)
    ensures r.Some? ==> WellFormed(r.value)
    ensures r.Some? ==> TimeFirstShape(s, p, r.value) || DateFirstShape(s, p, r.value)
  {
    match TimeFirstAt(s, p)
    case Some(m) => Some(m)
    case None => DateFirstAt(s, p)
  }

  lemma DatePartsIntro(s: string, t: nat, day: string, month: string, year: string)
    requires OccursAt(s, t, day) && t + |day| < |s| && IsDateSep(s[t + |day|])
    requires OccursAt(s, t + |day| + 1, month) && YearAt(s, t + |day| + 1 + |month|, year)
    ensures DatePartsAt(s, t, day, month, year)
  {
  }

  lemma DateGroupsCase(s: string, t: nat, dw: nat, u: nat, e: nat)
    requires t + dw < |s| && IsDateSep(s[t + dw]) && u == t + dw + 1 && u <= e <= |s|
    ensures DatePartsAt(s, t, s[t..t + dw], s[u..e], YearGroup(s, e))
  {
    var day, month := s[t..t + dw], s[u..e];
    assert |day| == dw && |month| == e - u;
    DatePartsIntro(s, t, day, month, YearGroup(s, e));
  }

  lemma MinuteCase(s: string, w: nat, v: nat, m: DayTime)
    requires w <= v <= |s| && m.minute == s[w..v]
    requires exists t: nat :: NoNewline(s, v, t) && DatePartsAt(s, t, m.day, m.month, m.year)
    ensures OccursAt(s, w, m.minute) && DateFollows(s, w + |m.minute|, m)
  {
    var t: nat :| NoNewline(s, v, t) && DatePartsAt(s, t, m.day, m.month, m.year);
    assert w + |m.minute| == v;
    assert NoNewline(s, w + |m.minute|, t);
  }

  lemma TimeFirstCase(s: string, q: nat, hw: nat, w: nat, m: DayTime)
    requires q + hw < |s| && m.hour == s[q..q + hw] && IsTimeSep(s[q + hw])
    requires w == SkipSpaces(s, q + hw + 1) && OccursAt(s, w, m.minute)
    requires DateFollows(s, w + |m.minute|, m)
    ensures TimeThenDateAt(s, q, m)
  {
    assert SkipSpaces(s, q + |m.hour| + 1) == w;
    TimeGroupsIntro(s, q, m.hour, m.minute);
    assert DateFollows(s, SkipSpaces(s, q + |m.hour| + 1) + |m.minute|, m);
  }

  /** A time separator follows the hour digits that `FieldWidth` counts, a date separator the day digits. */
  lemma FieldWidthSep(s: string, i: nat, isTime: bool)
    ensures var w := FieldWidth(s, i, isTime);
      w > 0 ==> i + w < |s| && (if isTime then IsTimeSep(s[i + w]) else IsDateSep(s[i + w]))
  {
  }

  /** The minute text is the text at `w`. */
  lemma MinuteTextAt(s: string, w: nat)
    requires w <= |s|
    ensures OccursAt(s, w, MinuteText(s, w))
  {
  }

  lemma TimeGroupsIntro(s: string, q: nat, hour: string, minute: string)
    requires OccursAt(s, q, hour) && q + |hour| < |s| && IsTimeSep(s[q + |hour|])
    requires OccursAt(s, SkipSpaces(s, q + |hour| + 1), minute)
    ensures TimeGroupsAt(s, q, hour, minute)
  {
  }

  /** The hour and minute texts read at `z` stand where `TimeGroupsAt` says. */
  lemma TimeGroupsRead(s: string, z: nat)
    ensures var r := TimeAt(s, z);
      r.Some? ==> TimeGroupsAt(s, z, r.value.0, r.value.1)
  {
    var hw := FieldWidth(s, z, true);
    if hw > 0 {
      FieldWidthSep(s, z, true);
      var w := SkipSpaces(s, z + hw + 1);
      MinuteTextAt(s, w);
      var hour := s[z..z + hw];
      assert |hour| == hw;
      TimeGroupsIntro(s, z, hour, MinuteText(s, w));
    }
  }

  /** The time that ends the second alternative: hour and minute at their places after `v`. */
  lemma TimeTailShape(s: string, v: nat)
    ensures var r := TimeTailAt(s, v);
      r.Some? ==> v <= |s| && TimeGroupsAt(s, LeadIn(s, SkipSpaces(s, v)), r.value.0, r.value.1)
  {
    if v <= |s| {
      TimeGroupsRead(s, LeadIn(s, SkipSpaces(s, v)));
    }
  }

  lemma DateTailIntro(s: string, e: nat, m: DayTime)
    requires e <= |s| && YearAt(s, e, m.year)
    requires TimeGroupsAt(s, LeadIn(s, SkipSpaces(s, YearEnd(e, m.year))), m.hour, m.minute)
    ensures DateTailAt(s, e, m)
  {
  }

  /** The time read after the optional year ends the second alternative's tail. */
  lemma TailAfterYear(s: string, e: nat, v: nat, hm: (string, string), day: string, month: string, year: string)
    requires e <= |s| && YearAt(s, e, year) && v == YearEnd(e, year)
    requires TimeTailAt(s, v) == Some(hm)
    ensures DateTailAt(s, e, DayTime(hm.0, hm.1, day, month, year))
  {
    TimeTailShape(s, v);
    DateTailIntro(s, e, DayTime(hm.0, hm.1, day, month, year));
  }

  lemma YearRead(s: string, e: nat, yw: nat)
    requires yw >= 2 && e < |s| && IsDateSep(s[e]) && e + 1 + yw <= |s|
    ensures YearAt(s, e, s[e + 1..e + 1 + yw]) && YearEnd(e, s[e + 1..e + 1 + yw]) == e + 1 + yw
  {
  }

  /** With a year of width `yw` ending at `v`, the tail is the year, then the time. */
  lemma YearCase(s: string, e: nat, yw: nat, v: nat, hm: (string, string), day: string, month: string)
    requires yw >= 2 && e < |s| && IsDateSep(s[e]) && v == e + 1 + yw && v <= |s|
    requires TimeTailAt(s, v) == Some(hm)
    requires 1 <= |day| <= 2 && AllDigits(day) && 1 <= |month| <= 2 && AllDigits(month)
    requires yw <= 4 && AllDigits(s[e + 1..v])
    ensures WellFormed(DayTime(hm.0, hm.1, day, month, s[e + 1..v]))
    ensures DateTailAt(s, e, DayTime(hm.0, hm.1, day, month, s[e + 1..v]))
  {
    YearRead(s, e, yw);
    TailAfterYear(s, e, v, hm, day, month, s[e + 1..v]);
  }

  /** Without a year, the tail is the time right after the month. */
  lemma NoYearCase(s: string, e: nat, hm: (string, string), day: string, month: string)
    requires e <= |s| && TimeTailAt(s, e) == Some(hm)
    requires 1 <= |day| <= 2 && AllDigits(day) && 1 <= |month| <= 2 && AllDigits(month)
    ensures WellFormed(DayTime(hm.0, hm.1, day, month, ""))
    ensures DateTailAt(s, e, DayTime(hm.0, hm.1, day, month, ""))
  {
    assert YearAt(s, e, "") && YearEnd(e, "") == e;
    TailAfterYear(s, e, e, hm, day, month, "");
  }

  /** From `u` on: the month text, then the tail of the second alternative. */
  predicate MonthTailAt(s: string, u: nat, m: DayTime) {
    OccursAt(s, u, m.month) && DateTailAt(s, u + |m.month|, m)
  }

  lemma MonthCase(s: string, u: nat, e: nat, m: DayTime)
    requires u <= e <= |s| && m.month == s[u..e] && DateTailAt(s, e, m)
    ensures MonthTailAt(s, u, m)
  {
    assert u + |m.month| == e;
  }

  lemma DateFirstShapeIntro(s: string, p: nat, dw: nat, u: nat, m: DayTime)
    requires dw == |m.day| && OccursAt(s, p, m.day) && p + dw < |s| && IsDateSep(s[p + dw])
    requires u == p + dw + 1 && MonthTailAt(s, u, m)
    ensures DateFirstShape(s, p, m)
  {
    assert p + |m.day| + 1 == u;
  }

  /** `re.search` of the day-and-time pattern: the groups of the leftmost match; positions are tried from `i` on. */
  function SearchDayTime(s: string, i: nat): (r: Option<DayTime>)
    ensures r.Some? ==> WellFormed(r.value)
    decreases |s| + 1 - i
  {
    if i > |s| then None
    else if DayTimeAt(s, i).Some? then DayTimeAt(s, i)
    else SearchDayTime(s, i + 1)
  }

  lemma {:induction false} SearchDayTimeIsScan(s: string, i: nat)
    requires i <= |s| + 1
    ensures SearchDayTime(s, i) == Leftmost(p => DayTimeAt(s, p), i, |s|)
    decreases |s| + 1 - i
  {
    if i <= |s| && DayTimeAt(s, i).None? {
      SearchDayTimeIsScan(s, i + 1);
    }
  }

  /** The search finds a match exactly when some position from `i` on matches, and none before it does. */
  lemma SearchDayTimeLeftmost(s: string, i: nat)
    requires i <= |s| + 1
    ensures var r := SearchDayTime(s, i);
      && (r.Some? ==> exists p :: i <= p <= |s| && DayTimeAt(s, p) == r && forall q :: i <= q < p ==> DayTimeAt(s, q).None?)
      && (r.None? <==> forall p :: i <= p <= |s| ==> DayTimeAt(s, p).None?)
  {
    var f := p => DayTimeAt(s, p);
    SearchDayTimeIsScan(s, i);
    LeftmostFirst(f, i, |s|);
    assert forall p :: f(p) == DayTimeAt(s, p);
  }

  /** The lazy scan steps over a run of characters that are neither digits nor newlines. */
  lemma {:induction false} ScanPast(s: string, a: nat, b: nat)
    requires a <= b <= |s|
    requires forall k :: a <= k < b ==> !IsDigit(s[k]) && s[k] != '\n'
    ensures ScanDateGroups(s, a) == ScanDateGroups(s, b)
    decreases b - a
  {
    if a < b {
      NoDateAt(s, a);
      ScanMovesOn(s, a);
      ScanPast(s, a + 1, b);
    }
  }

  /** No date starts at a character that is not a digit. */
  lemma NoDateAt(s: string, t: nat)
    requires t < |s| && !IsDigit(s[t])
    ensures DateGroupsAt(s, t).None?
  {
    assert FieldWidth(s, t, false) == 0;
  }

  /** Where no date starts, the lazy scan moves on by one, unless a newline stops it. */
  lemma ScanMovesOn(s: string, t: nat)
    requires t < |s| && s[t] != '\n' && DateGroupsAt(s, t).None?
    ensures ScanDateGroups(s, t) == ScanDateGroups(s, t + 1)
  {
  }

  /** "lúc 10h30 ngày 15/1": the first alternative, past `lúc`, with the date after "ngày". */
  lemma LucTimeExample()
    ensures SearchDayTime("lúc 10h30 ngày 15/1", 0) == Some(DayTime("10", "30", "15", "1", ""))
  {
    var s := "lúc 10h30 ngày 15/1";
    assert s == "lúc " + "10h30 ngày 15/1";
    LucTimeFirst(s);
  }

  /*
   * The steps below take the text as two pieces: a text that is one literal makes the
   * verifier evaluate every function applied to it in full, at every mention.
   */

  lemma LucTimeFirst(s: string)
    requires s == "lúc " + "10h30 ngày 15/1"
    ensures SearchDayTime(s, 0) == Some(DayTime("10", "30", "15", "1", ""))
  {
    LucChars(s);
    LucLeadIn(s);
    LucMinute(s);
    assert FieldWidth(s, 4, true) == 2;
    assert SkipSpaces(s, 7) == 7;
    assert SkipDigits(s, 9) == 9 && SkipDigits(s, 8) == 9 && SkipDigits(s, 7) == 9;
    assert DigitRun(s, 7) == 2;
    assert TimeFirstAt(s, 0) == Some(DayTime("10", "30", "15", "1", ""));
    assert DayTimeAt(s, 0) == Some(DayTime("10", "30", "15", "1", ""));
  }

  lemma LucChars(s: string)
    requires s == "lúc " + "10h30 ngày 15/1"
    ensures |s| == 19 && s[3] == ' ' && s[4] == '1' && s[5] == '0' && s[6] == 'h' && s[7] == '3' && s[8] == '0'
    ensures s[9] == ' ' && s[15] == '1' && s[16] == '5' && s[17] == '/' && s[18] == '1'
    ensures s[0..3] == "lúc" && s[4..6] == "10" && s[7..9] == "30" && s[15..17] == "15" && s[18..19] == "1"
    ensures forall k :: 9 <= k < 15 ==> !IsDigit(s[k]) && s[k] != '\n'
  {
  }

  lemma LucLeadIn(s: string)
    requires s == "lúc " + "10h30 ngày 15/1"
    ensures LeadIn(s, 0) == 4
  {
    LucChars(s);
    assert SkipSpaces(s, 4) == 4 && SkipSpaces(s, 3) == 4;
  }

  lemma LucMinute(s: string)
    requires s == "lúc " + "10h30 ngày 15/1"
    ensures TryMinuteWidths(s, "10", 7, 2) == Some(DayTime("10", "30", "15", "1", ""))
  {
    LucChars(s);
    LucTimeDate(s);
  }

  lemma LucTimeDate(s: string)
    requires s == "lúc " + "10h30 ngày 15/1"
    ensures ScanDateGroups(s, 9) == Some(("15", "1", ""))
  {
    LucChars(s);
    assert DateGroupsAt(s, 15) == Some(("15", "1", "")) by {
      assert FieldWidth(s, 15, false) == 2;
      assert SkipDigits(s, 19) == 19 && SkipDigits(s, 18) == 19;
      assert DigitRun(s, 18) == 1;
      assert YearWidthAt(s, 19) == 0;
    }
    ScanPast(s, 9, 15);
  }

  /** "10h 15/1": the minute group gives back its second digit so that the date "5/1" can match. */
  lemma MinuteBacktrackExample()
    ensures SearchDayTime("10h 15/1", 0) == Some(DayTime("10", "1", "5", "1", ""))
  {
    var s := "10h 15/1";
    assert s == "10h " + "15/1";
    MinuteBacktrackFirst(s);
  }

  lemma MinuteBacktrackFirst(s: string)
    requires s == "10h " + "15/1"
    ensures SearchDayTime(s, 0) == Some(DayTime("10", "1", "5", "1", ""))
  {
    BacktrackChars(s);
    NoLucAt(s);
    MinuteBacktrackMinute(s);
    assert FieldWidth(s, 0, true) == 2;
    assert SkipSpaces(s, 4) == 4 && SkipSpaces(s, 3) == 4;
    assert SkipDigits(s, 6) == 6 && SkipDigits(s, 5) == 6 && SkipDigits(s, 4) == 6;
    assert DigitRun(s, 4) == 2;
    assert TimeFirstAt(s, 0) == Some(DayTime("10", "1", "5", "1", ""));
    assert DayTimeAt(s, 0) == Some(DayTime("10", "1", "5", "1", ""));
  }

  lemma BacktrackChars(s: string)
    requires s == "10h " + "15/1"
    ensures |s| == 8 && s[0] == '1' && s[1] == '0' && s[2] == 'h' && s[3] == ' '
    ensures s[4] == '1' && s[5] == '5' && s[6] == '/' && s[7] == '1'
    ensures s[0..2] == "10" && s[4..5] == "1" && s[5..6] == "5" && s[7..8] == "1"
  {
  }

  /** No `lúc` where the text starts with a digit. */
  lemma NoLucAt(s: string)
    requires |s| > 0 && IsDigit(s[0])
    ensures LeadIn(s, 0) == 0
  {
    if |s| >= 3 {
      assert s[0..3][0] == s[0];
    }
  }

  lemma MinuteBacktrackMinute(s: string)
    requires s == "10h " + "15/1"
    ensures TryMinuteWidths(s, "10", 4, 2) == Some(DayTime("10", "1", "5", "1", ""))
  {
    BacktrackChars(s);
    MinuteBacktrackDates(s);
    assert TryMinuteWidths(s, "10", 4, 1) == Some(DayTime("10", "1", "5", "1", ""));
  }

  lemma MinuteBacktrackDates(s: string)
    requires s == "10h " + "15/1"
    ensures ScanDateGroups(s, 6).None?
    ensures ScanDateGroups(s, 5) == Some(("5", "1", ""))
  {
    BacktrackChars(s);
    assert DateGroupsAt(s, 7).None? && DateGroupsAt(s, 8).None?;
    assert ScanDateGroups(s, 8).None?;
    assert ScanDateGroups(s, 7).None?;
    ScanPast(s, 6, 7);
    assert DateGroupsAt(s, 5) == Some(("5", "1", "")) by {
      assert FieldWidth(s, 5, false) == 1;
      assert SkipDigits(s, 8) == 8 && SkipDigits(s, 7) == 8;
      assert DigitRun(s, 7) == 1;
      assert YearWidthAt(s, 8) == 0;
    }
  }

  /** "15/1/2024 lúc 9h": the second alternative, with a year and an empty minute. */
  lemma DateFirstExample()
    ensures SearchDayTime("15/1/2024 lúc 9h", 0) == Some(DayTime("9", "", "15", "1", "2024"))
  {
    var s := "15/1/2024 lúc 9h";
    assert s == "15/1/2024 " + "lúc 9h";
    DateFirstSecond(s);
  }

  lemma DateFirstSecond(s: string)
    requires s == "15/1/2024 " + "lúc 9h"
    ensures SearchDayTime(s, 0) == Some(DayTime("9", "", "15", "1", "2024"))
  {
    DateFirstChars(s);
    assert TimeFirstAt(s, 0).None? by {
      NoLucAt(s);
      assert FieldWidth(s, 0, true) == 0;
    }
    DateFirstYear(s);
    assert FieldWidth(s, 0, false) == 2;
    assert SkipDigits(s, 4) == 4 && SkipDigits(s, 3) == 4;
    assert DigitRun(s, 3) == 1;
    assert TryMonthWidths(s, "15", 3, 1) == Some(DayTime("9", "", "15", "1", "2024"));
    assert DateFirstAt(s, 0) == Some(DayTime("9", "", "15", "1", "2024"));
    assert DayTimeAt(s, 0) == Some(DayTime("9", "", "15", "1", "2024"));
  }

  lemma DateFirstChars(s: string)
    requires s == "15/1/2024 " + "lúc 9h"
    ensures |s| == 16 && s[0] == '1' && s[1] == '5' && s[2] == '/' && s[3] == '1' && s[4] == '/'
    ensures s[5] == '2' && s[6] == '0' && s[7] == '2' && s[8] == '4' && s[9] == ' '
    ensures s[10] == 'l' && s[13] == ' ' && s[14] == '9' && s[15] == 'h'
    ensures s[0..2] == "15" && s[3..4] == "1" && s[5..9] == "2024" && s[10..13] == "lúc" && s[14..15] == "9"
  {
  }

  lemma DateFirstYear(s: string)
    requires s == "15/1/2024 " + "lúc 9h"
    ensures YearWidthAt(s, 4) == 4
    ensures TryYearWidths(s, "15", "1", 4, 4) == Some(DayTime("9", "", "15", "1", "2024"))
  {
    DateFirstChars(s);
    DateFirstTime(s);
    assert SkipDigits(s, 9) == 9 && SkipDigits(s, 8) == 9 && SkipDigits(s, 7) == 9 && SkipDigits(s, 6) == 9 && SkipDigits(s, 5) == 9;
    assert DigitRun(s, 5) == 4;
  }

  lemma DateFirstTime(s: string)
    requires s == "15/1/2024 " + "lúc 9h"
    ensures TimeTailAt(s, 9) == Some(("9", ""))
  {
    DateFirstChars(s);
    assert SkipSpaces(s, 10) == 10 && SkipSpaces(s, 9) == 10;
    assert LeadIn(s, 10) == 14 by {
      assert SkipSpaces(s, 14) == 14 && SkipSpaces(s, 13) == 14;
    }
    assert FieldWidth(s, 14, true) == 1;
    assert SkipSpaces(s, 16) == 16 && SkipDigits(s, 16) == 16;
    assert MinuteText(s, 16) == "";
  }

  /**
   * `datetime(year, month, day, hour, minute)` from the groups: a missing
   * minute is 0, a missing year is `nowYear`, a year below 100 gets 2000 added;
   * `None` is the `ValueError` of a date or time that does not exist.
   */
  function DayTimeValue(m: DayTime, nowYear: int): (r: Option<DateTime>)
    requires WellFormed(m)
    ensures r.Some? ==> IsPyDateTime(r.value) && r.value.second == 0
  {
    var minute := if m.minute == "" then 0 else DigitsValue(m.minute);
    var year0 := if m.year == "" then nowYear else DigitsValue(m.year);
    var year := if year0 < 100 then year0 + 2000 else year0;
    var t := DateTime(Date(year, DigitsValue(m.month), DigitsValue(m.day)), DigitsValue(m.hour), minute, 0);
    if IsPyDateTime(t) then Some(t) else None
  }

  /**
   * The defaults of the day-and-time phrase: an absent minute is 0, an absent
   * year is the clock's, a two-digit year lies in 2000..2099; an hour past 23
   * or a month past 12 never gives a moment.
   */
  lemma DayTimeDefaults(m: DayTime, nowYear: int)
    requires WellFormed(m)
    ensures var r := DayTimeValue(m, nowYear);
      && (r.Some? ==> r.value.date.day == DigitsValue(m.day) && r.value.date.month == DigitsValue(m.month)
                      && r.value.hour == DigitsValue(m.hour))
      && (r.Some? && m.minute == "" ==> r.value.minute == 0)
      && (r.Some? && m.year == "" && nowYear >= 100 ==> r.value.date.year == nowYear)
      && (r.Some? && |m.year| == 2 ==> 2000 <= r.value.date.year <= 2099)
      && (DigitsValue(m.hour) >= 24 || DigitsValue(m.month) > 12 ==> r.None?)
  {
    if |m.year| == 2 {
      DigitsValueBound(m.year);
    }
  }
}
