/**
 * GoogleSheetService: one row per article in a sheet per publication month,
 * a duplicate check on the URL column, rate-limit retries around the two
 * value calls, and the reordering of the monthly sheets newest first.
 */
module GoogleSheets {
  import opened Wrappers
  import opened Text
  import opened Calendar
  import opened Model
  import opened SheetBackend

  /** The header row of a new monthly sheet. */
  const Header: seq<string> :=
    ["Date", "Title", "URL", "Sentiment", "Themes", "Tone", "Authorities", "Location",
     "Festival", "Festival Name", "Source", "Summary"]

  /** Where the URL sits in a row: column C. */
  const UrlColumn: nat := 2

  /** The retry loops' attempt count and first pause in milliseconds. */
  const RetryAttemptsMax: nat := 5
  const FirstBackoff: int := 1000
  const GetExhausted: string := "GET failed after retries due to rate limiting."
  const AppendExhausted: string := "APPEND failed after retries due to rate limiting."
  const MissingRange: string := "400 Unable to parse range"

  // ---------------------------------------------------------------------------
  // The monthly partition

  /** The published date as the row and the partition name see it: ISO text, or "" when absent. */
  function DateText(d: Option<LocalDate>): string {
    if d.Some? then IsoString(d.value) else ""
  }

  /** getMonthlySheetName: a blank date text names the unknown-date sheet; substring(0, 7) fails on short text. */
  function MonthlySheetName(dateString: string): (r: Result<string>)
    ensures r.Err? <==> !IsBlank(dateString) && |dateString| < 7
    ensures IsBlank(dateString) ==> r == Ok("Articles_UnknownDate")
    ensures r.Ok? ==> StartsWith(r.value, "Articles_")
    ensures r.Ok? && !IsBlank(dateString) ==> r.value[9..] == dateString[..7]
  {
    if IsBlank(dateString) then Ok("Articles_UnknownDate")
    else if |dateString| < 7 then Err("StringIndexOutOfBoundsException")
    else Ok("Articles_" + dateString[..7])
  }

  /** The partition an article's date selects. */
  function PartitionName(d: Option<LocalDate>): Result<string> {
    MonthlySheetName(DateText(d))
  }

  lemma IsoStringNotBlank(d: LocalDate)
    ensures !IsBlank(IsoString(d))
  {
    var k := |YearText(d.year)|;
    assert IsoString(d)[k] == '-';
  }

  /**
   * Every article has a partition: the unknown-date sheet without a date, and
   * for a four-digit year the sheet named after its year and month.
   */
  lemma PartitionOfDate(d: Option<LocalDate>)
    ensures PartitionName(d).Ok?
    ensures d.None? ==> PartitionName(d) == Ok("Articles_UnknownDate")
    ensures d.Some? && 0 <= d.value.year <= 9999 ==>
              PartitionName(d) == Ok("Articles_" + Pad4(d.value.year) + "-" + Pad2(d.value.month))
  {
    if d.Some? {
      IsoStringNotBlank(d.value);
      if 0 <= d.value.year <= 9999 {
        var t := IsoString(d.value);
        IsoStringFourDigitYear(d.value);
        assert MonthlySheetName(t) == Ok("Articles_" + t[..7]);
        assert "Articles_" + (Pad4(d.value.year) + "-" + Pad2(d.value.month))
            == "Articles_" + Pad4(d.value.year) + "-" + Pad2(d.value.month);
      }
    }
  }

  /** The date in the description of the monthly partition: 2025-07-15 goes to Articles_2025-07. */
  lemma PartitionExample()
    ensures PartitionName(Some(Date(2025, 7, 15))) == Ok("Articles_2025-07")
  {
    PartitionOfDate(Some(Date(2025, 7, 15)));
    assert 2025 / 1000 % 10 == 2 && 2025 / 100 % 10 == 0 && 2025 / 10 % 10 == 2 && 2025 % 10 == 5;
    assert DigitChar(0) == '0' && DigitChar(2) == '2' && DigitChar(5) == '5' && DigitChar(7) == '7';
    assert Pad4(2025) == "2025";
    assert Pad2(7) == "07";
    var d: LocalDate := Date(2025, 7, 15);
    assert d.year == 2025 && d.month == 7;
    assert "Articles_" + Pad4(d.year) + "-" + Pad2(d.month) == "Articles_2025-07";
  }

  lemma Pad2Injective(a: nat, b: nat)
    requires a <= 99 && b <= 99 && Pad2(a) == Pad2(b)
    ensures a == b
  {
    assert Pad2(a)[0] == Pad2(b)[0] && Pad2(a)[1] == Pad2(b)[1];
    assert a / 10 % 10 == b / 10 % 10 && a % 10 == b % 10;
  }

  /** A number below 10000 is the sum of its four decimal digits' values. */
  lemma FourDigits(a: nat)
    requires a <= 9999
    ensures a == 1000 * (a / 1000 % 10) + 100 * (a / 100 % 10) + 10 * (a / 10 % 10) + a % 10
  {
    var q1, q2, q3 := a / 10, a / 100, a / 1000;
    assert a == 10 * q1 + a % 10;
    assert q1 == 10 * (q1 / 10) + q1 % 10;
    assert q1 / 10 == q2 && q1 % 10 == a / 10 % 10;
    assert q2 == 10 * (q2 / 10) + q2 % 10;
    assert q2 / 10 == q3 && q2 % 10 == a / 100 % 10;
    assert q3 < 10 && q3 % 10 == q3;
  }

  lemma Pad4Injective(a: nat, b: nat)
    requires a <= 9999 && b <= 9999 && Pad4(a) == Pad4(b)
    ensures a == b
  {
    assert Pad4(a)[0] == Pad4(b)[0] && Pad4(a)[1] == Pad4(b)[1];
    assert Pad4(a)[2] == Pad4(b)[2] && Pad4(a)[3] == Pad4(b)[3];
    FourDigits(a);
    FourDigits(b);
  }

  /** Two dated articles with four-digit years share a sheet exactly when they share year and month. */
  lemma SamePartitionIffSameMonth(a: LocalDate, b: LocalDate)
    requires 0 <= a.year <= 9999 && 0 <= b.year <= 9999
    ensures PartitionName(Some(a)) == PartitionName(Some(b)) <==> a.year == b.year && a.month == b.month
  {
    PartitionOfDate(Some(a));
    PartitionOfDate(Some(b));
    if PartitionName(Some(a)) == PartitionName(Some(b)) {
      MonthlyNameInjective(a.year, a.month, b.year, b.month);
    }
  }

  /** The name of a monthly sheet determines its year and month. */
  lemma MonthlyNameInjective(y1: nat, m1: nat, y2: nat, m2: nat)
    requires y1 <= 9999 && y2 <= 9999 && m1 <= 99 && m2 <= 99
    requires "Articles_" + Pad4(y1) + "-" + Pad2(m1) == "Articles_" + Pad4(y2) + "-" + Pad2(m2)
    ensures y1 == y2 && m1 == m2
  {
    var n1 := "Articles_" + Pad4(y1) + "-" + Pad2(m1);
    var n2 := "Articles_" + Pad4(y2) + "-" + Pad2(m2);
    assert n1[9..13] == Pad4(y1) && n2[9..13] == Pad4(y2);
    assert n1[14..16] == Pad2(m1) && n2[14..16] == Pad2(m2);
    Pad4Injective(y1, y2);
    Pad2Injective(m1, m2);
  }

  // ---------------------------------------------------------------------------
  // The row

  /** The summary cut to 100 characters plus "..." when longer. */
  function TrimSummary(s: Option<string>): (r: Option<string>)
    ensures r.None? <==> s.None?
    ensures s.Some? && |s.value| <= 100 ==> r == s
    ensures s.Some? && |s.value| > 100 ==>
              |r.value| == 103 && r.value[..100] == s.value[..100] && r.value[100..] == "..."
  {
    if s.Some? && |s.value| > 100 then Some(s.value[..100] + "...") else s
  }

  /** String.join */
  function Join(sep: string, items: seq<string>): string {
    if items == [] then ""
    else if |items| == 1 then items[0]
    else items[0] + sep + Join(sep, items[1..])
  }

  /** The theme array's texts as String.join writes them: a null element as "null". */
  function ThemeTexts(themes: seq<Option<string>>): (t: seq<string>)
    ensures |t| == |themes|
    ensures forall i :: 0 <= i < |themes| ==> t[i] == if themes[i].Some? then themes[i].value else "null"
  {
    seq(|themes|, i requires 0 <= i < |themes| => themes[i].GetOr("null"))
  }

  /** An element of the raw authority list that String.join can take: a string, or null. */
  predicate Joinable(e: Json) {
    e.JString? || e.JNull?
  }

  /** The authority list's texts as String.join writes them: a null element as "null". */
  function AuthorityTexts(items: seq<Json>): (t: seq<string>)
    requires forall i :: 0 <= i < |items| ==> Joinable(items[i])
    ensures |t| == |items|
    ensures forall i :: 0 <= i < |items| ==> (items[i].JString? ==> t[i] == items[i].s) && (items[i].JNull? ==> t[i] == "null")
  {
    seq(|items|, i requires 0 <= i < |items| => if items[i].JString? then items[i].s else "null")
  }

  /**
   * The row of cells, where an absent cell is Java's null. String.join throws
   * a NullPointerException on a null theme or authority list and a
   * ClassCastException on an authority that is not a string.
   */
  function BuildRow(f: ArticleFields): (r: Result<seq<Option<string>>>)
    ensures r.Err? <==>
              || f.themes.None? || f.authorities.None?
              || exists i :: 0 <= i < |f.authorities.value| && !Joinable(f.authorities.value[i])
    ensures r.Err? && f.themes.Some? && f.authorities.Some? ==> r.message == "ClassCastException"
    ensures r.Ok? ==> |r.value| == |Header| && r.value[UrlColumn] == Some(f.url)
    ensures r.Ok? ==> r.value[0] == Some(DateText(f.publishedDate)) && r.value[11] == TrimSummary(f.summary)
    ensures r.Ok? ==> (r.value[8] == Some("YES") <==> f.festivalLinked) && r.value[8] in {Some("YES"), Some("NO")}
    ensures r.Ok? ==>
              && r.value[4] == Some(Join(", ", ThemeTexts(f.themes.value)))
              && r.value[6] == Some(Join(", ", AuthorityTexts(f.authorities.value)))
  {
    if f.themes.None? || f.authorities.None? then Err("NullPointerException")
    else if exists i :: 0 <= i < |f.authorities.value| && !Joinable(f.authorities.value[i]) then
      Err("ClassCastException")
    else Ok([Some(DateText(f.publishedDate)), Some(f.title), Some(f.url), f.sentiment,
             Some(Join(", ", ThemeTexts(f.themes.value))), f.tone,
             Some(Join(", ", AuthorityTexts(f.authorities.value))), f.location,
             Some(if f.festivalLinked then "YES" else "NO"), Some(f.festivalName.GetOr("")),
             Some(f.source.GetOr("")), TrimSummary(f.summary)])
  }

  /** The row as the sheet stores it: a null cell is left empty. */
  function RowText(row: seq<Option<string>>): (t: seq<string>)
    ensures |t| == |row| && forall i :: 0 <= i < |row| ==> t[i] == row[i].GetOr("")
  {
    seq(|row|, i requires 0 <= i < |row| => row[i].GetOr(""))
  }

  /**
   * The row appendArticle sends, cell by cell as the sheet stores it: the
   * date text, title, URL, sentiment, joined themes, tone, joined
   * authorities, location, the festival flag as "YES" or "NO", the festival
   * name, the source and the trimmed summary, with an empty cell for null.
   */
  lemma StoredRowCells(f: ArticleFields)
    requires BuildRow(f).Ok?
    ensures var t := RowText(BuildRow(f).value);
            && |t| == |Header| == 12
            && t[0] == DateText(f.publishedDate) && t[1] == f.title && t[UrlColumn] == f.url
            && t[3] == f.sentiment.GetOr("") && t[4] == Join(", ", ThemeTexts(f.themes.value))
            && t[5] == f.tone.GetOr("") && t[6] == Join(", ", AuthorityTexts(f.authorities.value))
            && t[7] == f.location.GetOr("") && (t[8] == "YES" <==> f.festivalLinked) && (t[8] == "YES" || t[8] == "NO")
            && t[9] == f.festivalName.GetOr("") && t[10] == f.source.GetOr("")
            && (f.summary.None? ==> t[11] == "")
            && (f.summary.Some? && |f.summary.value| <= 100 ==> t[11] == f.summary.value)
            && (f.summary.Some? && |f.summary.value| > 100 ==> t[11] == f.summary.value[..100] + "...")
  {
    var t := RowText(BuildRow(f).value);
    assert t[11] == TrimSummary(f.summary).GetOr("");
  }

  /** Some non-empty row of the URL column equals the URL, ignoring case. */
  predicate IsDuplicate(column: seq<seq<string>>, url: string) {
    exists i :: 0 <= i < |column| && column[i] != [] && EqualsIgnoreCase(url, column[i][0])
  }

  /** The sheets once the partition sheet is ensured: unchanged, or a new styled sheet with the header. */
  function AfterEnsure(sheets: seq<Sheet>, name: string, newId: int): (r: seq<Sheet>)
    ensures name in Titles(r)
  {
    if name in Titles(sheets) then sheets
    else
      var r := sheets + [Sheet(newId, name, [Header], true)];
      assert Titles(r)[|sheets|] == name;
      r
  }

  lemma {:induction false} FindTitleAfterAdd(sheets: seq<Sheet>, s: Sheet)
    requires s.title !in Titles(sheets)
    ensures FindTitle(sheets + [s], s.title) == Some(|sheets|)
  {
    if sheets != [] {
      assert Titles(sheets)[0] == sheets[0].title;
      assert (sheets + [s])[1..] == sheets[1..] + [s];
      assert s.title !in Titles(sheets[1..]) by {
        forall i | 0 <= i < |sheets| - 1
          ensures Titles(sheets[1..])[i] != s.title
        {
          assert Titles(sheets)[i + 1] == sheets[i + 1].title;
        }
      }
      FindTitleAfterAdd(sheets[1..], s);
    }
  }

  /**
   * Writing an article makes the next write of it a duplicate: once its row
   * sits below the first row of its partition sheet, the URL column shows its
   * URL. A URL that is empty leaves the cell empty, and a row that lands in
   * row 1 is outside the column, so neither is found again.
   */
  lemma AppendedRowIsFound(sheets: seq<Sheet>, name: string, f: ArticleFields)
    requires BuildRow(f).Ok? && f.url != ""
    requires FindTitle(sheets, name).Some? && |sheets[FindTitle(sheets, name).value].rows| >= 1
    ensures var after := AppendedTo(sheets, name, RowText(BuildRow(f).value));
            && Titles(after) == Titles(sheets)
            && FindTitle(after, name) == FindTitle(sheets, name)
            && IsDuplicate(ColumnC(after[FindTitle(sheets, name).value].rows), f.url)
  {
    var row := RowText(BuildRow(f).value);
    assert row[UrlColumn] == f.url;
    AppendedToSheet(sheets, name, row);
    LastRowInColumn(sheets[FindTitle(sheets, name).value].rows, row);
  }

  /** Appending a row keeps the titles and puts the row last in its sheet. */
  lemma AppendedToSheet(sheets: seq<Sheet>, name: string, row: seq<string>)
    requires FindTitle(sheets, name).Some?
    ensures var after := AppendedTo(sheets, name, row);
            var k := FindTitle(sheets, name).value;
            && Titles(after) == Titles(sheets)
            && FindTitle(after, name) == FindTitle(sheets, name)
            && after[k].rows == sheets[k].rows + [row]
  {
    var after := AppendedTo(sheets, name, row);
    assert Titles(after) == Titles(sheets);
    FindTitleSameTitles(sheets, after, name);
  }

  /** A row below the first shows its non-empty third cell in the URL column. */
  lemma LastRowInColumn(rows: seq<seq<string>>, row: seq<string>)
    requires |rows| >= 1 && |row| > UrlColumn && row[UrlColumn] != ""
    ensures IsDuplicate(ColumnC(rows + [row]), row[UrlColumn])
  {
    var all := rows + [row];
    var col := ColumnC(all);
    var last := |all| - 2;
    assert all[last + 1] == row;
    assert col[last] == [row[UrlColumn]];
  }

  lemma FindTitleSameTitles(a: seq<Sheet>, b: seq<Sheet>, title: string)
    requires Titles(a) == Titles(b)
    ensures FindTitle(a, title) == FindTitle(b, title)
  {
    if a != [] {
      assert Titles(a[1..]) == Titles(a)[1..];
      assert Titles(b[1..]) == Titles(b)[1..];
      FindTitleSameTitles(a[1..], b[1..], title);
    }
  }

  // ---------------------------------------------------------------------------
  // Rate-limit retries

  function Pow2(n: nat): (r: nat)
    ensures r >= 1
  {
    if n == 0 then 1 else 2 * Pow2(n - 1)
  }

  /** The script after `n` calls. */
  function DropOutcomes(script: seq<CallOutcome>, n: nat): seq<CallOutcome> {
    if n <= |script| then script[n..] else []
  }

  /** A call logged `n` times. */
  function Repeat(c: Call, n: nat): (r: seq<Call>)
    ensures |r| == n && forall i :: 0 <= i < n ==> r[i] == c
  {
    seq(n, i => c)
  }

  lemma RepeatOneMore(c: Call, n: nat)
    ensures Repeat(c, n + 1) == Repeat(c, n) + [c]
  {
  }

  /** What one attempt at a value call gives: the scripted failure, a missing sheet, or success. */
  function Attempt(next: CallOutcome, targetExists: bool): CallOutcome {
    if next.Failed? then next
    else if !targetExists then Failed(MissingRange)
    else Done
  }

  /** The k-th attempt of a run that starts on this script. */
  function AttemptAt(script: seq<CallOutcome>, targetExists: bool, k: nat): CallOutcome {
    Attempt(NextOutcome(DropOutcomes(script, k)), targetExists)
  }

  predicate RateLimited(o: CallOutcome) {
    o.Failed? && Contains(o.message, "429")
  }

  /** How a retry loop ends: its result, how many attempts it made, the pauses it slept. */
  datatype RetryRun = RetryRun(outcome: Status, attempts: nat, delays: seq<int>)

  /**
   * safeGetWithRetry / safeAppendWithRetry: up to `tries` attempts; a failure
   * whose message contains "429" sleeps `backoff` and retries with the pause
   * doubled; any other failure is rethrown; running out of attempts throws
   * `exhausted`.
   */
  function Retry(script: seq<CallOutcome>, targetExists: bool, tries: nat, backoff: int, exhausted: string): RetryRun
    decreases tries
  {
    if tries == 0 then RetryRun(Failure(exhausted), 0, [])
    else
      var o := Attempt(NextOutcome(script), targetExists);
      if o.Done? then RetryRun(Success, 1, [])
      else if RateLimited(o) then
        var rest := Retry(RestOutcomes(script), targetExists, tries - 1, 2 * backoff, exhausted);
        RetryRun(rest.outcome, rest.attempts + 1, [backoff] + rest.delays)
      else RetryRun(Failure(o.message), 1, [])
  }

  lemma DropOutcomesRest(script: seq<CallOutcome>, n: nat)
    ensures DropOutcomes(RestOutcomes(script), n) == DropOutcomes(script, n + 1)
  {
    if n > 0 {
      DropOutcomesRest(script, n - 1);
    }
  }

  /**
   * A retry run makes at least one and at most `tries` attempts; it pauses
   * after every attempt but possibly the last, and pauses after the last
   * only when it ran out of attempts, which ends it with `exhausted`.
   */
  lemma {:induction false} RetryShape(script: seq<CallOutcome>, targetExists: bool, tries: nat, backoff: int, exhausted: string)
    ensures var run := Retry(script, targetExists, tries, backoff, exhausted);
            && run.attempts <= tries
            && (tries > 0 ==> run.attempts >= 1)
            && (|run.delays| == run.attempts || |run.delays| + 1 == run.attempts)
            && (|run.delays| == run.attempts ==> run.attempts == tries && run.outcome == Failure(exhausted))
    decreases tries
  {
    if tries > 0 {
      RetryShape(RestOutcomes(script), targetExists, tries - 1, 2 * backoff, exhausted);
    }
  }

  /** The k-th pause is the first one doubled k times. */
  lemma {:induction false} RetryBackoff(script: seq<CallOutcome>, targetExists: bool, tries: nat, backoff: int, exhausted: string)
    ensures var run := Retry(script, targetExists, tries, backoff, exhausted);
            forall k :: 0 <= k < |run.delays| ==> run.delays[k] == backoff * Pow2(k)
    decreases tries
  {
    if tries > 0 && RateLimited(Attempt(NextOutcome(script), targetExists)) {
      var rest := Retry(RestOutcomes(script), targetExists, tries - 1, 2 * backoff, exhausted);
      RetryBackoff(RestOutcomes(script), targetExists, tries - 1, 2 * backoff, exhausted);
      forall k | 0 < k < |rest.delays| + 1
        ensures ([backoff] + rest.delays)[k] == backoff * Pow2(k)
      {
        assert ([backoff] + rest.delays)[k] == rest.delays[k - 1];
        DoubledPause(backoff, k);
      }
    }
  }

  /** Shifting the script by one call shifts the attempts by one. */
  lemma AttemptAtRest(script: seq<CallOutcome>, targetExists: bool, k: nat)
    ensures AttemptAt(RestOutcomes(script), targetExists, k) == AttemptAt(script, targetExists, k + 1)
  {
    DropOutcomesRest(script, k);
  }

  /**
   * Every pause follows a rate-limited attempt, and when the run does not run
   * out of attempts, its last attempt was not rate limited and decides the
   * result.
   */
  lemma {:induction false} RetryAttempts(script: seq<CallOutcome>, targetExists: bool, tries: nat, backoff: int, exhausted: string)
    ensures var run := Retry(script, targetExists, tries, backoff, exhausted);
            && (forall k :: 0 <= k < |run.delays| ==> RateLimited(AttemptAt(script, targetExists, k)))
            && (|run.delays| + 1 == run.attempts ==>
                  var last := AttemptAt(script, targetExists, |run.delays|);
                  && !RateLimited(last)
                  && run.outcome == if last.Done? then Success else Failure(last.message))
    decreases tries
  {
    if tries > 0 {
      var o := Attempt(NextOutcome(script), targetExists);
      assert AttemptAt(script, targetExists, 0) == o;
      if RateLimited(o) {
        var rest := Retry(RestOutcomes(script), targetExists, tries - 1, 2 * backoff, exhausted);
        RetryAttempts(RestOutcomes(script), targetExists, tries - 1, 2 * backoff, exhausted);
        forall k | 0 < k <= |rest.delays| + 1
          ensures AttemptAt(script, targetExists, k) == AttemptAt(RestOutcomes(script), targetExists, k - 1)
        {
          AttemptAtRest(script, targetExists, k - 1);
        }
      }
    }
  }

  /** Doubling the first pause shifts the pauses by one. */
  lemma DoubledPause(backoff: int, k: nat)
    requires k > 0
    ensures (2 * backoff) * Pow2(k - 1) == backoff * Pow2(k)
  {
    var p := Pow2(k - 1);
    assert Pow2(k) == 2 * p;
    assert backoff * (2 * p) == (2 * backoff) * p;
  }

  /** A failure that is not a rate limit is rethrown at once: one attempt, no pause. */
  lemma OtherErrorIsImmediate(script: seq<CallOutcome>, targetExists: bool, message: string, exhausted: string)
    requires NextOutcome(script) == Failed(message) && !Contains(message, "429")
    ensures Retry(script, targetExists, 5, 1000, exhausted) == RetryRun(Failure(message), 1, [])
  {
  }

  /** Five rate limits in a row: pauses of 1, 2, 4, 8 and 16 seconds, then the terminal error. */
  lemma FiveRateLimits(script: seq<CallOutcome>, targetExists: bool, exhausted: string)
    requires |script| >= 5 && forall k :: 0 <= k < 5 ==> script[k] == Failed("429 Too Many Requests")
    ensures Retry(script, targetExists, 5, 1000, exhausted) == RetryRun(Failure(exhausted), 5, [1000, 2000, 4000, 8000, 16000])
  {
    assert OccursAt("429 Too Many Requests", "429", 0);
    var s1 := RestOutcomes(script);
    var s2 := RestOutcomes(s1);
    var s3 := RestOutcomes(s2);
    var s4 := RestOutcomes(s3);
    assert s1[0] == script[1] && s2[0] == script[2] && s3[0] == script[3] && s4[0] == script[4];
  }

  /** A success on the first attempt: one call, no pause. */
  lemma FirstAttemptSucceeds(script: seq<CallOutcome>, exhausted: string)
    requires NextOutcome(script).Done?
    ensures Retry(script, true, 5, 1000, exhausted) == RetryRun(Success, 1, [])
  {
  }

  /** The pauses of a run that was rate limited `n` times, the first pause being `first`. */
  function Backoffs(first: int, n: nat): (r: seq<int>)
    ensures |r| == n && forall k :: 0 <= k < n ==> r[k] == first * Pow2(k)
  {
    seq(n, k requires 0 <= k < n => first * Pow2(k))
  }

  lemma BackoffsOneMore(first: int, n: nat)
    ensures Backoffs(first, n + 1) == Backoffs(first, n) + [first * Pow2(n)]
  {
  }

  /** The result an attempt that is not rate limited gives the run. */
  function Settled(o: CallOutcome): Status {
    if o.Done? then Success else Failure(o.message)
  }

  /** The first `n` attempts were rate limited. */
  ghost predicate RateLimitedPrefix(script: seq<CallOutcome>, targetExists: bool, n: nat) {
    forall k :: 0 <= k < n ==> RateLimited(AttemptAt(script, targetExists, k))
  }

  lemma RateLimitedPrefixExtend(script: seq<CallOutcome>, targetExists: bool, n: nat)
    requires RateLimitedPrefix(script, targetExists, n) && RateLimited(AttemptAt(script, targetExists, n))
    ensures RateLimitedPrefix(script, targetExists, n + 1)
  {
  }

  /**
   * A run whose first `i` attempts were rate limited: it gives the result of
   * attempt `i` when that one is not, and `exhausted` when `i` is all it had.
   */
  lemma {:induction false} RetryAfterRateLimits(script: seq<CallOutcome>, targetExists: bool, tries: nat, backoff: int,
                                                exhausted: string, i: nat)
    requires i <= tries && RateLimitedPrefix(script, targetExists, i)
    ensures i == tries ==>
              Retry(script, targetExists, tries, backoff, exhausted) == RetryRun(Failure(exhausted), tries, Backoffs(backoff, tries))
    ensures i < tries && !RateLimited(AttemptAt(script, targetExists, i)) ==>
              Retry(script, targetExists, tries, backoff, exhausted)
                == RetryRun(Settled(AttemptAt(script, targetExists, i)), i + 1, Backoffs(backoff, i))
    decreases i
  {
    assert AttemptAt(script, targetExists, 0) == Attempt(NextOutcome(script), targetExists);
    if i > 0 {
      var rest := RestOutcomes(script);
      forall k | 0 <= k < i - 1
        ensures RateLimited(AttemptAt(rest, targetExists, k))
      {
        AttemptAtRest(script, targetExists, k);
      }
      AttemptAtRest(script, targetExists, i - 1);
      RetryAfterRateLimits(rest, targetExists, tries - 1, 2 * backoff, exhausted, i - 1);
      BackoffsCons(backoff, i - 1);
      BackoffsCons(backoff, tries - 1);
    }
  }

  /** The pauses after a first one are those of a run starting at twice the pause. */
  lemma BackoffsCons(backoff: int, n: nat)
    ensures [backoff] + Backoffs(2 * backoff, n) == Backoffs(backoff, n + 1)
  {
    forall k | 0 < k < n + 1
      ensures ([backoff] + Backoffs(2 * backoff, n))[k] == backoff * Pow2(k)
    {
      DoubledPause(backoff, k);
    }
  }

  // ---------------------------------------------------------------------------
  // Reordering the monthly sheets

  /** The title pattern ^Articles_\d{4}-\d{2}$ */
  predicate IsMonthlyTitle(t: string) {
    && |t| == 16 && t[..9] == "Articles_"
    && IsDigit(t[9]) && IsDigit(t[10]) && IsDigit(t[11]) && IsDigit(t[12])
    && t[13] == '-' && IsDigit(t[14]) && IsDigit(t[15])
  }

  /** split("_")[1] of a monthly title: the yyyy-MM part. */
  function MonthKey(s: Sheet): string {
    if |s.title| >= 9 then s.title[9..] else ""
  }

  /** String.compareTo(...) < 0 */
  predicate LexLess(a: string, b: string) {
    if a == [] then b != []
    else if b == [] then false
    else a[0] < b[0] || (a[0] == b[0] && LexLess(a[1..], b[1..]))
  }

  lemma LexLessIrreflexive(a: string)
    ensures !LexLess(a, a)
  {
  }

  lemma {:induction false} LexLessAsymmetric(a: string, b: string)
    ensures LexLess(a, b) ==> !LexLess(b, a)
  {
    if a != [] && b != [] && a[0] == b[0] {
      LexLessAsymmetric(a[1..], b[1..]);
    }
  }

  lemma {:induction false} LexLessTransitive(a: string, b: string, c: string)
    requires LexLess(a, b) && LexLess(b, c)
    ensures LexLess(a, c)
  {
    if a != [] && a[0] == b[0] && b[0] == c[0] {
      LexLessTransitive(a[1..], b[1..], c[1..]);
    }
  }

  lemma {:induction false} LexLessTotal(a: string, b: string)
    ensures a == b || LexLess(a, b) || LexLess(b, a)
  {
    if a != [] && b != [] && a[0] == b[0] {
      LexLessTotal(a[1..], b[1..]);
      if a[1..] == b[1..] {
        assert a == [a[0]] + a[1..] && b == [b[0]] + b[1..];
      }
    }
  }

  /** The sheets whose titles are monthly, in sheet order. */
  function MonthlySheets(sheets: seq<Sheet>): seq<Sheet> {
    if sheets == [] then []
    else (if IsMonthlyTitle(sheets[0].title) then [sheets[0]] else []) + MonthlySheets(sheets[1..])
  }

  /** Insert into a list sorted newest first, ahead of the entries with an equal key (a stable sort). */
  function InsertDesc(x: Sheet, ys: seq<Sheet>): seq<Sheet> {
    if ys == [] then [x]
    else if LexLess(MonthKey(x), MonthKey(ys[0])) then [ys[0]] + InsertDesc(x, ys[1..])
    else [x] + ys
  }

  /** The stream's sorted((s1, s2) -> key2.compareTo(key1)). */
  function SortDesc(xs: seq<Sheet>): seq<Sheet> {
    if xs == [] then [] else InsertDesc(xs[0], SortDesc(xs[1..]))
  }

  /** No entry has a smaller key than one after it. */
  predicate Descending(s: seq<Sheet>) {
    forall i, j :: 0 <= i < j < |s| ==> !LexLess(MonthKey(s[i]), MonthKey(s[j]))
  }

  predicate DistinctKeys(s: seq<Sheet>) {
    forall i, j :: 0 <= i < j < |s| ==> MonthKey(s[i]) != MonthKey(s[j])
  }

  /** Each entry's key is strictly greater than the next ones'. */
  predicate StrictlyDescending(s: seq<Sheet>) {
    forall i, j :: 0 <= i < j < |s| ==> LexLess(MonthKey(s[j]), MonthKey(s[i]))
  }

  lemma {:induction false} InsertDescPermutes(x: Sheet, ys: seq<Sheet>)
    ensures multiset(InsertDesc(x, ys)) == multiset(ys) + multiset{x}
    ensures forall z :: z in InsertDesc(x, ys) <==> z == x || z in ys
  {
    if ys != [] && LexLess(MonthKey(x), MonthKey(ys[0])) {
      assert ys == [ys[0]] + ys[1..];
      InsertDescPermutes(x, ys[1..]);
    }
    forall z
      ensures z in InsertDesc(x, ys) <==> z == x || z in ys
    {
      assert z in InsertDesc(x, ys) <==> z in multiset(InsertDesc(x, ys));
      assert z in ys <==> z in multiset(ys);
    }
  }

  /** In a descending list, no later entry has a greater key than the head. */
  lemma HeadIsGreatest(ys: seq<Sheet>, z: Sheet)
    requires Descending(ys) && ys != [] && z in ys[1..]
    ensures !LexLess(MonthKey(ys[0]), MonthKey(z))
  {
    var p :| 0 <= p < |ys| - 1 && ys[1..][p] == z;
    assert ys[p + 1] == z;
  }

  lemma DescendingTail(ys: seq<Sheet>)
    requires Descending(ys) && ys != []
    ensures Descending(ys[1..])
  {
    var tail := ys[1..];
    forall i, j | 0 <= i < j < |tail|
      ensures !LexLess(MonthKey(tail[i]), MonthKey(tail[j]))
    {
      assert tail[i] == ys[i + 1] && tail[j] == ys[j + 1];
    }
  }

  lemma DistinctTail(ys: seq<Sheet>)
    requires DistinctKeys(ys) && ys != []
    ensures DistinctKeys(ys[1..])
  {
    var tail := ys[1..];
    forall i, j | 0 <= i < j < |tail|
      ensures MonthKey(tail[i]) != MonthKey(tail[j])
    {
      assert tail[i] == ys[i + 1] && tail[j] == ys[j + 1];
    }
  }

  /** A head no smaller than anything after it keeps a descending list descending. */
  lemma ConsDescending(y: Sheet, s: seq<Sheet>)
    requires Descending(s) && forall z :: z in s ==> !LexLess(MonthKey(y), MonthKey(z))
    ensures Descending([y] + s)
  {
    var r := [y] + s;
    forall i, j | 0 <= i < j < |r|
      ensures !LexLess(MonthKey(r[i]), MonthKey(r[j]))
    {
      if i == 0 {
        assert r[j] == s[j - 1] && r[j] in s;
      } else {
        assert r[i] == s[i - 1] && r[j] == s[j - 1];
      }
    }
  }

  /** A head whose key differs from every later key keeps the keys distinct. */
  lemma ConsDistinct(y: Sheet, s: seq<Sheet>)
    requires DistinctKeys(s) && forall z :: z in s ==> MonthKey(z) != MonthKey(y)
    ensures DistinctKeys([y] + s)
  {
    var r := [y] + s;
    forall i, j | 0 <= i < j < |r|
      ensures MonthKey(r[i]) != MonthKey(r[j])
    {
      if i == 0 {
        assert r[j] == s[j - 1] && r[j] in s;
      } else {
        assert r[i] == s[i - 1] && r[j] == s[j - 1];
      }
    }
  }

  /** A head placed before a descending list it is no smaller than the first of is no smaller than any. */
  lemma GreaterThanHead(x: Sheet, ys: seq<Sheet>, z: Sheet)
    requires Descending(ys) && ys != [] && !LexLess(MonthKey(x), MonthKey(ys[0])) && z in ys
    ensures !LexLess(MonthKey(x), MonthKey(z))
  {
    LexLessTotal(MonthKey(x), MonthKey(ys[0]));
    if z != ys[0] {
      var j :| 0 <= j < |ys| && ys[j] == z;
      assert !LexLess(MonthKey(ys[0]), MonthKey(z));
      if LexLess(MonthKey(x), MonthKey(z)) && MonthKey(ys[0]) != MonthKey(x) {
        LexLessTransitive(MonthKey(ys[0]), MonthKey(x), MonthKey(z));
      }
    }
  }

  lemma {:induction false} InsertDescSorted(x: Sheet, ys: seq<Sheet>)
    requires Descending(ys)
    ensures Descending(InsertDesc(x, ys))
  {
    if ys == [] {
    } else if LexLess(MonthKey(x), MonthKey(ys[0])) {
      var y0, tail := ys[0], ys[1..];
      DescendingTail(ys);
      InsertDescSorted(x, tail);
      InsertDescPermutes(x, tail);
      LexLessAsymmetric(MonthKey(x), MonthKey(y0));
      var ins := InsertDesc(x, tail);
      forall z | z in ins
        ensures !LexLess(MonthKey(y0), MonthKey(z))
      {
        if z != x {
          HeadIsGreatest(ys, z);
        }
      }
      ConsDescending(y0, ins);
    } else {
      forall z | z in ys
        ensures !LexLess(MonthKey(x), MonthKey(z))
      {
        GreaterThanHead(x, ys, z);
      }
      ConsDescending(x, ys);
    }
  }

  lemma {:induction false} InsertDescDistinct(x: Sheet, ys: seq<Sheet>)
    requires DistinctKeys(ys) && forall y :: y in ys ==> MonthKey(y) != MonthKey(x)
    ensures DistinctKeys(InsertDesc(x, ys))
  {
    if ys != [] && LexLess(MonthKey(x), MonthKey(ys[0])) {
      var y0, tail := ys[0], ys[1..];
      DistinctTail(ys);
      InsertDescDistinct(x, tail);
      InsertDescPermutes(x, tail);
      var ins := InsertDesc(x, tail);
      forall z | z in ins
        ensures MonthKey(z) != MonthKey(y0)
      {
        if z != x {
          var p :| 0 <= p < |tail| && tail[p] == z;
          assert ys[p + 1] == z;
        }
      }
      ConsDistinct(y0, ins);
    } else {
      ConsDistinct(x, ys);
    }
  }

  /** The sort yields a permutation, in descending key order; strictly descending when the keys are distinct. */
  lemma {:induction false} SortDescCorrect(xs: seq<Sheet>)
    ensures multiset(SortDesc(xs)) == multiset(xs)
    ensures Descending(SortDesc(xs))
    ensures DistinctKeys(xs) ==> DistinctKeys(SortDesc(xs))
  {
    if xs != [] {
      var tail := xs[1..];
      assert xs == [xs[0]] + tail;
      SortDescCorrect(tail);
      var sorted := SortDesc(tail);
      InsertDescPermutes(xs[0], sorted);
      InsertDescSorted(xs[0], sorted);
      if DistinctKeys(xs) {
        DistinctTail(xs);
        HeadKeyNotInRest(xs, sorted);
        InsertDescDistinct(xs[0], sorted);
      }
    }
  }

  /** With distinct keys, no permutation of the rest holds the head's key. */
  lemma HeadKeyNotInRest(xs: seq<Sheet>, rest: seq<Sheet>)
    requires DistinctKeys(xs) && xs != [] && multiset(rest) == multiset(xs[1..])
    ensures forall y :: y in rest ==> MonthKey(y) != MonthKey(xs[0])
  {
    var tail := xs[1..];
    forall y | y in rest
      ensures MonthKey(y) != MonthKey(xs[0])
    {
      assert y in multiset(rest);
      assert y in multiset(tail);
      var j :| 0 <= j < |tail| && tail[j] == y;
      assert xs[j + 1] == y;
    }
  }

  lemma DescendingDistinctIsStrict(s: seq<Sheet>)
    requires Descending(s) && DistinctKeys(s)
    ensures StrictlyDescending(s)
  {
    forall i, j | 0 <= i < j < |s|
      ensures LexLess(MonthKey(s[j]), MonthKey(s[i]))
    {
      LexLessTotal(MonthKey(s[i]), MonthKey(s[j]));
    }
  }

  /** The filter keeps exactly the sheets with monthly titles, and distinct titles stay distinct. */
  lemma {:induction false} MonthlySheetsMembers(sheets: seq<Sheet>)
    ensures forall s :: s in MonthlySheets(sheets) <==> s in sheets && IsMonthlyTitle(s.title)
    ensures DistinctTitles(sheets) ==> DistinctTitles(MonthlySheets(sheets))
  {
    if sheets != [] {
      var tail := sheets[1..];
      assert sheets == [sheets[0]] + tail;
      MonthlySheetsMembers(tail);
      var m := MonthlySheets(tail);
      if DistinctTitles(sheets) {
        assert DistinctTitles(tail) by {
          forall i, j | 0 <= i < j < |tail|
            ensures tail[i].title != tail[j].title
          {
            assert tail[i] == sheets[i + 1] && tail[j] == sheets[j + 1];
          }
        }
        if IsMonthlyTitle(sheets[0].title) {
          var r := [sheets[0]] + m;
          forall j | 0 < j < |r|
            ensures r[j].title != sheets[0].title
          {
            assert r[j] in tail;
            var p :| 0 <= p < |tail| && tail[p] == r[j];
            assert sheets[p + 1] == r[j];
          }
        }
      }
    }
  }

  /** Monthly titles differ exactly where their keys do. */
  lemma MonthlyKeysDistinct(s: seq<Sheet>)
    requires DistinctTitles(s) && forall x :: x in s ==> IsMonthlyTitle(x.title)
    ensures DistinctKeys(s)
  {
    forall i, j | 0 <= i < j < |s|
      ensures MonthKey(s[i]) != MonthKey(s[j])
    {
      assert s[i] in s && s[j] in s;
      var a, b := s[i].title, s[j].title;
      assert a == a[..9] + a[9..] && b == b[..9] + b[9..];
    }
  }

  /** The index requests: the i-th monthly sheet, newest first, moves to index i + 1. */
  function ReorderRequests(sheets: seq<Sheet>): (reqs: seq<IndexUpdate>)
    ensures |reqs| == |SortDesc(MonthlySheets(sheets))|
  {
    var sorted := SortDesc(MonthlySheets(sheets));
    seq(|sorted|, i requires 0 <= i < |sorted| => IndexUpdate(sorted[i].id, i + 1))
  }

  /** All sheet ids differ. */
  predicate DistinctIds(sheets: seq<Sheet>) {
    forall i, j :: 0 <= i < j < |sheets| ==> sheets[i].id != sheets[j].id
  }

  /**
   * The sheets reorderMonthlySheets moves: exactly the monthly ones, each
   * once, newest first, and strictly so since titles are unique.
   */
  lemma MovedSheets(sheets: seq<Sheet>)
    ensures var sorted := SortDesc(MonthlySheets(sheets));
            && multiset(sorted) == multiset(MonthlySheets(sheets))
            && (forall s :: s in sorted <==> s in sheets && IsMonthlyTitle(s.title))
            && Descending(sorted)
            && (DistinctTitles(sheets) ==> StrictlyDescending(sorted))
  {
    var m := MonthlySheets(sheets);
    var sorted := SortDesc(m);
    SortDescCorrect(m);
    MonthlySheetsMembers(sheets);
    forall s
      ensures s in sorted <==> s in m
    {
      assert s in sorted <==> s in multiset(sorted);
      assert s in m <==> s in multiset(m);
    }
    if DistinctTitles(sheets) {
      MonthlyKeysDistinct(m);
      DescendingDistinctIsStrict(sorted);
    }
  }

  /**
   * The index requests follow the moved sheets at indexes 1, 2, ...; there
   * are none exactly when no title is monthly; and with unique ids no other
   * sheet is the target of a request.
   */
  lemma ReorderRequestsMeaning(sheets: seq<Sheet>)
    ensures var sorted := SortDesc(MonthlySheets(sheets));
            var reqs := ReorderRequests(sheets);
            && (forall i :: 0 <= i < |reqs| ==> reqs[i] == IndexUpdate(sorted[i].id, i + 1))
            && (reqs == [] <==> forall s :: s in sheets ==> !IsMonthlyTitle(s.title))
            && (DistinctIds(sheets) ==>
                  forall p, i :: 0 <= p < |sheets| && !IsMonthlyTitle(sheets[p].title) && 0 <= i < |reqs|
                    ==> reqs[i].sheetId != sheets[p].id)
  {
    var sorted := SortDesc(MonthlySheets(sheets));
    var reqs := ReorderRequests(sheets);
    MovedSheets(sheets);
    assert |reqs| == |sorted|;
    if DistinctIds(sheets) {
      forall p, i | 0 <= p < |sheets| && !IsMonthlyTitle(sheets[p].title) && 0 <= i < |reqs|
        ensures reqs[i].sheetId != sheets[p].id
      {
        assert sorted[i] in sorted;
        var q :| 0 <= q < |sheets| && sheets[q] == sorted[i];
        assert p != q;
      }
    }
  }

  // ---------------------------------------------------------------------------
  // What each operation asks of the spreadsheet

  /** The status of a run of calls, the backend it leaves, and the calls it made in order. */
  datatype Effect = Effect(status: Status, after: BackendState, calls: seq<Call>)

  /** An appendArticle run: its effect on the backend, and whether it counted a duplicate. */
  datatype Written = Written(effect: Effect, duplicate: bool)

  /**
   * ensureSheetExists on this backend: read the sheets; when the title is
   * missing, add the sheet and write and style its header, each call ending
   * the operation with its failure.
   */
  function EnsurePlan(b: BackendState, name: string): (e: Effect)
    ensures e.status.Success? ==> e.after.sheets == AfterEnsure(b.sheets, name, b.nextId)
    ensures e.status.Failure? ==> PartlyEnsured(b.sheets, name, b.nextId, e.after.sheets)
  {
    var read := NextOutcome(b.script);
    var s1 := RestOutcomes(b.script);
    if read.Failed? then Effect(Failure(read.message), b.(script := s1), [GetSpreadsheet])
    else if name in Titles(b.sheets) then Effect(Success, b.(script := s1), [GetSpreadsheet])
    else
      var add := NextOutcome(s1);
      var s2 := RestOutcomes(s1);
      if add.Failed? then Effect(Failure(add.message), b.(script := s2), [GetSpreadsheet, AddSheetCall(name)])
      else
        var h := HeaderPlan(b.sheets, b.nextId, s2, name);
        Effect(h.status, h.after, [GetSpreadsheet, AddSheetCall(name)] + h.calls)
  }

  /**
   * The header of a sheet just added with id `newId` after `before`: write
   * row 1, then style it.
   */
  function HeaderPlan(before: seq<Sheet>, newId: int, script: seq<CallOutcome>, name: string): (e: Effect)
    ensures e.after.nextId == newId + 1
    ensures e.status.Success? ==> e.after.sheets == before + [Sheet(newId, name, [Header], true)]
  {
    var update := NextOutcome(script);
    var s1 := RestOutcomes(script);
    if update.Failed? then
      Effect(Failure(update.message), BackendState(before + [Sheet(newId, name, [], false)], newId + 1, s1),
             [UpdateValues(name, Header)])
    else
      var style := NextOutcome(s1);
      var s2 := RestOutcomes(s1);
      var calls := [UpdateValues(name, Header), FormatHeader(newId)];
      if style.Failed? then
        Effect(Failure(style.message), BackendState(before + [Sheet(newId, name, [Header], false)], newId + 1, s2), calls)
      else Effect(Success, BackendState(before + [Sheet(newId, name, [Header], true)], newId + 1, s2), calls)
  }

  /** reorderMonthlySheets on this backend: read the sheets, then send the index requests when there are any. */
  function ReorderPlan(b: BackendState): (e: Effect)
    ensures e.after.sheets == b.sheets && e.after.nextId == b.nextId
  {
    var read := NextOutcome(b.script);
    var s1 := RestOutcomes(b.script);
    var reqs := ReorderRequests(b.sheets);
    if read.Failed? then Effect(Failure(read.message), b.(script := s1), [GetSpreadsheet])
    else if reqs == [] then Effect(Success, b.(script := s1), [GetSpreadsheet])
    else
      var batch := NextOutcome(s1);
      Effect(if batch.Done? then Success else Failure(batch.message), b.(script := RestOutcomes(s1)),
             [GetSpreadsheet, ReorderSheets(reqs)])
  }

  /**
   * Steps 1 to 3 of appendArticle on a partition sheet that exists: the URL
   * column read with retries, then, unless the URL is there, the row built
   * and appended with retries.
   */
  function WritePlan(b: BackendState, name: string, f: ArticleFields): (w: Written)
    requires FindTitle(b.sheets, name).Some?
    ensures w.effect.after.nextId == b.nextId
    ensures var column := ColumnC(b.sheets[FindTitle(b.sheets, name).value].rows);
            && (w.duplicate ==> w.effect.status.Success? && IsDuplicate(column, f.url) && w.effect.after.sheets == b.sheets)
            && (w.effect.status.Success? && !w.duplicate ==>
                  && !IsDuplicate(column, f.url) && BuildRow(f).Ok?
                  && w.effect.after.sheets == AppendedTo(b.sheets, name, RowText(BuildRow(f).value)))
            && (w.effect.status.Failure? ==> !w.duplicate && w.effect.after.sheets == b.sheets)
  {
    var get := Retry(b.script, true, RetryAttemptsMax, FirstBackoff, GetExhausted);
    var s1 := DropOutcomes(b.script, get.attempts);
    var fetched := Repeat(GetValues(name), get.attempts);
    if get.outcome.Failure? then Written(Effect(get.outcome, b.(script := s1), fetched), false)
    else if IsDuplicate(ColumnC(b.sheets[FindTitle(b.sheets, name).value].rows), f.url) then
      Written(Effect(Success, b.(script := s1), fetched), true)
    else
      match BuildRow(f)
      case Err(m) => Written(Effect(Failure(m), b.(script := s1), fetched), false)
      case Ok(row) =>
        var append := AppendRowPlan(b.(script := s1), name, RowText(row));
        Written(Effect(append.status, append.after, fetched + append.calls), false)
  }

  /** safeAppendWithRetry of one row on a sheet that exists: one values.append per attempt. */
  function AppendRowPlan(b: BackendState, name: string, text: seq<string>): (e: Effect)
    ensures e.after.script == DropOutcomes(b.script, |e.calls|)
    ensures e.after.nextId == b.nextId && e.after.sheets == AppendEffect(e.status, b.sheets, name, text)
  {
    var append := Retry(b.script, true, RetryAttemptsMax, FirstBackoff, AppendExhausted);
    Effect(append.outcome, BackendState(AppendEffect(append.outcome, b.sheets, name, text), b.nextId,
                                        DropOutcomes(b.script, append.attempts)),
           Repeat(AppendValues(name, text), append.attempts))
  }

  /**
   * appendArticle on this backend: the partition sheet ensured, the monthly
   * sheets reordered, the row written unless it is a duplicate; the first
   * failure ends it.
   */
  function AppendPlan(b: BackendState, f: ArticleFields): Written {
    PartitionOfDate(f.publishedDate);
    var name := PartitionName(f.publishedDate).value;
    var ensure := EnsurePlan(b, name);
    if ensure.status.Failure? then Written(ensure, false)
    else
      var reorder := ReorderPlan(ensure.after);
      var calls := ensure.calls + reorder.calls;
      if reorder.status.Failure? then Written(Effect(reorder.status, reorder.after, calls), false)
      else
        FindTitleOfPresent(reorder.after.sheets, name);
        var write := WritePlan(reorder.after, name, f);
        Written(Effect(write.effect.status, write.effect.after, calls + write.effect.calls), write.duplicate)
  }

  /** The outcome the k-th call from now receives. */
  function OutcomeAt(script: seq<CallOutcome>, k: nat): CallOutcome {
    NextOutcome(DropOutcomes(script, k))
  }

  lemma {:induction false} DropOutcomesAdd(script: seq<CallOutcome>, m: nat, n: nat)
    ensures DropOutcomes(DropOutcomes(script, m), n) == DropOutcomes(script, m + n)
  {
    if n > 0 {
      DropOutcomesAdd(script, m, n - 1);
    }
  }

  /**
   * ensureSheetExists makes at most four calls, in the order read, add,
   * header, style, each consuming one scripted outcome. It succeeds exactly
   * when the read does and either the title is there, which costs that one
   * read and changes nothing, or the other three calls succeed too; a failure
   * carries the message of the last call made.
   */
  lemma EnsurePlanMeaning(b: BackendState, name: string)
    ensures var e := EnsurePlan(b, name);
            && e.after.script == DropOutcomes(b.script, |e.calls|)
            && 1 <= |e.calls| <= 4
            && e.calls == [GetSpreadsheet, AddSheetCall(name), UpdateValues(name, Header), FormatHeader(b.nextId)][..|e.calls|]
            && (e.status.Success? <==>
                  && OutcomeAt(b.script, 0).Done?
                  && (name in Titles(b.sheets) ||
                      (OutcomeAt(b.script, 1).Done? && OutcomeAt(b.script, 2).Done? && OutcomeAt(b.script, 3).Done?)))
            && (OutcomeAt(b.script, 0).Done? && name in Titles(b.sheets) ==> e.calls == [GetSpreadsheet] && e.after.sheets == b.sheets)
            && (e.status.Failure? ==> e.status == Failure(OutcomeAt(b.script, |e.calls| - 1).message))
  {
    var s1 := RestOutcomes(b.script);
    var s2 := RestOutcomes(s1);
    var s3 := RestOutcomes(s2);
    assert DropOutcomes(b.script, 1) == s1 && DropOutcomes(b.script, 2) == s2 && DropOutcomes(b.script, 3) == s3;
  }

  /**
   * The writing part of appendArticle consumes one scripted outcome per call:
   * the reads of the URL column, then the appends of the row.
   */
  lemma WritePlanConsumes(b: BackendState, name: string, f: ArticleFields)
    requires FindTitle(b.sheets, name).Some?
    ensures var w := WritePlan(b, name, f);
            w.effect.after.script == DropOutcomes(b.script, |w.effect.calls|)
  {
    var w := WritePlan(b, name, f);
    var get := Retry(b.script, true, RetryAttemptsMax, FirstBackoff, GetExhausted);
    var s1 := DropOutcomes(b.script, get.attempts);
    var fetched := Repeat(GetValues(name), get.attempts);
    if get.outcome.Success? && !IsDuplicate(ColumnC(b.sheets[FindTitle(b.sheets, name).value].rows), f.url)
       && BuildRow(f).Ok?
    {
      var append := AppendRowPlan(b.(script := s1), name, RowText(BuildRow(f).value));
      assert w == Written(Effect(append.status, append.after, fetched + append.calls), false);
      DropOutcomesAdd(b.script, get.attempts, |append.calls|);
    } else {
      assert w.effect.after.script == s1 && w.effect.calls == fetched;
    }
  }

  /** Running one effect after another consumes the calls of both. */
  lemma ConsumesJoin(script: seq<CallOutcome>, first: Effect, second: Effect)
    requires first.after.script == DropOutcomes(script, |first.calls|)
    requires second.after.script == DropOutcomes(first.after.script, |second.calls|)
    ensures second.after.script == DropOutcomes(script, |first.calls + second.calls|)
  {
    DropOutcomesAdd(script, |first.calls|, |second.calls|);
  }

  /** reorderMonthlySheets consumes one scripted outcome per call. */
  lemma ReorderPlanConsumes(b: BackendState)
    ensures var e := ReorderPlan(b);
            e.after.script == DropOutcomes(b.script, |e.calls|)
  {
    assert DropOutcomes(b.script, 1) == RestOutcomes(b.script);
    assert DropOutcomes(b.script, 2) == RestOutcomes(RestOutcomes(b.script));
  }

  /** Every call appendArticle makes consumes exactly one scripted outcome, in the order of the log. */
  lemma AppendPlanConsumes(b: BackendState, f: ArticleFields)
    ensures var w := AppendPlan(b, f);
            w.effect.after.script == DropOutcomes(b.script, |w.effect.calls|)
  {
    PartitionOfDate(f.publishedDate);
    var name := PartitionName(f.publishedDate).value;
    var ensure := EnsurePlan(b, name);
    EnsurePlanMeaning(b, name);
    if ensure.status.Success? {
      var reorder := ReorderPlan(ensure.after);
      ReorderPlanConsumes(ensure.after);
      ConsumesJoin(b.script, ensure, reorder);
      if reorder.status.Failure? {
        assert AppendPlan(b, f) == Written(Effect(reorder.status, reorder.after, ensure.calls + reorder.calls), false);
      } else {
        FindTitleOfPresent(reorder.after.sheets, name);
        var write := WritePlan(reorder.after, name, f);
        WritePlanConsumes(reorder.after, name, f);
        var both := Effect(reorder.status, reorder.after, ensure.calls + reorder.calls);
        ConsumesJoin(b.script, both, write.effect);
        assert AppendPlan(b, f) == Written(Effect(write.effect.status, write.effect.after, both.calls + write.effect.calls), write.duplicate);
      }
    } else {
      assert AppendPlan(b, f) == Written(ensure, false);
    }
  }

  /**
   * A backend that answers every call: appendArticle returns normally for an
   * article whose row can be built, and the article is then written or
   * counted as a duplicate.
   */
  lemma AppendOnHealthyBackend(b: BackendState, f: ArticleFields)
    requires b.script == [] && BuildRow(f).Ok?
    ensures AppendPlan(b, f).effect.status.Success?
  {
    PartitionOfDate(f.publishedDate);
    var name := PartitionName(f.publishedDate).value;
    var ensure := EnsurePlan(b, name);
    assert ensure.after.script == [];
    var reorder := ReorderPlan(ensure.after);
    assert reorder.after.script == [];
    FindTitleOfPresent(reorder.after.sheets, name);
    DropOutcomesEmpty(1);
    assert Retry([], true, RetryAttemptsMax, FirstBackoff, GetExhausted) == RetryRun(Success, 1, []);
    assert Retry([], true, RetryAttemptsMax, FirstBackoff, AppendExhausted) == RetryRun(Success, 1, []);
  }

  lemma {:induction false} DropOutcomesEmpty(n: nat)
    ensures DropOutcomes([], n) == []
  {
    if n > 0 {
      DropOutcomesEmpty(n - 1);
    }
  }

  // ---------------------------------------------------------------------------
  // The service

  class GoogleSheetService {
    const backend: Spreadsheet
    var duplicateCount: int

    constructor (backend: Spreadsheet)
      ensures this.backend == backend && duplicateCount == 0
    {
      this.backend := backend;
      duplicateCount := 0;
    }

    predicate Valid()
      reads this, backend
    {
      backend.Valid()
    }

    /**
     * ensureSheetExists: nothing more when the title is present; otherwise add
     * the sheet, write the header row and style it, stopping at the first
     * failed call.
     */
    method EnsureSheetExists(name: string) returns (status: Status)
      requires Valid()
      modifies backend
      ensures Valid()
      ensures status.Success? ==> backend.sheets == AfterEnsure(old(backend.sheets), name, old(backend.nextId))
      ensures status.Success? && name in Titles(old(backend.sheets)) ==> backend.log == old(backend.log) + [GetSpreadsheet]
      ensures status.Failure? ==> PartlyEnsured(old(backend.sheets), name, old(backend.nextId), backend.sheets)
      ensures var e := EnsurePlan(old(backend.State()), name);
              status == e.status && backend.State() == e.after && backend.log == old(backend.log) + e.calls
    {
      var got := backend.GetSheets();
      if got.Err? {
        return Failure(got.message);
      }
      var existing := Titles(got.value);
      if name in existing {
        return Success;
      }
      ghost var before := backend.sheets;
      var added := backend.AddSheet(name);
      if added.Err? {
        return Failure(added.message);
      }
      status := WriteHeader(name, added.value, before);
    }

    /** The rest of ensureSheetExists once the sheet is added: write the header row, then style it. */
    method WriteHeader(name: string, newId: int, ghost before: seq<Sheet>) returns (status: Status)
      requires WellFormed(before, newId) && name !in Titles(before)
      requires backend.sheets == before + [Sheet(newId, name, [], false)] && backend.nextId == newId + 1
      modifies backend
      ensures Valid()
      ensures status.Success? ==> backend.sheets == before + [Sheet(newId, name, [Header], true)]
      ensures status.Failure? ==>
                || backend.sheets == before + [Sheet(newId, name, [], false)]
                || backend.sheets == before + [Sheet(newId, name, [Header], false)]
      ensures var e := HeaderPlan(before, newId, old(backend.script), name);
              status == e.status && backend.State() == e.after && backend.log == old(backend.log) + e.calls
    {
      FindTitleAfterAdd(before, Sheet(newId, name, [], false));
      status := backend.UpdateFirstRow(name, Header);
      if status.Failure? {
        WellFormedAdd(before, newId, Sheet(newId, name, [], false));
        return;
      }
      assert backend.sheets == before + [Sheet(newId, name, [Header], false)];
      status := backend.StyleHeader(newId);
      if status.Success? {
        assert backend.sheets == before + [Sheet(newId, name, [Header], true)];
        WellFormedAdd(before, newId, Sheet(newId, name, [Header], true));
      } else {
        WellFormedAdd(before, newId, Sheet(newId, name, [Header], false));
      }
    }

    /**
     * reorderMonthlySheets: read the sheets, and when some title is monthly
     * send the index requests in one batch.
     */
    method ReorderMonthlySheets() returns (status: Status)
      requires Valid()
      modifies backend
      ensures Valid()
      ensures backend.sheets == old(backend.sheets) && backend.nextId == old(backend.nextId)
      ensures var reqs := ReorderRequests(old(backend.sheets));
              var batch := NextOutcome(old(backend.script)).Done? && reqs != [];
              && backend.log == old(backend.log) + [GetSpreadsheet] + (if batch then [ReorderSheets(reqs)] else [])
              && backend.script == (if batch then RestOutcomes(RestOutcomes(old(backend.script))) else RestOutcomes(old(backend.script)))
              && (status.Success? <==> NextOutcome(old(backend.script)).Done? && (reqs == [] || NextOutcome(RestOutcomes(old(backend.script))).Done?))
      ensures var e := ReorderPlan(old(backend.State()));
              status == e.status && backend.State() == e.after && backend.log == old(backend.log) + e.calls
    {
      var got := backend.GetSheets();
      if got.Err? {
        return Failure(got.message);
      }
      var sorted := SortDesc(MonthlySheets(got.value));
      var requests: seq<IndexUpdate> := [];
      for i := 0 to |sorted|
        invariant requests == ReorderRequests(got.value)[..i]
      {
        requests := requests + [IndexUpdate(sorted[i].id, i + 1)];
      }
      assert requests == ReorderRequests(got.value);
      if requests != [] {
        status := backend.Reorder(requests);
      } else {
        status := Success;
      }
    }

    /** safeGetWithRetry on <title>!C2:C. */
    method GetWithRetry(title: string) returns (r: Result<seq<seq<string>>>, ghost pauses: seq<int>)
      modifies backend
      ensures backend.sheets == old(backend.sheets) && backend.nextId == old(backend.nextId)
      ensures var run := Retry(old(backend.script), FindTitle(old(backend.sheets), title).Some?, RetryAttemptsMax, FirstBackoff, GetExhausted);
              && backend.script == DropOutcomes(old(backend.script), run.attempts)
              && backend.log == old(backend.log) + Repeat(GetValues(title), run.attempts)
              && pauses == run.delays
              && (r.Ok? <==> run.outcome.Success?)
              && (r.Err? ==> run.outcome == Failure(r.message))
              && (r.Ok? ==> r.value == ColumnC(old(backend.sheets)[FindTitle(old(backend.sheets), title).value].rows))
    {
      ghost var script0 := backend.script;
      ghost var found := FindTitle(backend.sheets, title).Some?;
      pauses := [];
      var backoff := FirstBackoff;
      var i := 0;
      while i < RetryAttemptsMax
        invariant 0 <= i <= RetryAttemptsMax && backoff == FirstBackoff * Pow2(i)
        invariant backend.sheets == old(backend.sheets) && backend.nextId == old(backend.nextId)
        invariant backend.script == DropOutcomes(script0, i)
        invariant backend.log == old(backend.log) + Repeat(GetValues(title), i)
        invariant pauses == Backoffs(FirstBackoff, i)
        invariant RateLimitedPrefix(script0, found, i)
      {
        ghost var o := AttemptAt(script0, found, i);
        var got := backend.GetUrlColumn(title);
        assert got.Ok? <==> o.Done?;
        assert got.Err? ==> o == Failed(got.message);
        RepeatOneMore(GetValues(title), i);
        if got.Ok? || !Contains(got.message, "429") {
          assert !RateLimited(o);
          RetryAfterRateLimits(script0, found, RetryAttemptsMax, FirstBackoff, GetExhausted, i);
          assert Retry(script0, found, RetryAttemptsMax, FirstBackoff, GetExhausted) == RetryRun(Settled(o), i + 1, pauses);
          assert backend.script == DropOutcomes(script0, i + 1);
          return got, pauses;
        }
        RateLimitedPrefixExtend(script0, found, i);
        BackoffsOneMore(FirstBackoff, i);
        pauses := pauses + [backoff];
        backoff := backoff * 2;
        i := i + 1;
      }
      RetryAfterRateLimits(script0, found, RetryAttemptsMax, FirstBackoff, GetExhausted, RetryAttemptsMax);
      return Err(GetExhausted), pauses;
    }

    /** safeAppendWithRetry of one row to <title>!A1. */
    method AppendWithRetry(title: string, row: seq<string>) returns (status: Status, ghost pauses: seq<int>)
      requires Valid()
      modifies backend
      ensures Valid()
      ensures backend.nextId == old(backend.nextId)
      ensures var run := Retry(old(backend.script), FindTitle(old(backend.sheets), title).Some?, RetryAttemptsMax, FirstBackoff, AppendExhausted);
              && backend.script == DropOutcomes(old(backend.script), run.attempts)
              && backend.log == old(backend.log) + Repeat(AppendValues(title, row), run.attempts)
              && pauses == run.delays
              && status == run.outcome
              && backend.sheets == AppendEffect(status, old(backend.sheets), title, row)
    {
      ghost var script0 := backend.script;
      ghost var found := FindTitle(backend.sheets, title).Some?;
      ghost var run := Retry(script0, found, RetryAttemptsMax, FirstBackoff, AppendExhausted);
      pauses := [];
      var backoff := FirstBackoff;
      var i := 0;
      while i < RetryAttemptsMax
        invariant 0 <= i <= RetryAttemptsMax && backoff == FirstBackoff * Pow2(i)
        invariant backend.sheets == old(backend.sheets) && backend.nextId == old(backend.nextId)
        invariant backend.script == DropOutcomes(script0, i)
        invariant backend.log == old(backend.log) + Repeat(AppendValues(title, row), i)
        invariant pauses == Backoffs(FirstBackoff, i)
        invariant RateLimitedPrefix(script0, found, i)
      {
        status := AppendAttempt(title, row, script0, found, i);
        RepeatOneMore(AppendValues(title, row), i);
        if status.Success? || !Contains(status.error, "429") {
          RetryAfterRateLimits(script0, found, RetryAttemptsMax, FirstBackoff, AppendExhausted, i);
          assert run == RetryRun(status, i + 1, pauses);
          return;
        }
        RateLimitedPrefixExtend(script0, found, i);
        BackoffsOneMore(FirstBackoff, i);
        pauses := pauses + [backoff];
        backoff := backoff * 2;
        i := i + 1;
      }
      RetryAfterRateLimits(script0, found, RetryAttemptsMax, FirstBackoff, AppendExhausted, RetryAttemptsMax);
      status := Failure(AppendExhausted);
      assert run == RetryRun(status, RetryAttemptsMax, pauses);
    }

    /** Attempt `i` of safeAppendWithRetry: one values.append. */
    method AppendAttempt(title: string, row: seq<string>, ghost script0: seq<CallOutcome>, ghost found: bool, ghost i: nat)
      returns (status: Status)
      requires backend.Valid() && backend.script == DropOutcomes(script0, i)
      requires found == FindTitle(backend.sheets, title).Some?
      modifies backend
      ensures backend.Valid() && backend.nextId == old(backend.nextId)
      ensures status == Settled(AttemptAt(script0, found, i))
      ensures backend.script == DropOutcomes(script0, i + 1)
      ensures backend.log == old(backend.log) + [AppendValues(title, row)]
      ensures backend.sheets == AppendEffect(status, old(backend.sheets), title, row)
    {
      status := backend.AppendRow(title, row);
    }

    /**
     * Steps 1 to 3 of appendArticle on a sheet that exists: read its URL
     * column; a URL already there (ignoring case) counts a duplicate and
     * writes nothing; otherwise build the row and append it.
     */
    method WriteUnlessDuplicate(name: string, article: Article) returns (status: Status)
      requires Valid() && FindTitle(backend.sheets, name).Some?
      modifies this, backend
      ensures Valid()
      ensures var k := FindTitle(old(backend.sheets), name).value;
              var dup := IsDuplicate(ColumnC(old(backend.sheets)[k].rows), article.url);
              && (duplicateCount == old(duplicateCount) || (status.Success? && dup && duplicateCount == old(duplicateCount) + 1))
              && (status.Success? && dup ==> duplicateCount == old(duplicateCount) + 1 && backend.sheets == old(backend.sheets))
              && (status.Success? && !dup ==>
                    && BuildRow(article.Fields()).Ok?
                    && backend.sheets == AppendedTo(old(backend.sheets), name, RowText(BuildRow(article.Fields()).value)))
      ensures status.Failure? ==> duplicateCount == old(duplicateCount) && backend.sheets == old(backend.sheets)
      ensures var w := WritePlan(old(backend.State()), name, article.Fields());
              && status == w.effect.status && backend.State() == w.effect.after
              && backend.log == old(backend.log) + w.effect.calls
              && duplicateCount == old(duplicateCount) + (if w.duplicate then 1 else 0)
    {
      var existing;
      ghost var pauses;
      existing, pauses := GetWithRetry(name);
      if existing.Err? {
        return Failure(existing.message);
      }
      var dup := FindUrl(existing.value, article.url);
      if dup {
        duplicateCount := duplicateCount + 1;
        return Success;
      }
      var row := BuildRow(article.Fields());
      if row.Err? {
        return Failure(row.message);
      }
      status, pauses := AppendWithRetry(name, RowText(row.value));
    }

    /**
     * appendArticle: name the partition sheet after the published date,
     * ensure it, reorder the monthly sheets, then write the row unless the URL
     * is there already. Any failed call ends the operation with that failure:
     * the duplicate count is as it was, and the sheets are as the failed step
     * left them, partway through creating the partition sheet or with it
     * ensured and nothing written.
     */
    method AppendArticle(article: Article) returns (status: Status)
      requires Valid()
      modifies this, backend
      ensures Valid()
      ensures var w := AppendPlan(old(backend.State()), article.Fields());
              && status == w.effect.status && backend.State() == w.effect.after
              && backend.log == old(backend.log) + w.effect.calls
              && duplicateCount == old(duplicateCount) + (if w.duplicate then 1 else 0)
    {
      ghost var b0, f, log0 := backend.State(), article.Fields(), backend.log;
      PartitionOfDate(article.publishedDate);
      // The ISO text of a date is never short, so substring(0, 7) cannot fail here.
      var partition := MonthlySheetName(if article.publishedDate.Some? then IsoString(article.publishedDate.value) else "");
      var name := partition.value;
      ghost var ensure := EnsurePlan(b0, name);
      status := EnsureSheetExists(name);
      if status.Failure? {
        assert AppendPlan(b0, f) == Written(ensure, false);
        return;
      }
      ghost var b1 := backend.State();
      ghost var reorder := ReorderPlan(b1);
      FindTitleOfPresent(b1.sheets, name);
      status := ReorderMonthlySheets();
      if status.Failure? {
        assert AppendPlan(b0, f) == Written(Effect(reorder.status, reorder.after, ensure.calls + reorder.calls), false);
        CallsJoin(log0, ensure.calls, reorder.calls, []);
        return;
      }
      ghost var write := WritePlan(backend.State(), name, f);
      ghost var log1 := backend.log;
      status := WriteUnlessDuplicate(name, article);
      assert AppendPlan(b0, f)
          == Written(Effect(write.effect.status, write.effect.after, ensure.calls + reorder.calls + write.effect.calls),
                     write.duplicate);
      CallsJoin(log0, ensure.calls, reorder.calls, write.effect.calls);
    }
  }

  /**
   * The sheets as a failed ensureSheetExists leaves them: untouched, or with
   * the new sheet added but its header row or its styling missing.
   */
  predicate PartlyEnsured(sheets: seq<Sheet>, name: string, newId: int, after: seq<Sheet>) {
    || after == sheets
    || after == sheets + [Sheet(newId, name, [], false)]
    || after == sheets + [Sheet(newId, name, [Header], false)]
  }

  /**
   * The sheets and the duplicate count once appendArticle returned normally
   * for an article: its partition sheet is ensured; a URL already in that
   * sheet's column C counts a duplicate and writes nothing, and otherwise
   * the article's row is appended to that sheet.
   */
  predicate ArticleWritten(sheets: seq<Sheet>, nextId: int, count: int, f: ArticleFields,
                           after: seq<Sheet>, afterCount: int)
  {
    && PartitionName(f.publishedDate).Ok?
    && var name := PartitionName(f.publishedDate).value;
       var base := AfterEnsure(sheets, name, nextId);
       && FindTitle(base, name).Some?
       && var dup := IsDuplicate(ColumnC(base[FindTitle(base, name).value].rows), f.url);
          && (dup ==> afterCount == count + 1 && after == base)
          && (!dup ==> afterCount == count && BuildRow(f).Ok? && after == AppendedTo(base, name, RowText(BuildRow(f).value)))
  }

  /**
   * What appendArticle promises: a normal return leaves the article written
   * (or counted as a duplicate) in its ensured partition sheet; an exception
   * counts nothing and leaves the partition sheet ensured with nothing
   * written, or partway through being created.
   */
  lemma AppendPlanMeaning(b: BackendState, f: ArticleFields, count: int)
    ensures PartitionName(f.publishedDate).Ok?
    ensures var w := AppendPlan(b, f);
            var name := PartitionName(f.publishedDate).value;
            && (w.duplicate ==> w.effect.status.Success?)
            && (w.effect.status.Success? ==>
                  ArticleWritten(b.sheets, b.nextId, count, f, w.effect.after.sheets, count + if w.duplicate then 1 else 0))
            && (w.effect.status.Failure? ==>
                  || w.effect.after.sheets == AfterEnsure(b.sheets, name, b.nextId)
                  || PartlyEnsured(b.sheets, name, b.nextId, w.effect.after.sheets))
  {
    PartitionOfDate(f.publishedDate);
  }

  /** The duplicate scan of appendArticle: the first non-empty row equal to the URL, ignoring case. */
  method FindUrl(values: seq<seq<string>>, url: string) returns (dup: bool)
    ensures dup <==> IsDuplicate(values, url)
  {
    for i := 0 to |values|
      invariant forall j :: 0 <= j < i ==> !(values[j] != [] && EqualsIgnoreCase(url, values[j][0]))
    {
      if values[i] != [] && EqualsIgnoreCase(url, values[i][0]) {
        return true;
      }
    }
    return false;
  }

  /** Logging three stretches of calls one after the other logs them joined. */
  lemma CallsJoin(log: seq<Call>, a: seq<Call>, b: seq<Call>, c: seq<Call>)
    ensures log + a + b + c == log + (a + b + c)
    ensures log + a + b == log + (a + b)
  {
  }

  lemma FindTitleOfPresent(sheets: seq<Sheet>, title: string)
    requires title in Titles(sheets)
    ensures FindTitle(sheets, title).Some?
  {
  }
}
