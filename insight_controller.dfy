/**
 * InsightController, the read side of the dashboard: range keys turned into
 * date windows, the strictly-after date query, the three text filters, the
 * newest-first sort, the page cut, the summary counts and the festival
 * summary. The cached insights are the sequence `insights`, the collection
 * in its natural order; the clock is the parameter `today`.
 */
module InsightController {
  import opened Wrappers
  import opened Text
  import opened Calendar
  import opened Model
  import InsightService
  import InsightAggregation

  // ----- range keys -----

  /** getInsightsByTimeRange: the window start for a range key; unknown keys get three months. */
  function ListWindow(range: string, today: LocalDate): LocalDate {
    var key := ToLower(range);
    if key == "week" then MinusWeeks(today, 1)
    else if key == "month" then MinusMonths(today, 1)
    else if key == "year" then MinusYears(today, 1)
    else MinusMonths(today, 3)
  }

  /** filterInsights: the same keys, but unknown keys get six months. */
  function FilterWindow(range: string, today: LocalDate): LocalDate {
    var key := ToLower(range);
    if key == "week" then MinusWeeks(today, 1)
    else if key == "month" then MinusMonths(today, 1)
    else if key == "year" then MinusYears(today, 1)
    else MinusMonths(today, 6)
  }

  /** A window start together with the label the response carries. */
  datatype Window = Window(from: LocalDate, rangeLabel: string)

  /** getSummaryStats: the window and its label; "all" reaches back three years. */
  function SummaryWindow(range: string, today: LocalDate): Window {
    var key := ToLower(range);
    if key == "week" then Window(MinusWeeks(today, 1), "Last 1 Week")
    else if key == "month" then Window(MinusMonths(today, 1), "Last 1 Month")
    else if key == "year" then Window(MinusYears(today, 1), "Last 1 Year")
    else if key == "all" then Window(MinusYears(today, 3), "Last 3 Years")
    else Window(MinusMonths(today, 6), "Last 6 Months")
  }

  /** getFestivalTrends: the label the festival summary carries. */
  function FestivalLabel(range: string): string {
    var key := ToLower(range);
    if key == "year" then "Last 1 Year"
    else if key == "3months" then "Last 3 Months"
    else if key == "month" then "Last 1 Month"
    else "Last 6 Months"
  }

  /** Every window the controller opens starts strictly before today. */
  lemma WindowsBeforeToday(range: string, today: LocalDate)
    ensures IsBefore(ListWindow(range, today), today)
    ensures IsBefore(FilterWindow(range, today), today)
    ensures IsBefore(SummaryWindow(range, today).from, today)
  {
    MinusDaysIsBefore(today, 7);
    MinusMonthsIsBefore(today, 1);
    MinusMonthsIsBefore(today, 3);
    MinusMonthsIsBefore(today, 6);
    MinusYearsIsBefore(today, 1);
    MinusYearsIsBefore(today, 3);
  }

  /** Range keys are read in lower case: a key and its lower-case form choose the same window and label. */
  lemma RangeKeysIgnoreCase(range: string, today: LocalDate)
    ensures ListWindow(range, today) == ListWindow(ToLower(range), today)
    ensures FilterWindow(range, today) == FilterWindow(ToLower(range), today)
    ensures SummaryWindow(range, today) == SummaryWindow(ToLower(range), today)
    ensures FestivalLabel(range) == FestivalLabel(ToLower(range))
  {
    ToLowerIdempotent(range);
  }

  /** The list and filter endpoints agree on the three keys they know and differ only in the fallback. */
  lemma ListAndFilterWindows(range: string, today: LocalDate)
    ensures var key := ToLower(range);
            if key == "week" || key == "month" || key == "year"
            then ListWindow(range, today) == FilterWindow(range, today)
            else ListWindow(range, today) == MinusMonths(today, 3) && FilterWindow(range, today) == MinusMonths(today, 6)
  {
  }

  /** The summary label names the window the counts were taken over. */
  lemma SummaryLabelNamesWindow(range: string, today: LocalDate)
    ensures var w := SummaryWindow(range, today);
            && (w.rangeLabel == "Last 1 Week" ==> w.from == MinusWeeks(today, 1))
            && (w.rangeLabel == "Last 1 Month" ==> w.from == MinusMonths(today, 1))
            && (w.rangeLabel == "Last 1 Year" ==> w.from == MinusYears(today, 1))
            && (w.rangeLabel == "Last 3 Years" ==> w.from == MinusYears(today, 3))
            && (w.rangeLabel == "Last 6 Months" ==> w.from == MinusMonths(today, 6))
  {
  }

  /**
   * The dashboard's summary chart offers "1month", "3months", "6months" and
   * "1year"; the summary endpoint knows none of them, so each gets the
   * six-month window and its label.
   */
  lemma ChartKeysGetSixMonthSummary(today: LocalDate)
    ensures SummaryWindow("1month", today) == Window(MinusMonths(today, 6), "Last 6 Months")
    ensures SummaryWindow("3months", today) == Window(MinusMonths(today, 6), "Last 6 Months")
    ensures SummaryWindow("6months", today) == Window(MinusMonths(today, 6), "Last 6 Months")
    ensures SummaryWindow("1year", today) == Window(MinusMonths(today, 6), "Last 6 Months")
  {
    assert ToLower("1month")[0] == '1';
    assert ToLower("3months")[0] == '3';
    assert ToLower("6months")[0] == '6';
    assert ToLower("1year")[0] == '1';
  }

  /** The festival summary's label names the window the service aggregated over. */
  lemma FestivalLabelNamesWindow(range: string, today: LocalDate)
    ensures var from, shown := InsightService.TrendWindow(range, today), FestivalLabel(range);
            && (shown == "Last 1 Month" ==> from == MinusMonths(today, 1))
            && (shown == "Last 3 Months" ==> from == MinusMonths(today, 3))
            && (shown == "Last 6 Months" ==> from == MinusMonths(today, 6))
            && (shown == "Last 1 Year" ==> from == MinusYears(today, 1))
  {
  }

  // ----- the date query -----

  /** findByPublishedDateAfter: a date strictly after the bound; an insight without a date never matches. */
  predicate PublishedAfter(i: Insight, from: LocalDate) {
    i.publishedDate.Some? && IsAfter(i.publishedDate.value, from)
  }

  /** The insights published strictly after `from`, in collection order. */
  function FindByPublishedDateAfter(insights: seq<Insight>, from: LocalDate): (r: seq<Insight>)
    ensures |r| <= |insights|
    ensures forall i :: i in r <==> i in insights && PublishedAfter(i, from)
  {
    if insights == [] then []
    else
      var rest := FindByPublishedDateAfter(insights[1..], from);
      assert forall i :: i in insights <==> i == insights[0] || i in insights[1..];
      if PublishedAfter(insights[0], from) then [insights[0]] + rest else rest
  }

  /** getInsightsByTimeRange(range) */
  function InsightsByTimeRange(insights: seq<Insight>, range: string, today: LocalDate): seq<Insight> {
    FindByPublishedDateAfter(insights, ListWindow(range, today))
  }

  /** The list endpoint returns exactly the insights dated inside its window, none of them in the future of the window start. */
  lemma InsightsByTimeRangeMeaning(insights: seq<Insight>, range: string, today: LocalDate)
    ensures var r := InsightsByTimeRange(insights, range, today);
            forall i :: i in r <==> i in insights && i.publishedDate.Some? && IsBefore(ListWindow(range, today), i.publishedDate.value)
  {
  }

  // ----- the text filters -----

  /** sentiment.isBlank() || sentiment.equalsIgnoreCase(i.getSentiment()) */
  predicate SentimentMatches(i: Insight, sentiment: string) {
    IsBlank(sentiment) || (i.sentiment.Some? && EqualsIgnoreCase(sentiment, i.sentiment.value))
  }

  /** location.isBlank() || the insight's location contains it, both lower-cased */
  predicate LocationMatches(i: Insight, location: string) {
    IsBlank(location) || (i.location.Some? && Contains(ToLower(i.location.value), ToLower(location)))
  }

  /** theme.isBlank() || some theme of the insight contains it, both lower-cased */
  predicate ThemeMatches(i: Insight, theme: string) {
    IsBlank(theme) || (i.themes.Some? && exists t :: t in i.themes.value && Contains(ToLower(t), ToLower(theme)))
  }

  predicate MatchesFilters(i: Insight, sentiment: string, location: string, theme: string) {
    SentimentMatches(i, sentiment) && LocationMatches(i, location) && ThemeMatches(i, theme)
  }

  /** The three filter stages of the stream, in collection order. */
  function ApplyFilters(xs: seq<Insight>, sentiment: string, location: string, theme: string): (r: seq<Insight>)
    ensures |r| <= |xs|
    ensures forall i :: i in r <==> i in xs && MatchesFilters(i, sentiment, location, theme)
  {
    if xs == [] then []
    else
      var rest := ApplyFilters(xs[1..], sentiment, location, theme);
      assert forall i :: i in xs <==> i == xs[0] || i in xs[1..];
      if MatchesFilters(xs[0], sentiment, location, theme) then [xs[0]] + rest else rest
  }

  /** Filter text is compared without regard to case: two spellings of a filter that differ only in case select the same insights. */
  lemma FiltersIgnoreCase(i: Insight, a: string, b: string)
    requires EqualsIgnoreCase(a, b)
    ensures SentimentMatches(i, a) <==> SentimentMatches(i, b)
    ensures LocationMatches(i, a) <==> LocationMatches(i, b)
    ensures ThemeMatches(i, a) <==> ThemeMatches(i, b)
  {
    BlankIgnoresCase(a);
    BlankIgnoresCase(b);
  }

  /** Blank filters (the defaults) keep every insight, in order. */
  lemma {:induction false} BlankFiltersKeepAll(xs: seq<Insight>, sentiment: string, location: string, theme: string)
    requires IsBlank(sentiment) && IsBlank(location) && IsBlank(theme)
    ensures ApplyFilters(xs, sentiment, location, theme) == xs
  {
    if xs != [] {
      BlankFiltersKeepAll(xs[1..], sentiment, location, theme);
    }
  }

  // ----- newest first -----

  /**
   * The sort key. Comparator.comparing throws on a null date, so the sort is
   * only applied to dated insights; the placeholder below is never compared.
   */
  function DateKey(i: Insight): LocalDate {
    i.publishedDate.GetOr(Date(1970, 1, 1))
  }

  predicate AllDated(xs: seq<Insight>) {
    forall k :: 0 <= k < |xs| ==> xs[k].publishedDate.Some?
  }

  /** No insight is older than one that follows it. */
  predicate NewestFirst(xs: seq<Insight>) {
    forall a, b :: 0 <= a < b < |xs| ==> !IsBefore(DateKey(xs[a]), DateKey(xs[b]))
  }

  /** The insights of `xs` published on day `d`, in their order in `xs`. */
  function OnDay(xs: seq<Insight>, d: LocalDate): seq<Insight> {
    if xs == [] then []
    else (if DateKey(xs[0]) == d then [xs[0]] else []) + OnDay(xs[1..], d)
  }

  /** Place `x` in front of the first insight no newer than itself. */
  function Insert(x: Insight, ys: seq<Insight>): (r: seq<Insight>)
    ensures multiset(r) == multiset(ys) + multiset{x}
  {
    if ys == [] || !IsBefore(DateKey(x), DateKey(ys[0])) then [x] + ys
    else
      assert ys == [ys[0]] + ys[1..];
      [ys[0]] + Insert(x, ys[1..])
  }

  /**
   * .sorted(Comparator.comparing(CachedAiInsight::getPublishedDate).reversed()):
   * a stable sort, newest first, ties kept in collection order.
   */
  function SortNewestFirst(xs: seq<Insight>): (r: seq<Insight>)
    requires AllDated(xs)
    ensures multiset(r) == multiset(xs)
  {
    if xs == [] then []
    else
      assert xs == [xs[0]] + xs[1..];
      Insert(xs[0], SortNewestFirst(xs[1..]))
  }

  lemma {:induction false} InsertNewestFirst(x: Insight, ys: seq<Insight>)
    requires NewestFirst(ys)
    ensures NewestFirst(Insert(x, ys))
  {
    if ys != [] && IsBefore(DateKey(x), DateKey(ys[0])) {
      var tail := Insert(x, ys[1..]);
      assert NewestFirst(ys[1..]) by {
        forall a, b | 0 <= a < b < |ys[1..]|
          ensures !IsBefore(DateKey(ys[1..][a]), DateKey(ys[1..][b]))
        {
          assert ys[1..][a] == ys[a + 1] && ys[1..][b] == ys[b + 1];
        }
      }
      InsertNewestFirst(x, ys[1..]);
      forall k | 0 <= k < |tail|
        ensures !IsBefore(DateKey(ys[0]), DateKey(tail[k]))
      {
        assert tail[k] in multiset(tail);
        if tail[k] != x {
          assert tail[k] in multiset(ys[1..]);
          var j :| 0 <= j < |ys[1..]| && ys[1..][j] == tail[k];
          assert ys[j + 1] == tail[k];
        }
      }
      var r := [ys[0]] + tail;
      forall a, b | 0 <= a < b < |r|
        ensures !IsBefore(DateKey(r[a]), DateKey(r[b]))
      {
        if a > 0 {
          assert r[a] == tail[a - 1] && r[b] == tail[b - 1];
        } else {
          assert r[b] == tail[b - 1];
        }
      }
    }
  }

  /** The result is newest first. */
  lemma {:induction false} SortNewestFirstOrdered(xs: seq<Insight>)
    requires AllDated(xs)
    ensures NewestFirst(SortNewestFirst(xs))
  {
    if xs != [] {
      SortNewestFirstOrdered(xs[1..]);
      InsertNewestFirst(xs[0], SortNewestFirst(xs[1..]));
    }
  }

  lemma {:induction false} OnDayAppend(a: seq<Insight>, b: seq<Insight>, d: LocalDate)
    ensures OnDay(a + b, d) == OnDay(a, d) + OnDay(b, d)
  {
    if a != [] {
      var head := if DateKey(a[0]) == d then [a[0]] else [];
      assert (a + b)[0] == a[0] && (a + b)[1..] == a[1..] + b;
      OnDayAppend(a[1..], b, d);
      assert OnDay(a + b, d) == head + (OnDay(a[1..], d) + OnDay(b, d));
      assert head + (OnDay(a[1..], d) + OnDay(b, d)) == (head + OnDay(a[1..], d)) + OnDay(b, d);
    } else {
      assert a + b == b;
    }
  }

  /** Inserting `x` puts it ahead of every insight of its own day. */
  lemma {:induction false} InsertOnDay(x: Insight, ys: seq<Insight>, d: LocalDate)
    ensures OnDay(Insert(x, ys), d) == OnDay([x], d) + OnDay(ys, d)
  {
    if ys == [] || !IsBefore(DateKey(x), DateKey(ys[0])) {
      OnDayAppend([x], ys, d);
    } else {
      assert ys == [ys[0]] + ys[1..];
      InsertOnDay(x, ys[1..], d);
      OnDayAppend([ys[0]], Insert(x, ys[1..]), d);
      OnDayAppend([ys[0]], ys[1..], d);
      assert DateKey(x) == d ==> DateKey(ys[0]) != d;
    }
  }

  /** Stability: the insights of any one day keep their collection order. */
  lemma {:induction false} SortNewestFirstStable(xs: seq<Insight>, d: LocalDate)
    requires AllDated(xs)
    ensures OnDay(SortNewestFirst(xs), d) == OnDay(xs, d)
  {
    if xs != [] {
      SortNewestFirstStable(xs[1..], d);
      InsertOnDay(xs[0], SortNewestFirst(xs[1..]), d);
    }
  }

  /** Everything the date query returns carries a date, so the sort can be applied to it. */
  lemma FoundAreDated(insights: seq<Insight>, from: LocalDate, sentiment: string, location: string, theme: string)
    ensures AllDated(ApplyFilters(FindByPublishedDateAfter(insights, from), sentiment, location, theme))
  {
    var r := ApplyFilters(FindByPublishedDateAfter(insights, from), sentiment, location, theme);
    assert forall k :: 0 <= k < |r| ==> r[k] in r;
  }

  // ----- the page cut -----

  /** Java's int. */
  type Int32 = x: int | -0x8000_0000 <= x <= 0x7fff_ffff

  const IntMax: int := 0x7fff_ffff

  /** Two's-complement wrap-around of an int product or sum. */
  function Wrap32(x: int): (r: Int32)
    ensures -0x8000_0000 <= x <= 0x7fff_ffff ==> r == x
    ensures (r - x) % 0x1_0000_0000 == 0
  {
    (x + 0x8000_0000) % 0x1_0000_0000 - 0x8000_0000
  }

  /** PageImpl: the content, the requested page and size, and the total. */
  datatype PageOf = PageOf(content: seq<Insight>, page: int, size: int, total: nat)

  /**
   * The page cut as written: `page * size` and `start + size` are int
   * arithmetic and wrap around. subList rejects a negative start and a start
   * past the end; PageRequest.of then rejects a negative page and a size
   * below one.
   */
  function PageAsWritten(filtered: seq<Insight>, page: Int32, size: Int32): (r: Result<PageOf>)
    requires |filtered| <= IntMax
  {
    var n := |filtered|;
    var start := Min(Wrap32(page * size), n);
    var end := Min(Wrap32(start + size), n);
    if start < 0 then Err("IndexOutOfBoundsException")
    else if start > end then Err("IllegalArgumentException")
    else if page < 0 then Err("IllegalArgumentException")
    else if size < 1 then Err("IllegalArgumentException")
    else Ok(PageOf(filtered[start..end], page, size, n))
  }

  /** The page cut as intended: the same checks, with the offsets computed without wrap-around. */
  function Paginate(filtered: seq<Insight>, page: Int32, size: Int32): (r: Result<PageOf>)
    ensures r.Ok? <==> page >= 0 && size >= 1
    ensures r.Ok? ==> r.value.total == |filtered| && |r.value.content| <= size && r.value.page == page && r.value.size == size
    ensures r.Ok? ==> r.value.content == filtered[Min(page * size, |filtered|)..Min(page * size + size, |filtered|)]
  {
    var n := |filtered|;
    var start := Min(page * size, n);
    var end := Min(start + size, n);
    if start < 0 then Err("IndexOutOfBoundsException")
    else if start > end then Err("IllegalArgumentException")
    else if page < 0 then Err("IllegalArgumentException")
    else if size < 1 then Err("IllegalArgumentException")
    else
      PageEnd(page, size, n);
      Ok(PageOf(filtered[start..end], page, size, n))
  }

  lemma PageEnd(page: int, size: int, n: nat)
    requires page >= 0 && size >= 1
    ensures Min(Min(page * size, n) + size, n) == Min(page * size + size, n)
    ensures 0 <= page * size
  {
  }

  /** Where neither int computation wraps, the page cut as written is the intended one. */
  lemma PagesAgreeWithoutOverflow(filtered: seq<Insight>, page: Int32, size: Int32)
    requires |filtered| <= IntMax
    requires -0x8000_0000 <= page * size <= IntMax
    requires -0x8000_0000 <= Min(page * size, |filtered|) + size <= IntMax
    ensures PageAsWritten(filtered, page, size) == Paginate(filtered, page, size)
  {
  }

  /** A page that starts at or past the end is empty. */
  lemma PagePastTheEnd(filtered: seq<Insight>, page: Int32, size: Int32)
    requires page >= 0 && size >= 1 && page * size >= |filtered|
    ensures Paginate(filtered, page, size) == Ok(PageOf([], page, size, |filtered|))
  {
  }

  lemma PageStep(k: nat, size: nat)
    ensures (k + 1) * size == k * size + size
  {
  }

  /** The first `k` pages, one after the other. */
  function Pages(filtered: seq<Insight>, size: Int32, k: nat): seq<Insight>
    requires size >= 1 && k <= IntMax
  {
    if k == 0 then []
    else
      var p := Paginate(filtered, (k - 1) as Int32, size);
      Pages(filtered, size, k - 1) + p.value.content
  }

  /** The pages tile the list: the first `k` pages are its first `k * size` insights, in order. */
  lemma {:induction false} PagesTile(filtered: seq<Insight>, size: Int32, k: nat)
    requires size >= 1 && k <= IntMax
    ensures Pages(filtered, size, k) == filtered[..Min(k * size, |filtered|)]
  {
    if k > 0 {
      PagesTile(filtered, size, k - 1);
      PageStep(k - 1, size);
      var n, p := |filtered|, (k - 1) * size;
      assert k * size == p + size;
      var a, b := Min(p, n), Min(p + size, n);
      assert a <= b;
      assert Paginate(filtered, (k - 1) as Int32, size).value.content == filtered[a..b];
      assert filtered[..a] + filtered[a..b] == filtered[..b];
    }
  }

  /** Page 65536 of size 65536: the int product wraps to 0 and the first page comes back again. */
  lemma WrappedOffsetRepeatsFirstPage(filtered: seq<Insight>)
    requires 1 <= |filtered| <= 65536
    ensures PageAsWritten(filtered, 65536, 65536) == Ok(PageOf(filtered, 65536, 65536, |filtered|))
    ensures Paginate(filtered, 65536, 65536) == Ok(PageOf([], 65536, 65536, |filtered|))
  {
    assert Wrap32(65536 * 65536) == 0;
    assert filtered[0..|filtered|] == filtered;
  }

  /** Page 1 of the largest int size: `start + size` wraps negative and a request past the end fails. */
  lemma WrappedEndRejectsPage(filtered: seq<Insight>)
    requires 1 <= |filtered| <= IntMax
    ensures PageAsWritten(filtered, 1, IntMax) == Err("IllegalArgumentException")
    ensures Paginate(filtered, 1, IntMax) == Ok(PageOf([], 1, IntMax, |filtered|))
  {
    var n := |filtered|;
    assert Wrap32(n + IntMax) == n + IntMax - 0x1_0000_0000;
  }

  /** filterInsights(range, sentiment, location, theme, page, size) */
  function FilterInsights(insights: seq<Insight>, range: string, sentiment: string, location: string, theme: string,
                          page: Int32, size: Int32, today: LocalDate): Result<PageOf>
  {
    var from := FilterWindow(range, today);
    FoundAreDated(insights, from, sentiment, location, theme);
    Paginate(SortNewestFirst(ApplyFilters(FindByPublishedDateAfter(insights, from), sentiment, location, theme)), page, size)
  }

  /** A page of a newest-first list is newest first, and holds only insights of the list. */
  lemma PageOfNewestFirst(s: seq<Insight>, page: Int32, size: Int32)
    requires NewestFirst(s)
    ensures var r := Paginate(s, page, size);
            r.Ok? ==> NewestFirst(r.value.content) && forall i :: i in r.value.content ==> i in s
  {
    var r := Paginate(s, page, size);
    if r.Ok? {
      var lo := Min(page * size, |s|);
      var c := r.value.content;
      forall a, b | 0 <= a < b < |c|
        ensures !IsBefore(DateKey(c[a]), DateKey(c[b]))
      {
        assert c[a] == s[lo + a] && c[b] == s[lo + b];
      }
      forall i | i in c
        ensures i in s
      {
        var k :| 0 <= k < |c| && c[k] == i;
        assert s[lo + k] == i;
      }
    }
  }

  /**
   * Every insight the filter endpoint shows was published after its window
   * and passes all three filters; the page holds at most `size` insights,
   * newest first, and the total counts every insight that qualifies.
   */
  lemma FilterInsightsMeaning(insights: seq<Insight>, range: string, sentiment: string, location: string, theme: string,
                              page: Int32, size: Int32, today: LocalDate)
    ensures var r := FilterInsights(insights, range, sentiment, location, theme, page, size, today);
            var f := ApplyFilters(FindByPublishedDateAfter(insights, FilterWindow(range, today)), sentiment, location, theme);
            r.Ok? ==>
              && |r.value.content| <= size
              && NewestFirst(r.value.content)
              && r.value.total == |f|
              && forall i :: i in r.value.content ==>
                   i in insights && PublishedAfter(i, FilterWindow(range, today)) && MatchesFilters(i, sentiment, location, theme)
  {
    var from := FilterWindow(range, today);
    var f := ApplyFilters(FindByPublishedDateAfter(insights, from), sentiment, location, theme);
    FoundAreDated(insights, from, sentiment, location, theme);
    var s := SortNewestFirst(f);
    var r := Paginate(s, page, size);
    assert FilterInsights(insights, range, sentiment, location, theme, page, size, today) == r;
    if r.Ok? {
      SortNewestFirstOrdered(f);
      PageOfNewestFirst(s, page, size);
      assert forall i :: i in s ==> i in multiset(f);
      assert |s| == |multiset(s)| == |multiset(f)| == |f|;
    }
  }

  // ----- the summary -----

  /** The number of insights whose sentiment equals `wanted` ignoring case; a null sentiment never does. */
  function CountSentimentIgnoreCase(xs: seq<Insight>, wanted: string): (c: nat)
    ensures c <= |xs|
  {
    if xs == [] then 0
    else CountSentimentIgnoreCase(xs[1..], wanted)
         + (if xs[0].sentiment.Some? && EqualsIgnoreCase(wanted, xs[0].sentiment.value) then 1 else 0)
  }

  /** Every theme of every insight, null theme lists contributing nothing. */
  function AllThemes(xs: seq<Insight>): (r: seq<string>)
    ensures forall t :: t in r <==> exists i :: i in xs && i.themes.Some? && t in i.themes.value
  {
    if xs == [] then []
    else
      var rest := AllThemes(xs[1..]);
      assert forall i :: i in xs <==> i == xs[0] || i in xs[1..];
      (if xs[0].themes.Some? then xs[0].themes.value else []) + rest
  }

  /** The insights that carry a location. */
  function WithLocation(xs: seq<Insight>): (r: seq<Insight>)
    ensures forall i :: i in r <==> i in xs && i.location.Some?
  {
    if xs == [] then []
    else
      var rest := WithLocation(xs[1..]);
      assert forall i :: i in xs <==> i == xs[0] || i in xs[1..];
      if xs[0].location.Some? then [xs[0]] + rest else rest
  }

  function LowerAll(ks: seq<string>): (r: seq<string>)
    ensures |r| == |ks|
  {
    seq(|ks|, k requires 0 <= k < |ks| => ToLower(ks[k]))
  }

  /** The lower-cased locations of the insights that carry one. */
  function LocationKeys(xs: seq<Insight>): (r: seq<string>)
    ensures |r| == |WithLocation(xs)|
  {
    var w := WithLocation(xs);
    LowerAll(seq(|w|, k requires 0 <= k < |w| => w[k].location.value))
  }

  /** How often `k` occurs in `keys`. */
  function Occurrences(keys: seq<string>, k: string): nat {
    if keys == [] then 0
    else Occurrences(keys[..|keys| - 1], k) + (if keys[|keys| - 1] == k then 1 else 0)
  }

  /** Collectors.groupingBy(key, Collectors.counting()) on keys already computed. */
  function CountBy(keys: seq<string>): (m: map<string, nat>)
    ensures forall k :: k in m <==> k in keys
  {
    if keys == [] then map[]
    else
      var init, last := keys[..|keys| - 1], keys[|keys| - 1];
      var m := CountBy(init);
      assert keys == init + [last];
      m[last := (if last in m then m[last] else 0) + 1]
  }

  /** Each key is counted as often as it occurs. */
  lemma {:induction false} CountByOccurrences(keys: seq<string>)
    ensures forall k :: k in CountBy(keys) ==> CountBy(keys)[k] == Occurrences(keys, k)
  {
    if keys != [] {
      var init := keys[..|keys| - 1];
      CountByOccurrences(init);
      forall k | k !in CountBy(init)
        ensures Occurrences(init, k) == 0
      {
        OccurrencesAbsent(init, k);
      }
    }
  }

  lemma {:induction false} OccurrencesAbsent(keys: seq<string>, k: string)
    requires k !in keys
    ensures Occurrences(keys, k) == 0
  {
    if keys != [] {
      var init := keys[..|keys| - 1];
      assert forall j :: j in init ==> j in keys;
      OccurrencesAbsent(init, k);
    }
  }

  /** Some key of a non-empty map. */
  ghost function PickKey(m: map<string, nat>): (k: string)
    requires m != map[]
    ensures k in m
  {
    var k :| k in m; k
  }

  /** The sum of a map's counts. */
  ghost function MapSum(m: map<string, nat>): nat
    decreases |m|
  {
    if m == map[] then 0
    else
      var k := PickKey(m);
      assert |m - {k}| < |m| by {
        assert (m - {k}).Keys == m.Keys - {k};
      }
      m[k] + MapSum(m - {k})
  }

  /** Any key may be taken out first. */
  lemma {:induction false} MapSumRemove(m: map<string, nat>, k: string)
    requires k in m
    ensures MapSum(m) == m[k] + MapSum(m - {k})
    decreases |m|
  {
    var j := PickKey(m);
    if j != k {
      var mj, mk := m - {j}, m - {k};
      assert (m - {k}).Keys == m.Keys - {k} && (m - {j}).Keys == m.Keys - {j};
      MapSumRemove(mj, k);
      MapSumRemove(mk, j);
      assert mj - {k} == mk - {j};
    }
  }

  /** Setting one count changes the sum by the difference. */
  lemma MapSumUpdate(m: map<string, nat>, k: string, v: nat)
    ensures MapSum(m[k := v]) == MapSum(m) - (if k in m then m[k] else 0) + v
  {
    MapSumRemove(m[k := v], k);
    assert m[k := v] - {k} == m - {k};
    if k in m {
      MapSumRemove(m, k);
    } else {
      assert m - {k} == m;
    }
  }

  lemma CountByLast(keys: seq<string>)
    requires keys != []
    ensures var m, last := CountBy(keys[..|keys| - 1]), keys[|keys| - 1];
            CountBy(keys) == m[last := (if last in m then m[last] else 0) + 1]
  {
  }

  /** The counts add up to the number of keys counted. */
  lemma {:induction false} CountBySum(keys: seq<string>)
    ensures MapSum(CountBy(keys)) == |keys|
  {
    if keys != [] {
      var init, last := keys[..|keys| - 1], keys[|keys| - 1];
      CountBySum(init);
      var m := CountBy(init);
      var was := if last in m then m[last] else 0;
      CountByLast(keys);
      MapSumIncrement(m, last);
    }
  }

  /** Counting one more occurrence of a key adds one to the sum. */
  lemma MapSumIncrement(m: map<string, nat>, k: string)
    ensures MapSum(m[k := (if k in m then m[k] else 0) + 1]) == MapSum(m) + 1
  {
    MapSumUpdate(m, k, (if k in m then m[k] else 0) + 1);
  }

  /** The summary response. */
  datatype Summary = Summary(positive: nat, negative: nat, themeCounts: map<string, nat>,
                             locationCounts: map<string, nat>, rangeLabel: string)

  /** getSummaryStats(range) */
  function SummaryStats(insights: seq<Insight>, range: string, today: LocalDate): Summary {
    var w := SummaryWindow(range, today);
    var xs := FindByPublishedDateAfter(insights, w.from);
    Summary(CountSentimentIgnoreCase(xs, "POSITIVE"), CountSentimentIgnoreCase(xs, "NEGATIVE"),
            CountBy(LowerAll(AllThemes(xs))), CountBy(LocationKeys(xs)), w.rangeLabel)
  }

  /** "POSITIVE" and "NEGATIVE" differ ignoring case, so no insight counts as both. */
  lemma {:induction false} SentimentCountsDisjoint(xs: seq<Insight>)
    ensures CountSentimentIgnoreCase(xs, "POSITIVE") + CountSentimentIgnoreCase(xs, "NEGATIVE") <= |xs|
  {
    if xs != [] {
      SentimentCountsDisjoint(xs[1..]);
      assert ToLower("POSITIVE")[0] == 'p' && ToLower("NEGATIVE")[0] == 'n';
    }
  }

  /** The lower-cased keys are the lower-case forms of the keys. */
  lemma LowerAllMembers(ks: seq<string>)
    ensures forall k :: k in LowerAll(ks) <==> exists t :: t in ks && ToLower(t) == k
  {
    forall k | k in LowerAll(ks)
      ensures exists t :: t in ks && ToLower(t) == k
    {
      var j :| 0 <= j < |ks| && LowerAll(ks)[j] == k;
      assert ks[j] in ks;
    }
    forall t | t in ks
      ensures ToLower(t) in LowerAll(ks)
    {
      var j :| 0 <= j < |ks| && ks[j] == t;
      assert LowerAll(ks)[j] == ToLower(t);
    }
  }

  /** Lower-cased keys are their own lower case. */
  lemma LowerAllIsLower(ks: seq<string>)
    ensures forall k :: k in LowerAll(ks) ==> ToLower(k) == k
  {
    forall k | k in LowerAll(ks)
      ensures ToLower(k) == k
    {
      var j :| 0 <= j < |ks| && LowerAll(ks)[j] == k;
      ToLowerIdempotent(ks[j]);
    }
  }

  /**
   * The summary: positive and negative together do not exceed the insights
   * in the window; the theme and location keys are lower case; each key's
   * count is how often it occurs; the theme counts add up to the number of
   * themes in the window and the location counts to the number of insights
   * there that carry a location.
   */
  lemma SummaryStatsMeaning(insights: seq<Insight>, range: string, today: LocalDate)
    ensures var s := SummaryStats(insights, range, today);
            var xs := FindByPublishedDateAfter(insights, SummaryWindow(range, today).from);
            && s.rangeLabel == SummaryWindow(range, today).rangeLabel
            && s.positive + s.negative <= |xs|
            && (forall k :: k in s.themeCounts ==> ToLower(k) == k && s.themeCounts[k] == Occurrences(LowerAll(AllThemes(xs)), k))
            && (forall k :: k in s.locationCounts ==> ToLower(k) == k && s.locationCounts[k] == Occurrences(LocationKeys(xs), k))
            && MapSum(s.themeCounts) == |AllThemes(xs)|
            && MapSum(s.locationCounts) == |WithLocation(xs)|
  {
    var xs := FindByPublishedDateAfter(insights, SummaryWindow(range, today).from);
    SentimentCountsDisjoint(xs);
    var themes := LowerAll(AllThemes(xs));
    var w := WithLocation(xs);
    var locs := seq(|w|, k requires 0 <= k < |w| => w[k].location.value);
    LowerAllIsLower(AllThemes(xs));
    LowerAllIsLower(locs);
    CountByOccurrences(themes);
    CountByOccurrences(LocationKeys(xs));
    CountBySum(themes);
    CountBySum(LocationKeys(xs));
  }

  /** A theme key is the lower-cased form of some theme of an insight in the window. */
  lemma ThemeKeysComeFromInsights(insights: seq<Insight>, range: string, today: LocalDate)
    ensures var s := SummaryStats(insights, range, today);
            var xs := FindByPublishedDateAfter(insights, SummaryWindow(range, today).from);
            forall k :: k in s.themeCounts <==>
              exists i, t :: i in xs && i.themes.Some? && t in i.themes.value && ToLower(t) == k
  {
    var xs := FindByPublishedDateAfter(insights, SummaryWindow(range, today).from);
    LowerAllMembers(AllThemes(xs));
  }

  // ----- the festival summary -----

  /** The festival summary response: the service's trends and the controller's label. */
  datatype FestivalSummary = FestivalSummary(data: seq<FestivalTrend>, rangeLabel: string)

  /** getFestivalTrends(range) of the controller */
  function FestivalSummaryOf(insights: seq<Insight>, range: string, today: LocalDate): (r: FestivalSummary)
    ensures r.data == InsightService.GetFestivalTrends(insights, range, today)
    ensures r.rangeLabel == FestivalLabel(range)
  {
    FestivalSummary(InsightService.GetFestivalTrends(insights, range, today), FestivalLabel(range))
  }

  /**
   * What the festival summary says: one entry for each festival named by a
   * festival-linked insight dated in the window the key chooses, with the
   * sentiment counts of that festival's insights, under a label that names
   * the same window.
   */
  lemma FestivalSummaryMeaning(insights: seq<Insight>, range: string, today: LocalDate)
    ensures var r := FestivalSummaryOf(insights, range, today);
            var from := InsightService.TrendWindow(range, today);
            var ms := InsightAggregation.Matching(insights, from);
            && (forall n :: (exists k :: 0 <= k < |r.data| && r.data[k].event == n) <==>
                            (exists i :: i in insights && InsightAggregation.Contributes(i, from) && i.festivalName == Some(n)))
            && (forall a, b :: 0 <= a < b < |r.data| ==> r.data[a].event != r.data[b].event)
            && (forall k :: 0 <= k < |r.data| ==>
                  && r.data[k].positive == InsightAggregation.CountSentiment(ms, r.data[k].event, "POSITIVE")
                  && r.data[k].negative == InsightAggregation.CountSentiment(ms, r.data[k].event, "NEGATIVE"))
            && (r.rangeLabel == "Last 1 Month" ==> from == MinusMonths(today, 1))
            && (r.rangeLabel == "Last 3 Months" ==> from == MinusMonths(today, 3))
            && (r.rangeLabel == "Last 6 Months" ==> from == MinusMonths(today, 6))
            && (r.rangeLabel == "Last 1 Year" ==> from == MinusYears(today, 1))
  {
    var r := FestivalSummaryOf(insights, range, today);
    var from := InsightService.TrendWindow(range, today);
    assert r.data == InsightAggregation.AggregateFestivalTrends(insights, from) by {
      assert r.data == InsightService.GetFestivalTrends(insights, range, today);
    }
    InsightService.FestivalTrendsInWindow(insights, range, today);
    InsightAggregation.AggregateCounts(insights, from);
    FestivalLabelNamesWindow(range, today);
  }
}
