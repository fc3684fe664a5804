/**
 * InsightService.getFestivalTrends: turn a range key into the first day of
 * the festival-trend window and hand it to the aggregation. The clock is the
 * parameter `today`.
 */
module InsightService {
  import opened Wrappers
  import opened Calendar
  import opened Text
  import opened Model
  import opened InsightAggregation

  /** The start of the window for a range key, matched without regard to case. */
  function TrendWindow(range: string, today: LocalDate): LocalDate {
    var key := ToLower(range);
    if key == "month" then MinusMonths(today, 1)
    else if key == "3months" then MinusMonths(today, 3)
    else if key == "6months" then MinusMonths(today, 6)
    else if key == "year" then MinusYears(today, 1)
    else MinusMonths(today, 6)
  }

  /** getFestivalTrends(range) */
  function GetFestivalTrends(insights: seq<Insight>, range: string, today: LocalDate): seq<FestivalTrend> {
    AggregateFestivalTrends(insights, TrendWindow(range, today))
  }

  /** The range keys the service recognises. */
  predicate KnownTrendKey(key: string) {
    key == "month" || key == "3months" || key == "6months" || key == "year"
  }

  /** Every window starts strictly before today, whatever the key. */
  lemma TrendWindowBeforeToday(range: string, today: LocalDate)
    ensures IsBefore(TrendWindow(range, today), today)
  {
    var key := ToLower(range);
    if key == "month" {
      MinusMonthsIsBefore(today, 1);
    } else if key == "3months" {
      MinusMonthsIsBefore(today, 3);
    } else if key == "year" {
      MinusYearsIsBefore(today, 1);
    } else {
      MinusMonthsIsBefore(today, 6);
    }
  }

  /** The key is read in lower case: a key and its lower-case form choose the same window. */
  lemma TrendWindowIgnoresCase(range: string, today: LocalDate)
    ensures TrendWindow(range, today) == TrendWindow(ToLower(range), today)
  {
    ToLowerIdempotent(range);
  }

  /** A key the service does not know falls back to the six-month window. */
  lemma UnknownTrendKeyIsSixMonths(range: string, today: LocalDate)
    requires !KnownTrendKey(ToLower(range))
    ensures TrendWindow(range, today) == MinusMonths(today, 6)
  {
  }

  /**
   * The dashboard's festival chart offers "1month", "3months", "6months" and
   * "1year"; the service knows only the middle two, so "1month" and "1year"
   * get the six-month window.
   */
  lemma DashboardKeysGetSixMonths(today: LocalDate)
    ensures TrendWindow("1month", today) == MinusMonths(today, 6)
    ensures TrendWindow("1year", today) == MinusMonths(today, 6)
  {
    assert ToLower("1month")[0] == '1';
    assert ToLower("1year")[0] == '1';
  }

  /**
   * The trends name exactly the festivals of the festival-linked insights
   * dated inside the window the key chooses, one entry per festival.
   */
  lemma FestivalTrendsInWindow(insights: seq<Insight>, range: string, today: LocalDate)
    ensures var r := GetFestivalTrends(insights, range, today);
            var from := TrendWindow(range, today);
            && (forall n :: (exists k :: 0 <= k < |r| && r[k].event == n) <==>
                            (exists i :: i in insights && Contributes(i, from) && i.festivalName == Some(n)))
            && (forall a, b :: 0 <= a < b < |r| ==> r[a].event != r[b].event)
  {
    var from := TrendWindow(range, today);
    assert GetFestivalTrends(insights, range, today) == AggregateFestivalTrends(insights, from);
    AggregateEvents(insights, from);
    AggregateDistinct(insights, from);
  }
}
