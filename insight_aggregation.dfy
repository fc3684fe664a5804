/**
 * CustomInsightAggregationRepositoryImpl.aggregateFestivalTrends as a
 * reference function over the cached insights: match the festival-linked
 * insights that name a festival and are dated on or after `fromDate`, group
 * them by festival name, and count the exact "POSITIVE" and "NEGATIVE"
 * sentiments of each group. The database leaves the order of the groups
 * open; this function lists them in the order their names first appear.
 */
module InsightAggregation {
  import opened Wrappers
  import opened Calendar
  import opened Model

  /** The $match stage: festivalLinked is true, festivalName is not null, publishedDate >= fromDate. */
  predicate Contributes(i: Insight, fromDate: LocalDate) {
    i.festivalLinked && i.festivalName.Some? && i.publishedDate.Some? && !IsBefore(i.publishedDate.value, fromDate)
  }

  /** The insights that pass the match stage, in collection order. */
  function Matching(insights: seq<Insight>, fromDate: LocalDate): (ms: seq<Insight>)
    ensures |ms| <= |insights|
    ensures forall m :: m in ms <==> m in insights && Contributes(m, fromDate)
  {
    if insights == [] then []
    else
      var rest := Matching(insights[1..], fromDate);
      assert forall m :: m in insights <==> m == insights[0] || m in insights[1..];
      if Contributes(insights[0], fromDate) then [insights[0]] + rest else rest
  }

  /** The group key. */
  function Name(i: Insight): string {
    i.festivalName.GetOr("")
  }

  /** The distinct group keys, in the order they first appear. */
  function Names(ms: seq<Insight>): (names: seq<string>)
    ensures forall n :: n in names <==> exists m :: m in ms && Name(m) == n
    ensures forall a, b :: 0 <= a < b < |names| ==> names[a] != names[b]
  {
    if ms == [] then []
    else
      var init, last := ms[..|ms| - 1], ms[|ms| - 1];
      var p := Names(init);
      assert forall m :: m in ms <==> m in init || m == last by {
        assert ms == init + [last];
      }
      if Name(last) in p then p else p + [Name(last)]
  }

  /** The members of the group named `n`. */
  function GroupSize(ms: seq<Insight>, n: string): nat {
    if ms == [] then 0
    else GroupSize(ms[..|ms| - 1], n) + (if Name(ms[|ms| - 1]) == n then 1 else 0)
  }

  /** The members of the group named `n` whose sentiment is exactly `s`. */
  function CountSentiment(ms: seq<Insight>, n: string, s: string): nat {
    if ms == [] then 0
    else CountSentiment(ms[..|ms| - 1], n, s)
         + (if Name(ms[|ms| - 1]) == n && ms[|ms| - 1].sentiment == Some(s) then 1 else 0)
  }

  /** The $group stage with its two conditional sums, and the projection onto (event, positive, negative). */
  function Groups(ms: seq<Insight>): (r: seq<FestivalTrend>) {
    var names := Names(ms);
    seq(|names|, k requires 0 <= k < |names| =>
      FestivalTrend(names[k], CountSentiment(ms, names[k], "POSITIVE"), CountSentiment(ms, names[k], "NEGATIVE")))
  }

  /** aggregateFestivalTrends(fromDate) */
  function AggregateFestivalTrends(insights: seq<Insight>, fromDate: LocalDate): seq<FestivalTrend> {
    Groups(Matching(insights, fromDate))
  }

  /** Summing the group sizes over a list of names. */
  function SumSizes(ms: seq<Insight>, names: seq<string>): nat {
    if names == [] then 0 else SumSizes(ms, names[..|names| - 1]) + GroupSize(ms, names[|names| - 1])
  }

  /** A name that no insight carries has an empty group. */
  lemma {:induction false} GroupSizeAbsent(ms: seq<Insight>, n: string)
    requires forall m :: m in ms ==> Name(m) != n
    ensures GroupSize(ms, n) == 0
  {
    if ms != [] {
      var init := ms[..|ms| - 1];
      assert forall m :: m in init ==> m in ms;
      GroupSizeAbsent(init, n);
    }
  }

  /** One more insight adds one to the sum exactly when its name is listed once. */
  lemma {:induction false} SumSizesStep(ms: seq<Insight>, names: seq<string>)
    requires ms != []
    requires forall a, b :: 0 <= a < b < |names| ==> names[a] != names[b]
    ensures SumSizes(ms, names)
            == SumSizes(ms[..|ms| - 1], names) + (if Name(ms[|ms| - 1]) in names then 1 else 0)
  {
    if names != [] {
      var init := names[..|names| - 1];
      forall a, b | 0 <= a < b < |init|
        ensures init[a] != init[b]
      {
        assert init[a] == names[a] && init[b] == names[b];
      }
      SumSizesStep(ms, init);
      var last := names[|names| - 1];
      assert Name(ms[|ms| - 1]) in names <==> Name(ms[|ms| - 1]) in init || Name(ms[|ms| - 1]) == last by {
        assert names == init + [last];
      }
    }
  }

  /** Appending a name adds its group size. */
  lemma SumSizesAppend(ms: seq<Insight>, names: seq<string>, n: string)
    ensures SumSizes(ms, names + [n]) == SumSizes(ms, names) + GroupSize(ms, n)
  {
    assert (names + [n])[..|names|] == names;
  }

  /** Every matching insight lies in exactly one group: the group sizes add up to the number of matches. */
  lemma {:induction false} GroupsPartition(ms: seq<Insight>)
    ensures SumSizes(ms, Names(ms)) == |ms|
  {
    if ms != [] {
      var init, last := ms[..|ms| - 1], ms[|ms| - 1];
      GroupsPartition(init);
      var p := Names(init);
      if Name(last) in p {
        SumSizesStep(ms, p);
      } else {
        SumSizesStep(ms, p);
        SumSizesAppend(ms, p, Name(last));
        GroupSizeAbsent(init, Name(last));
      }
    }
  }

  /** Neither count exceeds the group, and together they do not either: other sentiments count in neither. */
  lemma {:induction false} SentimentCountsBounded(ms: seq<Insight>, n: string)
    ensures CountSentiment(ms, n, "POSITIVE") + CountSentiment(ms, n, "NEGATIVE") <= GroupSize(ms, n)
  {
    if ms != [] {
      SentimentCountsBounded(ms[..|ms| - 1], n);
    }
  }

  /** The events are exactly the festival names of the matching insights. */
  lemma AggregateEvents(insights: seq<Insight>, fromDate: LocalDate)
    ensures var r := AggregateFestivalTrends(insights, fromDate);
            forall n :: (exists k :: 0 <= k < |r| && r[k].event == n) <==>
                        (exists i :: i in insights && Contributes(i, fromDate) && i.festivalName == Some(n))
  {
    var ms := Matching(insights, fromDate);
    var names := Names(ms);
    var r := AggregateFestivalTrends(insights, fromDate);
    forall n
      ensures (exists k :: 0 <= k < |r| && r[k].event == n) <==>
              (exists i :: i in insights && Contributes(i, fromDate) && i.festivalName == Some(n))
    {
      if exists k :: 0 <= k < |r| && r[k].event == n {
        var k :| 0 <= k < |r| && r[k].event == n;
        assert names[k] in names;
        var m :| m in ms && Name(m) == n;
        assert m in insights && Contributes(m, fromDate) && m.festivalName == Some(n);
      }
      if exists i :: i in insights && Contributes(i, fromDate) && i.festivalName == Some(n) {
        var i :| i in insights && Contributes(i, fromDate) && i.festivalName == Some(n);
        assert i in ms && Name(i) == n;
        assert n in names;
        var k :| 0 <= k < |names| && names[k] == n;
        assert r[k].event == n;
      }
    }
  }

  /** No festival name has two entries. */
  lemma AggregateDistinct(insights: seq<Insight>, fromDate: LocalDate)
    ensures var r := AggregateFestivalTrends(insights, fromDate);
            forall a, b :: 0 <= a < b < |r| ==> r[a].event != r[b].event
  {
    var names := Names(Matching(insights, fromDate));
    var r := AggregateFestivalTrends(insights, fromDate);
    forall a, b | 0 <= a < b < |r|
      ensures r[a].event != r[b].event
    {
      assert r[a].event == names[a] && r[b].event == names[b];
    }
  }

  /**
   * Each entry counts the exact "POSITIVE" and "NEGATIVE" sentiments of its
   * group, and the two together do not exceed the group's size.
   */
  lemma AggregateCounts(insights: seq<Insight>, fromDate: LocalDate)
    ensures var ms := Matching(insights, fromDate);
            var r := AggregateFestivalTrends(insights, fromDate);
            forall k :: 0 <= k < |r| ==>
              && r[k].positive == CountSentiment(ms, r[k].event, "POSITIVE")
              && r[k].negative == CountSentiment(ms, r[k].event, "NEGATIVE")
              && r[k].positive + r[k].negative <= GroupSize(ms, r[k].event)
  {
    var ms := Matching(insights, fromDate);
    var r := AggregateFestivalTrends(insights, fromDate);
    forall k | 0 <= k < |r|
      ensures r[k].positive + r[k].negative <= GroupSize(ms, r[k].event)
    {
      SentimentCountsBounded(ms, r[k].event);
    }
  }
}
