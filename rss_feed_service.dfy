/**
 * RssFeedService: the entry filter of fetchArticles and the two dedup checks
 * against the insight store. The feed transport and parser hand over the
 * entries; the markup-to-text parser (Jsoup.parse(...).text()) and the
 * <font>-text extractor are parameters.
 */
module RssFeed {
  import opened Wrappers
  import opened Text
  import opened Calendar
  import opened Model
  import opened InsightStore
  import SourceExtractor

  /** articleExistsInMongo: existsById, membership by key alone. */
  function ArticleExistsInMongo(store: Store, url: string): (r: bool)
    reads store
    ensures r <==> store.FindByUrl(url).Some?
  {
    url in store.records
  }

  /**
   * articleExistsInMongoWithUrlOrTitle on the cache's records: the URL key
   * first, then (title, date); || short-circuits.
   */
  function ArticleExistsWithUrlOrTitle(records: map<string, Insight>, normalizedUrl: string, title: string,
                                       date: Option<LocalDate>): Result<bool>
  {
    if normalizedUrl in records then Ok(true)
    else TitleDatePresentIn(records, title, date)
  }

  /**
   * The check answers true exactly when a record sits under the URL or exactly
   * one record has the title and date; it fails only when the URL is absent and
   * several records share the title and date.
   */
  lemma ArticleExistsMeaning(records: map<string, Insight>, normalizedUrl: string, title: string, date: Option<LocalDate>)
    ensures var r := ArticleExistsWithUrlOrTitle(records, normalizedUrl, title, date);
            var keys := TitleDateKeysOf(records, title, date);
            && (r == Ok(true) <==> normalizedUrl in records || |keys| == 1)
            && (r == Ok(false) <==> normalizedUrl !in records && keys == {})
            && (r.Err? <==> normalizedUrl !in records && |keys| > 1)
  {
    var keys := TitleDateKeysOf(records, title, date);
    if keys != {} {
      var k :| k in keys;
      assert k in records && records[k].title == title && records[k].publishedDate == date;
    }
  }

  /** The date before which entries are dropped: today minus three years. */
  function Cutoff(today: LocalDate): LocalDate {
    MinusYears(today, 3)
  }

  /** An entry survives the filter: it has a date, and that date is not before the cutoff. */
  predicate KeepEntry(e: FeedEntry, cutoff: LocalDate) {
    e.published.Some? && !IsBefore(e.published.value, cutoff)
  }

  /** The entries that survive, in feed order. */
  function KeptEntries(entries: seq<FeedEntry>, cutoff: LocalDate): seq<FeedEntry> {
    if entries == [] then []
    else (if KeepEntry(entries[0], cutoff) then [entries[0]] else []) + KeptEntries(entries[1..], cutoff)
  }

  /** The article built for a kept entry. */
  function ArticleFor(feedUrl: string, e: FeedEntry, markupText: string -> string,
                      fontText: string -> string): ArticleFields
  {
    var raw := e.description.GetOr("");
    ArticleFields(e.title, e.link,
                  Some(SourceExtractor.ExtractSource(feedUrl, Some(raw), Some(e.link), fontText)),
                  Some(markupText(raw)), e.published,
                  None, None, false, None, None, None, None)
  }

  /** Filtering distributes over concatenation: what is kept keeps its feed order. */
  lemma {:induction false} KeptEntriesAppend(a: seq<FeedEntry>, b: seq<FeedEntry>, cutoff: LocalDate)
    ensures KeptEntries(a + b, cutoff) == KeptEntries(a, cutoff) + KeptEntries(b, cutoff)
  {
    if a == [] {
      assert a + b == b;
    } else {
      assert (a + b)[1..] == a[1..] + b;
      KeptEntriesAppend(a[1..], b, cutoff);
    }
  }

  /** One more entry of the feed adds itself when it is kept, and nothing otherwise. */
  lemma KeptEntriesStep(entries: seq<FeedEntry>, n: nat, cutoff: LocalDate)
    requires n < |entries|
    ensures KeptEntries(entries[..n + 1], cutoff)
            == KeptEntries(entries[..n], cutoff) + (if KeepEntry(entries[n], cutoff) then [entries[n]] else [])
  {
    assert entries[..n + 1] == entries[..n] + [entries[n]];
    KeptEntriesAppend(entries[..n], [entries[n]], cutoff);
    assert KeptEntries([entries[n]], cutoff) == (if KeepEntry(entries[n], cutoff) then [entries[n]] else []);
  }

  /** An entry is kept iff it is in the feed, dated, and not before the cutoff; nothing is added. */
  lemma {:induction false} KeptEntriesMembers(entries: seq<FeedEntry>, cutoff: LocalDate)
    ensures |KeptEntries(entries, cutoff)| <= |entries|
    ensures forall e :: e in KeptEntries(entries, cutoff) <==> e in entries && KeepEntry(e, cutoff)
  {
    if entries != [] {
      KeptEntriesMembers(entries[1..], cutoff);
      assert entries == [entries[0]] + entries[1..];
    }
  }

  /** An entry dated exactly on the cutoff is kept; one a day earlier is not. */
  lemma CutoffIsInclusive(e: FeedEntry, cutoff: LocalDate)
    requires e.published.Some?
    ensures e.published.value == cutoff ==> KeepEntry(e, cutoff)
    ensures e.published.value == PrevDay(cutoff) ==> !KeepEntry(e, cutoff)
  {
  }

  /** The body of the loop for a kept entry: a new ArticleDTO filled from the entry. */
  method NewArticle(feedUrl: string, entry: FeedEntry, markupText: string -> string, fontText: string -> string)
    returns (article: Article)
    ensures fresh(article)
    ensures article.Fields() == ArticleFor(feedUrl, entry, markupText, fontText)
  {
    article := new Article(entry.title, entry.link);
    var summary := entry.description.GetOr("");
    article.summary := Some(markupText(summary));
    article.publishedDate := entry.published;
    article.source := Some(SourceExtractor.ExtractSource(feedUrl, Some(summary), Some(entry.link), fontText));
  }

  /**
   * fetchArticles after the feed is parsed: for each dated entry not older than
   * three years, a new article with the entry's title, link and date, the
   * markup-free summary, and the source label computed from the raw markup.
   */
  method FetchArticles(feedUrl: string, entries: seq<FeedEntry>, today: LocalDate,
                       markupText: string -> string, fontText: string -> string)
    returns (articles: seq<Article>)
    ensures var kept := KeptEntries(entries, Cutoff(today));
            && |articles| == |kept|
            && (forall i :: 0 <= i < |articles| ==> articles[i].Fields() == ArticleFor(feedUrl, kept[i], markupText, fontText))
    ensures forall i :: 0 <= i < |articles| ==> fresh(articles[i])
    ensures forall i, j :: 0 <= i < j < |articles| ==> articles[i] != articles[j]
  {
    var threeYearsAgo := Cutoff(today);
    articles := [];
    for n := 0 to |entries|
      invariant var kept := KeptEntries(entries[..n], threeYearsAgo);
                && |articles| == |kept|
                && (forall i :: 0 <= i < |articles| ==> articles[i].Fields() == ArticleFor(feedUrl, kept[i], markupText, fontText))
      invariant forall i :: 0 <= i < |articles| ==> fresh(articles[i])
      invariant forall i, j :: 0 <= i < j < |articles| ==> articles[i] != articles[j]
    {
      var entry := entries[n];
      KeptEntriesStep(entries, n, threeYearsAgo);
      if entry.published.Some? && !IsBefore(entry.published.value, threeYearsAgo) {
        var article := NewArticle(feedUrl, entry, markupText, fontText);
        articles := articles + [article];
      }
    }
    assert entries[..|entries|] == entries;
  }
}
