/**
 * The records the pipeline passes around: ArticleDTO (mutated in place by
 * enrichment, so a class), CachedAiInsight (a stored value), FestivalTrendDTO,
 * and the feed entries the feed parser produces. Java's nullable fields are
 * Options; dates are LocalDates.
 */
module Model {
  import opened Wrappers
  import opened Calendar

  /**
   * A Jackson JsonNode. It also stands for the plain Java value Jackson's
   * untyped conversion makes of a node: JString a String, JNull a null
   * element, the other cases a Number, Boolean, Map or List.
   */
  datatype Json =
    | JNull
    | JBool(b: bool)
    | JInt(n: int)
    | JDecimal(text: string)
    | JString(s: string)
    | JArray(items: seq<Json>)
    | JObject(fields: map<string, Json>)

  /** A String[] made from a list of strings (toArray): no element is null. */
  function ToArray(ts: seq<string>): (a: seq<Option<string>>)
  {
    seq(|ts|, i requires 0 <= i < |ts| => Some(ts[i]))
  }

  /** List.of(array): the list of the elements, or an NPE (None) when one of them is null. */
  function ListOf(a: seq<Option<string>>): (r: Option<seq<string>>)
    ensures r.Some? <==> forall i :: 0 <= i < |a| ==> a[i].Some?
    ensures r.Some? ==> ToArray(r.value) == a
  {
    if forall i :: 0 <= i < |a| ==> a[i].Some? then Some(seq(|a|, i requires 0 <= i < |a| => a[i].GetOr("")))
    else None
  }

  /** Converting a list to an array and back gives the list again. */
  lemma ListOfToArray(ts: seq<string>)
    ensures ListOf(ToArray(ts)) == Some(ts)
  {
    var a := ToArray(ts);
    assert forall i :: 0 <= i < |a| ==> a[i].Some?;
    assert ListOf(a).value == ts by {
      assert |ListOf(a).value| == |ts|;
      forall i | 0 <= i < |ts| ensures ListOf(a).value[i] == ts[i] {
        assert ToArray(ListOf(a).value)[i] == a[i];
      }
    }
  }

  /** A snapshot of every field of an ArticleDTO. */
  datatype ArticleFields = ArticleFields(
    title: string,
    url: string,
    source: Option<string>,
    summary: Option<string>,
    publishedDate: Option<LocalDate>,
    sentiment: Option<string>,
    themes: Option<seq<Option<string>>>,
    festivalLinked: bool,
    festivalName: Option<string>,
    tone: Option<string>,
    authorities: Option<seq<Json>>,
    location: Option<string>)

  /** The fields of a freshly constructed ArticleDTO once title and url are set. */
  function BlankArticle(title: string, url: string): ArticleFields {
    ArticleFields(title, url, None, None, None, None, None, false, None, None, None, None)
  }

  /** ArticleDTO */
  class Article {
    var title: string
    var url: string
    var source: Option<string>
    var summary: Option<string>
    var publishedDate: Option<LocalDate>
    var sentiment: Option<string>
    /** A String[], whose elements may be null. */
    var themes: Option<seq<Option<string>>>
    var festivalLinked: bool
    var festivalName: Option<string>
    var tone: Option<string>
    /** A raw List: its elements are whatever Jackson's untyped conversion produced. */
    var authorities: Option<seq<Json>>
    var location: Option<string>

    constructor (title: string, url: string)
      ensures Fields() == BlankArticle(title, url)
    {
      this.title := title;
      this.url := url;
      source := None;
      summary := None;
      publishedDate := None;
      sentiment := None;
      themes := None;
      festivalLinked := false;
      festivalName := None;
      tone := None;
      authorities := None;
      location := None;
    }

    function Fields(): ArticleFields
      reads this
    {
      ArticleFields(title, url, source, summary, publishedDate, sentiment, themes,
                    festivalLinked, festivalName, tone, authorities, location)
    }
  }

  /** CachedAiInsight; `url` is its key, `cachedAt` a clock reading passed in by the caller. */
  datatype Insight = Insight(
    url: string,
    title: string,
    summary: Option<string>,
    publishedDate: Option<LocalDate>,
    sentiment: Option<string>,
    themes: Option<seq<string>>,
    festivalLinked: bool,
    festivalName: Option<string>,
    tone: Option<string>,
    authorities: Option<seq<Json>>,
    location: Option<string>,
    cachedAt: int)

  /** The cached record the builder makes from an article's fields, with the given theme list. */
  function RecordOf(f: ArticleFields, themes: seq<string>, cachedAt: int): (r: Insight)
    ensures r.url == f.url && r.cachedAt == cachedAt
  {
    Insight(f.url, f.title, f.summary, f.publishedDate, f.sentiment, Some(themes),
            f.festivalLinked, f.festivalName, f.tone, f.authorities, f.location, cachedAt)
  }

  /** A record holds exactly the enrichment an article carries (everything but the source label). */
  predicate Describes(r: Insight, f: ArticleFields) {
    && r.url == f.url && r.title == f.title && r.summary == f.summary
    && r.publishedDate == f.publishedDate && r.sentiment == f.sentiment
    && r.themes.Some? && f.themes == Some(ToArray(r.themes.value))
    && r.festivalLinked == f.festivalLinked && r.festivalName == f.festivalName
    && r.tone == f.tone && r.authorities == f.authorities && r.location == f.location
  }

  /**
   * A record built from an article whose themes List.of accepts describes
   * that article, and it is the only such record with that timestamp.
   */
  lemma RecordOfDescribes(f: ArticleFields, cachedAt: int)
    requires f.themes.Some? && ListOf(f.themes.value).Some?
    ensures Describes(RecordOf(f, ListOf(f.themes.value).value, cachedAt), f)
    ensures forall r :: Describes(r, f) && r.cachedAt == cachedAt ==>
              r == RecordOf(f, ListOf(f.themes.value).value, cachedAt)
  {
    forall r | Describes(r, f) && r.cachedAt == cachedAt
      ensures r == RecordOf(f, ListOf(f.themes.value).value, cachedAt)
    {
      ListOfToArray(r.themes.value);
    }
  }

  /** FestivalTrendDTO */
  datatype FestivalTrend = FestivalTrend(event: string, positive: int, negative: int)

  /**
   * A feed entry as the feed parser hands it over: title, link, description
   * markup (absent when the entry has none) and the published instant already
   * converted to a local date (absent when the entry has none).
   */
  datatype FeedEntry = FeedEntry(title: string, link: string, description: Option<string>,
                                 published: Option<LocalDate>)
}
