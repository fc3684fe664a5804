/**
 * The insight cache (the cached_ai_insights collection behind
 * CachedAiInsightRepository): records keyed by URL, with the lookups the
 * pipeline uses. Storage failures are not modelled.
 */
module InsightStore {
  import opened Wrappers
  import opened Calendar
  import opened Model

  /** The keys of the records with exactly this title and published date (a null date matches a null date). */
  function TitleDateKeysOf(records: map<string, Insight>, title: string, date: Option<LocalDate>): (keys: set<string>)
    ensures forall k :: k in keys <==> k in records && records[k].title == title && records[k].publishedDate == date
  {
    set k | k in records && records[k].title == title && records[k].publishedDate == date
  }

  /** The answer of the (title, date) query on these records. */
  function TitleDatePresentIn(records: map<string, Insight>, title: string, date: Option<LocalDate>): (r: Result<bool>)
    ensures r.Err? <==> |TitleDateKeysOf(records, title, date)| > 1
    ensures r.Ok? ==> (r.value <==> exists k :: k in records && records[k].title == title && records[k].publishedDate == date)
  {
    var keys := TitleDateKeysOf(records, title, date);
    if |keys| > 1 then Err("IncorrectResultSizeDataAccessException")
    else if |keys| == 1 then
      assert exists k :: k in keys;
      Ok(true)
    else
      Ok(false)
  }

  class Store {
    var records: map<string, Insight>

    constructor ()
      ensures records == map[]
    {
      records := map[];
    }

    /** Every record sits under its own URL, the document id. */
    predicate Valid()
      reads this
    {
      forall k :: k in records ==> records[k].url == k
    }

    /** findByUrl / findById */
    function FindByUrl(url: string): (r: Option<Insight>)
      reads this
      ensures r.Some? <==> url in records
      ensures r.Some? ==> r.value == records[url]
    {
      if url in records then Some(records[url]) else None
    }

    /** The keys of the records with exactly this title and published date (a null date matches a null date). */
    function TitleDateKeys(title: string, date: Option<LocalDate>): (keys: set<string>)
      reads this
      ensures forall k :: k in keys <==> k in records && records[k].title == title && records[k].publishedDate == date
    {
      TitleDateKeysOf(records, title, date)
    }

    /**
     * findByTitleAndPublishedDate(...).isPresent(): a derived query returning
     * Optional fails when more than one document matches.
     */
    function TitleDatePresent(title: string, date: Option<LocalDate>): (r: Result<bool>)
      reads this
      ensures r.Err? <==> |TitleDateKeys(title, date)| > 1
      ensures r.Ok? ==> (r.value <==> exists k :: k in records && records[k].title == title && records[k].publishedDate == date)
    {
      TitleDatePresentIn(records, title, date)
    }

    /** save: insert, or replace the record with the same URL. */
    method Save(r: Insight)
      modifies this
      ensures records == old(records)[r.url := r]
      ensures old(Valid()) ==> Valid()
    {
      records := records[r.url := r];
    }
  }
}
