/**
 * ArticleProcessorScheduler.fetchAndProcessArticles: the batch run over the
 * configured feeds. For each feed, its articles are taken in order. A run
 * stops at the total cap; a feed stops at its own cap. Each article is
 * normalized and checked against the cache. An article that is still unknown
 * is filtered by date. A recent article goes through the relevance gate. A
 * relevant article is enriched, written to the sheet and accepted.
 * The first failure ends the run, and what was accepted so far stays.
 *
 * Links are normalized by UrlUtils.Normalize, as the code does; that
 * normalize is not idempotent for an empty authority followed by a "//" path,
 * and no property here needs it to be.
 *
 * Each article's processing is stated as a function of the world it reads
 * and changes (ItemStep over a World), and the loops return the chain of
 * worlds between their steps.
 *
 * What each feed URL yields is given as `contents`: the entries of the parsed
 * feed or the exception of the transport or parser. The clock is `today` (the
 * three-year cutoff) and `now` (the cache timestamp).
 */
module Scheduler {
  import opened Wrappers
  import opened Calendar
  import opened Model
  import opened InsightStore
  import opened RssFeed
  import opened OpenAi
  import opened GoogleSheets
  import opened SheetBackend
  import UrlUtils

  /** What happened to one article of a feed. */
  datatype Verdict =
    | Known                       // already cached, by URL or by title and date
    | TooOld                      // published before the requested date
    | NotRelevant                 // the classifier said no
    | Accepted                    // enriched and written
    | Aborted(message: string)    // an exception: the run ends

  /** Where an accepted article came from: the feed's position and the article's position in it. */
  datatype Origin = Origin(feed: nat, item: nat)

  /**
   * What one article's processing reads and changes outside the article: the
   * cache's records, the classifier's replies still to come and the prompts it
   * received, the spreadsheet, the log of calls made to it, and the writer's
   * duplicate count.
   */
  datatype World = World(records: map<string, Insight>, replies: seq<Reply>, prompts: seq<Prompt>,
                         sheet: BackendState, log: seq<Call>, duplicates: int)

  /** The verdict on one article, the article's fields afterwards, and the world afterwards. */
  datatype Step = Step(verdict: Verdict, fields: ArticleFields, world: World)

  /**
   * enrichArticleWithInsights on an article the cache does not hold, then
   * appendArticle; the first exception gives the verdict.
   */
  function EnrichWriteStep(f: ArticleFields, now: int, w: World): Step {
    var e := MissPlan(f, w.records, w.replies, now);
    var w1 := w.(records := e.records, replies := e.script, prompts := w.prompts + e.prompts);
    if e.status.Failure? then Step(Aborted(e.status.error), e.fields, w1)
    else
      var a := AppendPlan(w1.sheet, e.fields);
      var w2 := w1.(sheet := a.effect.after, log := w1.log + a.effect.calls,
                     duplicates := w1.duplicates + if a.duplicate then 1 else 0);
      Step(if a.effect.status.Success? then Accepted else Aborted(a.effect.status.error), e.fields, w2)
  }

  /** The relevance call on an article the cache does not hold, then, on a yes, enrichment and the write. */
  function ClassifyStep(f: ArticleFields, now: int, w: World): Step {
    var w1 := w.(replies := RestOf(w.replies), prompts := w.prompts + [RelevancePrompt(f.title, f.summary)]);
    match Relevance(false, NextReply(w.replies))
    case Err(m) => Step(Aborted(m), f, w1)
    case Ok(relevant) => if relevant then EnrichWriteStep(f, now, w1) else Step(NotRelevant, f, w1)
  }

  /**
   * One pass of the inner loop on an article with these fields: the cache
   * check on the normalized URL, which the article then keeps, the date
   * filter, and the classifier.
   */
  function ItemStep(f: ArticleFields, fromDate: Option<LocalDate>, now: int, w: World): Step {
    var url := UrlUtils.Normalize(f.url);
    match ArticleExistsWithUrlOrTitle(w.records, url, f.title, f.publishedDate)
    case Err(m) => Step(Aborted(m), f, w)
    case Ok(known) =>
      if known then Step(Known, f, w)
      else if OlderThan(f.publishedDate, fromDate) then Step(TooOld, f.(url := url), w)
      else ClassifyStep(f.(url := url), now, w)
  }

  /**
   * What one article's processing does. A failing cache check aborts, and a
   * known article is left alone, both with the world as it was. Otherwise the
   * article takes its normalized URL, which the cache does not hold; an old
   * article stops there, and any other one costs a relevance call. An
   * irrelevant one, or a failed relevance call, stops with the cache and the
   * sheet as they were. A relevant one is accepted exactly when enrichment and
   * the sheet write both return normally; then the cache describes it under
   * its URL and the sheet holds its row or counted it as a duplicate. The
   * cache only ever gains the article's own key, and the sheet is touched
   * only after enrichment succeeded.
   */
  lemma ItemStepMeaning(f: ArticleFields, fromDate: Option<LocalDate>, now: int, w: World)
    ensures var s := ItemStep(f, fromDate, now, w);
            var url := UrlUtils.Normalize(f.url);
            var d := ArticleExistsWithUrlOrTitle(w.records, url, f.title, f.publishedDate);
            var g := f.(url := url);
            var rel := Relevance(false, NextReply(w.replies));
            var asked := w.(replies := RestOf(w.replies), prompts := w.prompts + [RelevancePrompt(f.title, f.summary)]);
            && Grows(w.records, s.world.records)
            && (forall k :: k in s.world.records ==> k in w.records || k == url)
            && (d.Err? ==> s == Step(Aborted(d.message), f, w))
            && (d == Ok(true) ==> s == Step(Known, f, w))
            && (d == Ok(false) ==> url !in w.records && s.fields.url == url)
            && (d == Ok(false) && OlderThan(f.publishedDate, fromDate) ==> s == Step(TooOld, g, w))
            && (d == Ok(false) && !OlderThan(f.publishedDate, fromDate) ==>
                  && (rel.Err? ==> s == Step(Aborted(rel.message), g, asked))
                  && (rel == Ok(false) ==> s == Step(NotRelevant, g, asked))
                  && (rel == Ok(true) && !EnrichSucceeds(g, asked.replies) ==>
                        && s.verdict.Aborted?
                        && s.world.sheet == w.sheet && s.world.log == w.log && s.world.duplicates == w.duplicates)
                  && (rel == Ok(true) && EnrichSucceeds(g, asked.replies) ==>
                        (s.verdict.Accepted? <==> AppendPlan(w.sheet, s.fields).effect.status.Success?)))
            && (s.verdict.Accepted? ==>
                  && d == Ok(false) && url !in w.records && s.fields.url == url
                  && url in s.world.records && Describes(s.world.records[url], s.fields)
                  && ArticleWritten(w.sheet.sheets, w.sheet.nextId, w.duplicates, s.fields,
                                    s.world.sheet.sheets, s.world.duplicates))
            && (s.verdict.Known? || s.verdict.TooOld? || s.verdict.NotRelevant? ==>
                  && s.world.records == w.records && s.world.sheet == w.sheet
                  && s.world.log == w.log && s.world.duplicates == w.duplicates)
  {
    var url := UrlUtils.Normalize(f.url);
    var d := ArticleExistsWithUrlOrTitle(w.records, url, f.title, f.publishedDate);
    ItemStepRecords(f, fromDate, now, w);
    ArticleExistsMeaning(w.records, url, f.title, f.publishedDate);
    if d == Ok(false) && !OlderThan(f.publishedDate, fromDate) {
      var g := f.(url := url);
      var asked := w.(replies := RestOf(w.replies), prompts := w.prompts + [RelevancePrompt(f.title, f.summary)]);
      assert ItemStep(f, fromDate, now, w) == ClassifyStep(g, now, w);
      ClassifyStepMeaning(g, now, w);
      EnrichWriteMeaning(g, now, asked);
    }
  }

  /**
   * The relevance call: a failure or a no stops there, with the call made;
   * a yes goes on to enrichment and the write.
   */
  lemma ClassifyStepMeaning(f: ArticleFields, now: int, w: World)
    ensures var s := ClassifyStep(f, now, w);
            var rel := Relevance(false, NextReply(w.replies));
            var asked := w.(replies := RestOf(w.replies), prompts := w.prompts + [RelevancePrompt(f.title, f.summary)]);
            && (rel.Err? ==> s == Step(Aborted(rel.message), f, asked))
            && (rel == Ok(false) ==> s == Step(NotRelevant, f, asked))
            && (rel == Ok(true) ==> s == EnrichWriteStep(f, now, asked))
  {
  }

  /**
   * Enrichment, then the write: a failed enrichment aborts before the sheet
   * is touched; after a successful one the article is accepted exactly when
   * the write returns normally, and then the cache describes it and the sheet
   * holds its row or counted it as a duplicate.
   */
  lemma EnrichWriteMeaning(f: ArticleFields, now: int, w: World)
    ensures var s := EnrichWriteStep(f, now, w);
            && (!EnrichSucceeds(f, w.replies) ==>
                  && s.verdict.Aborted?
                  && s.world.sheet == w.sheet && s.world.log == w.log && s.world.duplicates == w.duplicates)
            && (EnrichSucceeds(f, w.replies) ==>
                  (s.verdict.Accepted? <==> AppendPlan(w.sheet, s.fields).effect.status.Success?))
            && (s.verdict.Accepted? ==>
                  && f.url in s.world.records && Describes(s.world.records[f.url], s.fields) && s.fields.url == f.url
                  && ArticleWritten(w.sheet.sheets, w.sheet.nextId, w.duplicates, s.fields,
                                    s.world.sheet.sheets, s.world.duplicates))
  {
    var e := MissPlan(f, w.records, w.replies, now);
    if e.status.Success? {
      AppendPlanMeaning(w.sheet, e.fields, w.duplicates);
    }
  }

  /**
   * What enrichment and the write do to the cache: only the article's own key
   * can change, and on acceptance it holds a record describing the article,
   * which keeps its URL.
   */
  lemma EnrichWriteRecords(f: ArticleFields, now: int, w: World)
    ensures var s := EnrichWriteStep(f, now, w);
            && (forall k :: k in w.records && k != f.url ==> k in s.world.records && s.world.records[k] == w.records[k])
            && (s.verdict.Accepted? ==>
                  s.fields.url == f.url && f.url in s.world.records && Describes(s.world.records[f.url], s.fields))
  {
    var e := MissPlan(f, w.records, w.replies, now);
    if e.status.Success? {
      var w1 := w.(records := e.records, replies := e.script, prompts := w.prompts + e.prompts);
      assert EnrichWriteStep(f, now, w).world.records == w1.records;
    }
  }

  /** The relevance call and what follows it: as EnrichWriteRecords, since the call itself leaves the cache alone. */
  lemma ClassifyRecords(f: ArticleFields, now: int, w: World)
    ensures var s := ClassifyStep(f, now, w);
            && (forall k :: k in w.records && k != f.url ==> k in s.world.records && s.world.records[k] == w.records[k])
            && (s.verdict.Accepted? ==>
                  s.fields.url == f.url && f.url in s.world.records && Describes(s.world.records[f.url], s.fields))
  {
    if Relevance(false, NextReply(w.replies)) == Ok(true) {
      var w1 := w.(replies := RestOf(w.replies), prompts := w.prompts + [RelevancePrompt(f.title, f.summary)]);
      EnrichWriteRecords(f, now, w1);
      assert ClassifyStep(f, now, w) == EnrichWriteStep(f, now, w1);
    }
  }

  /**
   * What the inner loop's account of the cache needs from one step: the cache
   * only grows, and an accepted article carries its normalized URL, which was
   * new to the cache and now holds a record describing the article.
   */
  lemma ItemStepRecords(f: ArticleFields, fromDate: Option<LocalDate>, now: int, w: World)
    ensures var s := ItemStep(f, fromDate, now, w);
            && Grows(w.records, s.world.records)
            && (s.verdict.Accepted? ==>
                  && s.fields.url == UrlUtils.Normalize(f.url) && s.fields.url !in w.records
                  && s.fields.url in s.world.records && Describes(s.world.records[s.fields.url], s.fields))
  {
    var url := UrlUtils.Normalize(f.url);
    var d := ArticleExistsWithUrlOrTitle(w.records, url, f.title, f.publishedDate);
    if d == Ok(false) && !OlderThan(f.publishedDate, fromDate) {
      ArticleExistsMeaning(w.records, url, f.title, f.publishedDate);
      ClassifyRecords(f.(url := url), now, w);
      assert ItemStep(f, fromDate, now, w) == ClassifyStep(f.(url := url), now, w);
    }
  }

  /** ItemStep for a given date filter and clock, as a function of the article's fields and the world. */
  function ItemSteps(fromDate: Option<LocalDate>, now: int): (ArticleFields, World) -> Step {
    (f, w) => ItemStep(f, fromDate, now, w)
  }

  /**
   * The inner loop's account of the world: `worlds[k]` is the world before
   * the article at position k and `worlds[k + 1]` the one after it, each pass
   * as `step` says on the fields the article had when the loop began.
   */
  ghost predicate Stepped(initial: seq<ArticleFields>, step: (ArticleFields, World) -> Step,
                          verdicts: seq<Verdict>, worlds: seq<World>)
  {
    && |worlds| == |verdicts| + 1 && |verdicts| <= |initial|
    && forall k {:trigger StepHolds(initial, step, verdicts, worlds, k)} :: 0 <= k < |verdicts| ==>
         StepHolds(initial, step, verdicts, worlds, k)
  }

  /** The article at position k of the loop went from `worlds[k]` to `worlds[k + 1]` with verdict `verdicts[k]`. */
  ghost predicate StepHolds(initial: seq<ArticleFields>, step: (ArticleFields, World) -> Step,
                            verdicts: seq<Verdict>, worlds: seq<World>, k: nat)
  {
    && k < |verdicts| && k < |initial| && k + 1 < |worlds|
    && step(initial[k], worlds[k]).verdict == verdicts[k] && step(initial[k], worlds[k]).world == worlds[k + 1]
  }

  lemma SteppedAppend(initial: seq<ArticleFields>, step: (ArticleFields, World) -> Step,
                      verdicts: seq<Verdict>, worlds: seq<World>, v: Verdict, w: World)
    requires Stepped(initial, step, verdicts, worlds) && |verdicts| < |initial|
    requires step(initial[|verdicts|], worlds[|verdicts|]) == Step(v, step(initial[|verdicts|], worlds[|verdicts|]).fields, w)
    ensures Stepped(initial, step, verdicts + [v], worlds + [w])
  {
    var vs, ws := verdicts + [v], worlds + [w];
    forall k | 0 <= k < |vs|
      ensures StepHolds(initial, step, vs, ws, k)
    {
      assert ws[k] == worlds[k];
      if k < |verdicts| {
        assert StepHolds(initial, step, verdicts, worlds, k);
        assert vs[k] == verdicts[k] && ws[k + 1] == worlds[k + 1];
      }
    }
  }

  /**
   * The articles of a feed visited so far, entered with `start` articles
   * accepted by the run: `verdicts` are their outcomes in order and `items`
   * the positions of the Accepted ones. Only the last visited article can have failed,
   * and then `failure` is its exception; and no article was visited once a
   * cap was reached.
   */
  predicate FeedSoFar(verdicts: seq<Verdict>, items: seq<nat>, start: int, totalLimit: int, perFeedLimit: int,
                      failure: Option<string>)
  {
    && items == AcceptedAt(verdicts)
    && (forall i :: 0 <= i < |verdicts| && verdicts[i].Aborted? ==>
          i == |verdicts| - 1 && failure == Some(verdicts[i].message))
    && (failure.Some? ==> |verdicts| > 0 && verdicts[|verdicts| - 1] == Aborted(failure.value))
    && (|verdicts| > 0 ==>
          var accepted := |items| - (if verdicts[|verdicts| - 1].Accepted? then 1 else 0);
          start + accepted < totalLimit && accepted < perFeedLimit)
  }

  /** The positions of the Accepted verdicts, in order. */
  function AcceptedAt(verdicts: seq<Verdict>): seq<nat> {
    if verdicts == [] then []
    else AcceptedAt(verdicts[..|verdicts| - 1]) + (if verdicts[|verdicts| - 1].Accepted? then [|verdicts| - 1] else [])
  }

  lemma AcceptedAtAppend(verdicts: seq<Verdict>, v: Verdict)
    ensures AcceptedAt(verdicts + [v]) == AcceptedAt(verdicts) + (if v.Accepted? then [|verdicts|] else [])
  {
    assert (verdicts + [v])[..|verdicts|] == verdicts;
  }

  /** AcceptedAt lists exactly the Accepted positions, each once and in increasing order. */
  lemma {:induction false} AcceptedAtMeaning(verdicts: seq<Verdict>)
    ensures forall i :: 0 <= i < |verdicts| ==> (verdicts[i].Accepted? <==> i in AcceptedAt(verdicts))
    ensures forall k :: 0 <= k < |AcceptedAt(verdicts)| ==> AcceptedAt(verdicts)[k] < |verdicts|
    ensures forall k, l :: 0 <= k < l < |AcceptedAt(verdicts)| ==> AcceptedAt(verdicts)[k] < AcceptedAt(verdicts)[l]
  {
    if verdicts != [] {
      var front := verdicts[..|verdicts| - 1];
      AcceptedAtMeaning(front);
      assert verdicts == front + [verdicts[|verdicts| - 1]];
      AcceptedAtAppend(front, verdicts[|verdicts| - 1]);
      forall i | 0 <= i < |front|
        ensures verdicts[i].Accepted? <==> i in AcceptedAt(verdicts)
      {
        assert verdicts[i] == front[i];
      }
    }
  }

  /**
   * How the inner loop over a feed's `count` articles ended: it stopped when
   * the articles ran out, the total cap or the feed's cap was reached, or an
   * article failed.
   */
  predicate FeedRun(verdicts: seq<Verdict>, items: seq<nat>, count: nat, start: int, totalLimit: int,
                    perFeedLimit: int, failure: Option<string>)
  {
    && |verdicts| <= count
    && FeedSoFar(verdicts, items, start, totalLimit, perFeedLimit, failure)
    && (|verdicts| == count || start + |items| >= totalLimit || |items| >= perFeedLimit || failure.Some?)
  }

  /** One more article visited, past both caps and with no failure before it. */
  lemma FeedSoFarStep(seen: seq<Verdict>, before: seq<nat>, v: Verdict, items: seq<nat>,
                      start: int, totalLimit: int, perFeedLimit: int, failure: Option<string>)
    requires FeedSoFar(seen, before, start, totalLimit, perFeedLimit, None)
    requires start + |before| < totalLimit && |before| < perFeedLimit
    requires v.Aborted? ==> failure == Some(v.message) && items == before
    requires v.Accepted? ==> failure.None? && items == before + [|seen|]
    requires !v.Aborted? && !v.Accepted? ==> failure.None? && items == before
    ensures FeedSoFar(seen + [v], items, start, totalLimit, perFeedLimit, failure)
  {
    var vs := seen + [v];
    AcceptedAtAppend(seen, v);
    assert items == AcceptedAt(vs);
    forall i | 0 <= i < |seen|
      ensures !vs[i].Aborted?
    {
      assert vs[i] == seen[i];
    }
    assert |items| - (if vs[|vs| - 1].Accepted? then 1 else 0) == |before|;
  }

  /** The date filter: only a known date before a given fromDate drops an article. */
  predicate OlderThan(date: Option<LocalDate>, fromDate: Option<LocalDate>) {
    date.Some? && fromDate.Some? && IsBefore(date.value, fromDate.value)
  }

  /** Feed-then-item order. */
  predicate Precedes(a: Origin, b: Origin) {
    a.feed < b.feed || (a.feed == b.feed && a.item < b.item)
  }

  /** The number of origins in feed `f`. */
  function CountFeed(origins: seq<Origin>, f: nat): nat {
    if origins == [] then 0
    else CountFeed(origins[..|origins| - 1], f) + (if origins[|origins| - 1].feed == f then 1 else 0)
  }

  lemma {:induction false} CountFeedAppend(a: seq<Origin>, b: seq<Origin>, f: nat)
    ensures CountFeed(a + b, f) == CountFeed(a, f) + CountFeed(b, f)
  {
    if b == [] {
      assert a + b == a;
    } else {
      var c := a + b;
      assert c[..|c| - 1] == a + b[..|b| - 1];
      CountFeedAppend(a, b[..|b| - 1], f);
    }
  }

  /** Origins that all lie in feed `f` count fully there and nowhere else. */
  lemma {:induction false} CountFeedUniform(b: seq<Origin>, f: nat, g: nat)
    requires forall i :: 0 <= i < |b| ==> b[i].feed == f
    ensures CountFeed(b, g) == if g == f then |b| else 0
  {
    if b != [] {
      CountFeedUniform(b[..|b| - 1], f, g);
    }
  }

  /** No origin in feed `f`: none counted there. */
  lemma {:induction false} CountFeedAbsent(b: seq<Origin>, f: nat)
    requires forall i :: 0 <= i < |b| ==> b[i].feed != f
    ensures CountFeed(b, f) == 0
  {
    if b != [] {
      CountFeedAbsent(b[..|b| - 1], f);
    }
  }

  /** The origins of the articles a feed contributed, at the given positions. */
  function InFeed(f: nat, items: seq<nat>): (r: seq<Origin>)
    ensures |r| == |items| && forall i :: 0 <= i < |r| ==> r[i] == Origin(f, items[i])
  {
    seq(|items|, i requires 0 <= i < |items| => Origin(f, items[i]))
  }

  /** The later cache holds every record of the earlier one, unchanged. */
  predicate Grows(a: map<string, Insight>, b: map<string, Insight>) {
    forall k :: k in a ==> k in b && b[k] == a[k]
  }

  lemma GrowsTransitive(a: map<string, Insight>, b: map<string, Insight>, c: map<string, Insight>)
    requires Grows(a, b) && Grows(b, c)
    ensures Grows(a, c)
  {
  }

  /**
   * What the accepted articles of one feed satisfy: `snap[i]` came from entry
   * `items[i]` (in increasing order) and carries that entry's normalized link.
   * The URL was not cached before the run, and the cache now describes the
   * article under it, so no URL is accepted twice.
   */
  predicate Accounted(snap: seq<ArticleFields>, items: seq<nat>, kept: seq<FeedEntry>,
                      cache0: map<string, Insight>, records: map<string, Insight>)
  {
    && |snap| == |items|
    && (forall i, j :: 0 <= i < j < |items| ==> items[i] < items[j])
    && (forall i :: 0 <= i < |items| ==>
          items[i] < |kept| && snap[i].url == Links(kept)[items[i]])
    && Recorded(snap, cache0, records)
  }

  /** The normalized link of each entry, in order. */
  function Links(entries: seq<FeedEntry>): (r: seq<string>)
    ensures |r| == |entries|
  {
    if entries == [] then [] else [UrlUtils.Normalize(entries[0].link)] + Links(entries[1..])
  }

  lemma {:induction false} LinksAt(entries: seq<FeedEntry>, i: nat)
    requires i < |entries|
    ensures Links(entries)[i] == UrlUtils.Normalize(entries[i].link)
  {
    if i > 0 {
      LinksAt(entries[1..], i - 1);
    }
  }

  /** A step that accepts nothing keeps the account, as the cache only grows. */
  lemma AccountedGrows(snap: seq<ArticleFields>, items: seq<nat>, kept: seq<FeedEntry>,
                       cache0: map<string, Insight>, r1: map<string, Insight>, r2: map<string, Insight>)
    requires Accounted(snap, items, kept, cache0, r1) && Grows(r1, r2)
    ensures Accounted(snap, items, kept, cache0, r2)
  {
  }

  /** Accepting entry `n`, past every earlier one, under a URL the cache did not hold. */
  lemma AccountedAdd(snap: seq<ArticleFields>, items: seq<nat>, kept: seq<FeedEntry>,
                     cache0: map<string, Insight>, r1: map<string, Insight>, r2: map<string, Insight>,
                     f: ArticleFields, n: nat)
    requires Accounted(snap, items, kept, cache0, r1) && Grows(cache0, r1) && Grows(r1, r2)
    requires forall i :: 0 <= i < |items| ==> items[i] < n
    requires n < |kept| && f.url == UrlUtils.Normalize(kept[n].link)
    requires f.url !in r1 && f.url in r2 && Describes(r2[f.url], f)
    ensures Accounted(snap + [f], items + [n], kept, cache0, r2)
  {
    var s, it := snap + [f], items + [n];
    RecordsAdd(snap, cache0, r1, r2, [f]);
    LinksAt(kept, n);
    forall i | 0 <= i < |it|
      ensures it[i] < |kept| && s[i].url == Links(kept)[it[i]]
    {
      if i < |items| {
        assert it[i] == items[i] && s[i] == snap[i];
      }
    }
  }

  class ArticleProcessorScheduler {
    const store: Store
    const openAi: OpenAiService
    const sheets: GoogleSheetService
    /** feedConfig.getFeedUrls() */
    const feedUrls: seq<string>
    var processedArticles: seq<Article>

    constructor (store: Store, openAi: OpenAiService, sheets: GoogleSheetService, feedUrls: seq<string>)
      ensures this.store == store && this.openAi == openAi && this.sheets == sheets
      ensures this.feedUrls == feedUrls && processedArticles == []
    {
      this.store := store;
      this.openAi := openAi;
      this.sheets := sheets;
      this.feedUrls := feedUrls;
      processedArticles := [];
    }

    /** The dedup check and the enrichment use the same cache, and the sheet writer is well formed. */
    predicate Valid()
      reads this, openAi, sheets, sheets.backend
    {
      openAi.store == store && sheets.Valid()
    }

    /** The world one article's processing reads and changes. */
    function State(): World
      reads store, openAi.classifier, sheets, sheets.backend
    {
      World(store.records, openAi.classifier.script, openAi.classifier.prompts,
            sheets.backend.State(), sheets.backend.log, sheets.duplicateCount)
    }

    /** articleExistsInMongoWithUrlOrTitle on the normalized URL of the article. */
    function DedupCheck(article: Article): Result<bool>
      reads store, article
    {
      ArticleExistsWithUrlOrTitle(store.records, UrlUtils.Normalize(article.url), article.title, article.publishedDate)
    }

    /**
     * The checks before the classifier. A known article, or a failing check,
     * is left as it was. Otherwise the URL is replaced by its normalized form,
     * which the cache then does not hold. The date filter decides whether the
     * article goes on (None).
     */
    method Screen(article: Article, fromDate: Option<LocalDate>) returns (v: Option<Verdict>)
      modifies article
      ensures old(DedupCheck(article)).Err? ==>
                v == Some(Aborted(old(DedupCheck(article)).message)) && article.Fields() == old(article.Fields())
      ensures old(DedupCheck(article)) == Ok(true) ==> v == Some(Known) && article.Fields() == old(article.Fields())
      ensures old(DedupCheck(article)) == Ok(false) ==>
                && article.Fields() == old(article.Fields()).(url := UrlUtils.Normalize(old(article.url)))
                && article.url !in store.records
                && (OlderThan(article.publishedDate, fromDate) ==> v == Some(TooOld))
                && (!OlderThan(article.publishedDate, fromDate) ==> v == None)
    {
      var normalizedUrl := UrlUtils.Normalize(article.url);
      var alreadyExists := ArticleExistsWithUrlOrTitle(store.records, normalizedUrl, article.title, article.publishedDate);
      if alreadyExists.Err? {
        return Some(Aborted(alreadyExists.message));
      }
      if alreadyExists.value {
        return Some(Known);
      }
      article.url := normalizedUrl;
      if article.publishedDate.Some? && fromDate.Some? && IsBefore(article.publishedDate.value, fromDate.value) {
        return Some(TooOld);
      }
      return None;
    }

    /**
     * The body of the inner loop for one article: the checks, then the
     * classifier, as ItemStep says on the article's fields and the world.
     */
    method ProcessItem(article: Article, fromDate: Option<LocalDate>, now: int) returns (v: Verdict)
      requires Valid()
      modifies article, store, openAi.classifier, sheets, sheets.backend
      ensures Valid()
      ensures var s := ItemStep(old(article.Fields()), fromDate, now, old(State()));
              v == s.verdict && article.Fields() == s.fields && State() == s.world
    {
      ghost var f := article.Fields();
      ArticleExistsMeaning(store.records, UrlUtils.Normalize(f.url), f.title, f.publishedDate);
      var screened := Screen(article, fromDate);
      if screened.Some? {
        return screened.value;
      }
      v := Classify(article, now);
    }

    /** The relevance gate for an article the cache does not hold, then enrichment and the write. */
    method Classify(article: Article, now: int) returns (v: Verdict)
      requires Valid() && article.url !in store.records
      modifies article, store, openAi.classifier, sheets, sheets.backend
      ensures Valid()
      ensures var s := ClassifyStep(old(article.Fields()), now, old(State()));
              v == s.verdict && article.Fields() == s.fields && State() == s.world
    {
      var relevant := openAi.IsAnimalWelfareRelevant(article);
      if relevant.Err? {
        return Aborted(relevant.message);
      }
      if !relevant.value {
        return NotRelevant;
      }
      v := EnrichAndWrite(article, now);
    }

    /** enrichArticleWithInsights, then appendArticle: accepted exactly when both return normally. */
    method EnrichAndWrite(article: Article, now: int) returns (v: Verdict)
      requires Valid() && article.url !in store.records
      modifies article, store, openAi.classifier, sheets, sheets.backend
      ensures Valid()
      ensures var s := EnrichWriteStep(old(article.Fields()), now, old(State()));
              v == s.verdict && article.Fields() == s.fields && State() == s.world
    {
      ghost var w0, f := State(), article.Fields();
      ghost var e := MissPlan(f, w0.records, w0.replies, now);
      var insight := openAi.EnrichArticleWithInsights(article, now);
      assert State() == w0.(records := e.records, replies := e.script, prompts := w0.prompts + e.prompts);
      if insight.Failure? {
        return Aborted(insight.error);
      }
      var appended := sheets.AppendArticle(article);
      if appended.Failure? {
        return Aborted(appended.error);
      }
      return Accepted;
    }

    /**
     * The inner loop's step at position `n`: process the article there and
     * carry the feed's account over. Only that article changes, so the ones
     * still to come keep their links and the ones added keep their fields.
     */
    method ProcessAt(articles: seq<Article>, ghost kept: seq<FeedEntry>, n: nat,
                     ghost added: seq<Article>, ghost items: seq<nat>, ghost snap: seq<ArticleFields>,
                     ghost cache0: map<string, Insight>, fromDate: Option<LocalDate>, now: int)
      returns (v: Verdict)
      requires Valid() && n < |articles| == |kept|
      requires forall i, j :: 0 <= i < j < |articles| ==> articles[i] != articles[j]
      requires forall k :: n <= k < |articles| ==> articles[k].url == kept[k].link
      requires |added| == |items| == |snap| && forall i :: 0 <= i < |items| ==> items[i] < n
      requires forall i :: 0 <= i < |added| ==> added[i] == articles[items[i]] && added[i].Fields() == snap[i]
      requires Grows(cache0, store.records) && Accounted(snap, items, kept, cache0, store.records)
      modifies articles[n], store, openAi.classifier, sheets, sheets.backend
      ensures Valid() && Grows(cache0, store.records)
      ensures forall k :: n < k < |articles| ==> articles[k].Fields() == old(articles[k].Fields())
      ensures forall i :: 0 <= i < |added| ==> added[i].Fields() == snap[i]
      ensures v.Accepted? ==> Accounted(snap + [articles[n].Fields()], items + [n], kept, cache0, store.records)
      ensures !v.Accepted? ==> Accounted(snap, items, kept, cache0, store.records)
      ensures var s := ItemStep(old(articles[n].Fields()), fromDate, now, old(State()));
              v == s.verdict && articles[n].Fields() == s.fields && State() == s.world
    {
      var article := articles[n];
      assert forall i :: 0 <= i < |added| ==> added[i] != article;
      assert forall k :: n < k < |articles| ==> articles[k] != article;
      ghost var cache := store.records;
      ghost var f, w := article.Fields(), State();
      v := ProcessItem(article, fromDate, now);
      ItemStepRecords(f, fromDate, now, w);
      assert forall k :: n < k < |articles| ==> unchanged(articles[k]);
      assert forall i :: 0 <= i < |added| ==> unchanged(added[i]);
      GrowsTransitive(cache0, cache, store.records);
      if v.Accepted? {
        AccountedAdd(snap, items, kept, cache0, cache, store.records, article.Fields(), n);
      } else {
        AccountedGrows(snap, items, kept, cache0, cache, store.records);
      }
    }

    /**
     * ProcessAt, and the article added to the feed's account when it is
     * accepted: the ones still to come keep the fields they had when the
     * loop began (`initial`).
     */
    method StepAt(articles: seq<Article>, ghost kept: seq<FeedEntry>, ghost initial: seq<ArticleFields>, n: nat,
                     added: seq<Article>, ghost items: seq<nat>, ghost snap: seq<ArticleFields>,
                     ghost cache0: map<string, Insight>, fromDate: Option<LocalDate>, now: int,
                     ghost step: (ArticleFields, World) -> Step)
      returns (v: Verdict, added': seq<Article>, ghost items': seq<nat>, ghost snap': seq<ArticleFields>)
      requires Valid() && n < |articles| == |kept| == |initial|
      requires forall i, j :: 0 <= i < j < |articles| ==> articles[i] != articles[j]
      requires forall k :: 0 <= k < |articles| ==> initial[k].url == kept[k].link
      requires forall k :: n <= k < |articles| ==> articles[k].Fields() == initial[k]
      requires |added| == |items| == |snap| && forall i :: 0 <= i < |items| ==> items[i] < n
      requires forall i :: 0 <= i < |added| ==> added[i] == articles[items[i]] && added[i].Fields() == snap[i]
      requires Grows(cache0, store.records) && Accounted(snap, items, kept, cache0, store.records)
      modifies articles[n], store, openAi.classifier, sheets, sheets.backend
      ensures Valid() && Grows(cache0, store.records)
      ensures forall k :: n + 1 <= k < |articles| ==> articles[k].Fields() == initial[k]
      ensures v.Accepted? ==> added' == added + [articles[n]] && items' == items + [n]
      ensures !v.Accepted? ==> added' == added && items' == items && snap' == snap
      ensures |added'| == |items'| == |snap'| && forall i :: 0 <= i < |items'| ==> items'[i] < n + 1
      ensures forall i :: 0 <= i < |added'| ==> added'[i] == articles[items'[i]] && added'[i].Fields() == snap'[i]
      ensures Accounted(snap', items', kept, cache0, store.records)
      requires step == ItemSteps(fromDate, now)
      ensures step(initial[n], old(State())).verdict == v && step(initial[n], old(State())).world == State()
    {
      assert step(initial[n], old(State())) == ItemStep(initial[n], fromDate, now, old(State()));
      v := ProcessAt(articles, kept, n, added, items, snap, cache0, fromDate, now);
      if v.Accepted? {
        added', items', snap' := added + [articles[n]], items + [n], snap + [articles[n].Fields()];
      } else {
        added', items', snap' := added, items, snap;
      }
    }

    /**
     * The inner loop over one feed's articles, from a running total below the
     * total cap: it stops at either cap or at the first failure. `kept` are
     * the feed entries the articles were built from; `snap` are the fields
     * of the accepted articles, which no later step changes. `step` is
     * ItemStep on the date filter and the clock, named once for the loop.
     */
    method ProcessFeed(articles: seq<Article>, ghost kept: seq<FeedEntry>, ghost initial: seq<ArticleFields>,
                       totalProcessed: int, totalLimit: int, perFeedLimit: int,
                       fromDate: Option<LocalDate>, now: int, ghost step: (ArticleFields, World) -> Step)
      returns (total: int, added: seq<Article>, ghost items: seq<nat>, ghost snap: seq<ArticleFields>,
               failure: Option<string>, ghost verdicts: seq<Verdict>, ghost worlds: seq<World>)
      requires Valid() && totalProcessed < totalLimit
      requires |kept| == |articles| && forall k :: 0 <= k < |articles| ==> articles[k].url == kept[k].link
      requires |initial| == |articles| && forall k :: 0 <= k < |articles| ==> articles[k].Fields() == initial[k]
      requires forall i, j :: 0 <= i < j < |articles| ==> articles[i] != articles[j]
      requires step == ItemSteps(fromDate, now)
      modifies articles, store, openAi.classifier, sheets, sheets.backend
      ensures Valid()
      ensures total == totalProcessed + |added| <= totalLimit && |added| <= Max(0, perFeedLimit)
      ensures |added| == |items| && Grows(old(store.records), store.records)
      ensures Accounted(snap, items, kept, old(store.records), store.records)
      ensures forall i :: 0 <= i < |added| ==> items[i] < |articles| && added[i] == articles[items[i]]
      ensures forall i :: 0 <= i < |added| ==> added[i].Fields() == snap[i]
      ensures FeedRun(verdicts, items, |articles|, totalProcessed, totalLimit, perFeedLimit, failure)
      ensures forall k :: |verdicts| <= k < |articles| ==> articles[k].Fields() == old(articles[k].Fields())
      ensures Stepped(initial, step, verdicts, worlds) && worlds[0] == old(State()) && worlds[|verdicts|] == State()
    {
      total := totalProcessed;
      added, items, snap, failure, verdicts, worlds := [], [], [], None, [], [State()];
      ghost var cache0 := store.records;
      var perFeedProcessed := 0;
      var n: nat := 0;
      while n < |articles| && total < totalLimit && perFeedProcessed < perFeedLimit && failure.None?
        invariant 0 <= n <= |articles|
        invariant Valid()
        invariant perFeedProcessed == |added| == |items| && total == totalProcessed + |added| <= totalLimit
        invariant |added| <= Max(0, perFeedLimit)
        invariant Grows(cache0, store.records) && Accounted(snap, items, kept, cache0, store.records)
        invariant forall i :: 0 <= i < |items| ==> items[i] < n
        invariant forall i :: 0 <= i < |added| ==> added[i] == articles[items[i]] && added[i].Fields() == snap[i]
        invariant forall k :: n <= k < |articles| ==> articles[k].Fields() == initial[k]
        invariant n == |verdicts| && FeedSoFar(verdicts, items, totalProcessed, totalLimit, perFeedLimit, failure)
        invariant Stepped(initial, step, verdicts, worlds) && worlds[0] == old(State()) && worlds[n] == State()
      {
        ghost var seen, before := verdicts, items;
        var v;
        v, added, items, snap := StepAt(articles, kept, initial, n, added, items, snap, cache0, fromDate, now, step);
        if v.Aborted? {
          failure := Some(v.message);
        } else if v.Accepted? {
          total := total + 1;
          perFeedProcessed := perFeedProcessed + 1;
        }
        SteppedAppend(initial, step, seen, worlds, v, State());
        worlds := worlds + [State()];
        verdicts := seen + [v];
        FeedSoFarStep(seen, before, v, items, totalProcessed, totalLimit, perFeedLimit, failure);
        n := n + 1;
      }
    }

    /**
     * One pass of the outer loop over a feed that was fetched: build its
     * articles and run the inner loop over them. The only articles touched are
     * the ones built here.
     */
    method VisitFeed(f: nat, totalProcessed: int, totalLimit: int, perFeedLimit: int, fromDate: Option<LocalDate>,
                     contents: seq<Result<seq<FeedEntry>>>, today: LocalDate,
                     markupText: string -> string, fontText: string -> string, now: int,
                     accepted: seq<Article>, ghost snaps: seq<ArticleFields>)
      returns (total: int, added: seq<Article>, ghost items: seq<nat>, ghost snap: seq<ArticleFields>,
               failure: Option<string>, ghost verdicts: seq<Verdict>, ghost worlds: seq<World>)
      requires Valid() && f < |feedUrls| == |contents| && contents[f].Ok? && totalProcessed < totalLimit
      requires Snapshots(accepted, snaps)
      modifies store, openAi.classifier, sheets, sheets.backend
      ensures Valid() && Grows(old(store.records), store.records)
      ensures FeedRun(verdicts, items, |KeptOf(contents, today, f)|, totalProcessed, totalLimit, perFeedLimit, failure)
      ensures Accounted(snap, items, KeptOf(contents, today, f), old(store.records), store.records)
      ensures total == totalProcessed + |added| <= totalLimit && |added| <= Max(0, perFeedLimit)
      ensures |added| == |items| == |snap|
      ensures (forall a :: a in added ==> fresh(a)) && Snapshots(accepted + added, snaps + snap)
      ensures Stepped(FeedFields(feedUrls[f], KeptOf(contents, today, f), markupText, fontText),
                      ItemSteps(fromDate, now), verdicts, worlds)
      ensures worlds[0] == old(State()) && worlds[|verdicts|] == State()
    {
      var feedUrl := feedUrls[f];
      var entries := contents[f].value;
      ghost var kept := KeptEntries(entries, Cutoff(today));
      var articles := FetchArticles(feedUrl, entries, today, markupText, fontText);
      ghost var initial := FeedFields(feedUrl, kept, markupText, fontText);
      total, added, items, snap, failure, verdicts, worlds :=
        ProcessFeed(articles, kept, initial, totalProcessed, totalLimit, perFeedLimit, fromDate, now, ItemSteps(fromDate, now));
      SnapshotsAppend(accepted, added, snaps, snap);
    }

    /**
     * VisitFeed, with the feed's account joined to the run's so far: the
     * articles accepted before it, where they came from, and the verdicts of
     * the feeds before it.
     */
    method NextFeed(f: nat, totalLimit: int, perFeedLimit: int, fromDate: Option<LocalDate>,
                    contents: seq<Result<seq<FeedEntry>>>, today: LocalDate,
                    markupText: string -> string, fontText: string -> string, now: int,
                    accepted: seq<Article>, ghost origins: seq<Origin>, ghost snaps: seq<ArticleFields>,
                    ghost cache0: map<string, Insight>, ghost visited: seq<seq<Verdict>>,
                    ghost start: World, ghost chains: seq<seq<World>>)
      returns (total: int, run: seq<Article>, ghost runOrigins: seq<Origin>, ghost runSnaps: seq<ArticleFields>,
               failure: Option<string>, ghost runVerdicts: seq<seq<Verdict>>, ghost runChains: seq<seq<World>>)
      requires Valid() && f < |feedUrls| == |contents| && |accepted| < totalLimit && |accepted| == |origins|
      requires Grows(cache0, store.records) && RunSoFar(origins, snaps, f, perFeedLimit, contents, today, cache0, store.records)
      requires Snapshots(accepted, snaps)
      requires f == |visited| && FeedsVisited(visited, origins, |accepted|, None, contents, today, totalLimit, perFeedLimit)
      requires RunStepped(visited, chains, start, State(), feedUrls, contents, today, markupText, fontText, ItemSteps(fromDate, now))
      modifies store, openAi.classifier, sheets, sheets.backend
      ensures Valid() && Grows(cache0, store.records)
      ensures total == |run| == |runOrigins| <= Max(0, totalLimit)
      ensures RunSoFar(runOrigins, runSnaps, |runVerdicts|, perFeedLimit, contents, today, cache0, store.records)
      ensures Snapshots(run, runSnaps)
      ensures FeedsVisited(runVerdicts, runOrigins, |run|, failure, contents, today, totalLimit, perFeedLimit)
      ensures contents[f].Err? ==> failure == Some(contents[f].message) && |runVerdicts| == f
      ensures contents[f].Ok? ==> |runVerdicts| == f + 1
      ensures RunStepped(runVerdicts, runChains, start, State(), feedUrls, contents, today, markupText, fontText,
                         ItemSteps(fromDate, now))
    {
      if contents[f].Err? {
        FeedsVisitedFetchFailed(visited, origins, |accepted|, contents, today, totalLimit, perFeedLimit);
        return |accepted|, accepted, origins, snaps, Some(contents[f].message), visited, chains;
      }
      ghost var cache, mid := store.records, State();
      var added;
      ghost var items, snap, verdicts, worlds;
      total, added, items, snap, failure, verdicts, worlds :=
        VisitFeed(f, |accepted|, totalLimit, perFeedLimit, fromDate, contents, today, markupText, fontText, now,
                  accepted, snaps);
      GrowsTransitive(cache0, cache, store.records);
      run, runOrigins, runSnaps, runVerdicts := accepted + added, origins + InFeed(f, items), snaps + snap, visited + [verdicts];
      runChains := chains + [worlds];
      RunSteppedAppend(visited, chains, start, mid, State(), feedUrls, contents, today, markupText, fontText,
                       ItemSteps(fromDate, now), verdicts, worlds);
      RunSoFarAdd(origins, snaps, f, perFeedLimit, contents, today, cache0, cache, store.records, items, snap,
                  runOrigins, runSnaps, |runVerdicts|);
      FeedsVisitedStep(visited, origins, |accepted|, contents, today, totalLimit, perFeedLimit, verdicts, items, failure,
                       runVerdicts, runOrigins, |run|);
    }

    /**
     * fetchAndProcessArticles. `accepted` are the articles the run adds to
     * processedArticles, `origins` where each came from, `failure` the exception
     * that ended the run early, if one did. Nothing reads processedArticles
     * during a run, so the accepted articles are added to it at the end.
     */
    method FetchAndProcessArticles(totalLimit: int, perFeedLimit: int, fromDate: Option<LocalDate>,
                                   contents: seq<Result<seq<FeedEntry>>>, today: LocalDate,
                                   markupText: string -> string, fontText: string -> string, now: int)
      returns (accepted: seq<Article>, ghost origins: seq<Origin>, ghost failure: Option<string>,
               ghost verdicts: seq<seq<Verdict>>, ghost worlds: seq<seq<World>>)
      requires Valid() && |contents| == |feedUrls|
      modifies this, store, openAi.classifier, sheets, sheets.backend
      ensures Valid()
      ensures processedArticles == old(processedArticles) + accepted
      ensures |accepted| == |origins| <= Max(0, totalLimit)
      ensures forall f :: CountFeed(origins, f) <= Max(0, perFeedLimit)
      ensures Chained(origins)
      ensures forall i :: 0 <= i < |origins| ==>
                && origins[i].feed < |contents| && contents[origins[i].feed].Ok?
                && origins[i].item < |KeptOf(contents, today, origins[i].feed)|
                && accepted[i].url == UrlUtils.Normalize(KeptOf(contents, today, origins[i].feed)[origins[i].item].link)
      ensures forall i :: 0 <= i < |accepted| ==>
                && accepted[i].url !in old(store.records) && accepted[i].url in store.records
                && Describes(store.records[accepted[i].url], accepted[i].Fields())
      ensures forall i, j :: 0 <= i < j < |accepted| ==> accepted[i].url != accepted[j].url
      ensures FeedsVisited(verdicts, origins, |accepted|, failure, contents, today, totalLimit, perFeedLimit)
      ensures |verdicts| == |feedUrls| || |accepted| >= totalLimit || failure.Some?
      ensures failure.None? && |accepted| < totalLimit ==>
                && |verdicts| == |feedUrls|
                && forall f :: 0 <= f < |feedUrls| ==>
                     && contents[f].Ok?
                     && (|verdicts[f]| == |KeptOf(contents, today, f)| || CountFeed(origins, f) >= perFeedLimit)
      ensures RunStepped(verdicts, worlds, old(State()), State(), feedUrls, contents, today, markupText, fontText,
                         ItemSteps(fromDate, now))
    {
      ghost var cache0 := store.records;
      ghost var snaps;
      accepted, origins, snaps, failure, verdicts, worlds :=
        RunFeeds(totalLimit, perFeedLimit, fromDate, contents, today, markupText, fontText, now);
      ghost var w := State();
      processedArticles := processedArticles + accepted;
      assert State() == w;
      RunConclusion(accepted, snaps, origins, contents, today, cache0, store.records);
      FeedsVisitedComplete(verdicts, origins, |accepted|, failure, contents, today, totalLimit, perFeedLimit);
    }

    /** The loop over the configured feeds, up to the first failure or the total cap. */
    method RunFeeds(totalLimit: int, perFeedLimit: int, fromDate: Option<LocalDate>,
                    contents: seq<Result<seq<FeedEntry>>>, today: LocalDate,
                    markupText: string -> string, fontText: string -> string, now: int)
      returns (accepted: seq<Article>, ghost origins: seq<Origin>, ghost snaps: seq<ArticleFields>,
               failure: Option<string>, ghost verdicts: seq<seq<Verdict>>, ghost worlds: seq<seq<World>>)
      requires Valid() && |contents| == |feedUrls|
      modifies store, openAi.classifier, sheets, sheets.backend
      ensures Valid()
      ensures |accepted| == |origins| <= Max(0, totalLimit)
      ensures RunResult(origins, snaps, perFeedLimit, contents, today, old(store.records), store.records)
      ensures Snapshots(accepted, snaps)
      ensures FeedsVisited(verdicts, origins, |accepted|, failure, contents, today, totalLimit, perFeedLimit)
      ensures |verdicts| == |feedUrls| || |accepted| >= totalLimit || failure.Some?
      ensures RunStepped(verdicts, worlds, old(State()), State(), feedUrls, contents, today, markupText, fontText,
                         ItemSteps(fromDate, now))
    {
      accepted, origins, snaps, failure, verdicts, worlds := [], [], [], None, [], [];
      ghost var cache0 := store.records;
      var totalProcessed := 0;
      var f := 0;
      while f < |feedUrls| && totalProcessed < totalLimit && failure.None?
        invariant 0 <= f <= |feedUrls|
        invariant Valid()
        invariant totalProcessed == |accepted| == |origins| <= Max(0, totalLimit)
        invariant Grows(cache0, store.records)
        invariant RunSoFar(origins, snaps, f, perFeedLimit, contents, today, cache0, store.records)
        invariant Snapshots(accepted, snaps)
        invariant f == |verdicts| && FeedsVisited(verdicts, origins, |accepted|, failure, contents, today, totalLimit, perFeedLimit)
        invariant RunStepped(verdicts, worlds, old(State()), State(), feedUrls, contents, today, markupText, fontText,
                             ItemSteps(fromDate, now))
        decreases |feedUrls| - f, failure.None?
      {
        var total, run, stopped;
        ghost var runOrigins, runSnaps, runVerdicts, runChains;
        total, run, runOrigins, runSnaps, stopped, runVerdicts, runChains :=
          NextFeed(f, totalLimit, perFeedLimit, fromDate, contents, today, markupText, fontText, now,
                   accepted, origins, snaps, cache0, verdicts, old(State()), worlds);
        accepted, origins, snaps, verdicts, worlds := run, runOrigins, runSnaps, runVerdicts, runChains;
        totalProcessed := total;
        failure := stopped;
        if contents[f].Ok? {
          f := f + 1;
        }
      }
    }
  }

  /** The fields of the articles built from a feed's kept entries, in order. */
  function FeedFields(feedUrl: string, kept: seq<FeedEntry>, markupText: string -> string,
                      fontText: string -> string): (r: seq<ArticleFields>)
    ensures |r| == |kept| && forall i :: 0 <= i < |kept| ==> r[i] == ArticleFor(feedUrl, kept[i], markupText, fontText)
  {
    seq(|kept|, i requires 0 <= i < |kept| => ArticleFor(feedUrl, kept[i], markupText, fontText))
  }

  /**
   * The run's account of the world: `worlds[g]` is the inner loop's account
   * of visited feed `g` (see Stepped), on the articles built from that feed's
   * kept entries. Each starts from the world the feed before it left, the
   * first from `start`, and the last ends in `end`; a failed fetch changes
   * nothing.
   */
  ghost predicate RunStepped(verdicts: seq<seq<Verdict>>, worlds: seq<seq<World>>, start: World, end: World,
                             feedUrls: seq<string>, contents: seq<Result<seq<FeedEntry>>>, today: LocalDate,
                             markupText: string -> string, fontText: string -> string,
                             step: (ArticleFields, World) -> Step)
  {
    && |worlds| == |verdicts| <= |contents| <= |feedUrls|
    && (forall g {:trigger FeedStepped(verdicts, worlds, start, feedUrls, contents, today, markupText, fontText, step, g)} ::
          0 <= g < |verdicts| ==> FeedStepped(verdicts, worlds, start, feedUrls, contents, today, markupText, fontText, step, g))
    && (verdicts == [] ==> end == start)
    && (verdicts != [] ==> FeedEnds(verdicts, worlds, |verdicts| - 1, end))
  }

  /** Visited feed `g` was fetched, and its inner loop ran from the world the feed before it left, or from `start`. */
  ghost predicate FeedStepped(verdicts: seq<seq<Verdict>>, worlds: seq<seq<World>>, start: World,
                              feedUrls: seq<string>, contents: seq<Result<seq<FeedEntry>>>, today: LocalDate,
                              markupText: string -> string, fontText: string -> string,
                              step: (ArticleFields, World) -> Step, g: nat)
  {
    && g < |verdicts| && g < |worlds| && g < |contents| && g < |feedUrls|
    && contents[g].Ok?
    && Stepped(FeedFields(feedUrls[g], KeptOf(contents, today, g), markupText, fontText), step, verdicts[g], worlds[g])
    && (if g == 0 then worlds[g][0] == start else FeedEnds(verdicts, worlds, g - 1, worlds[g][0]))
  }

  /** The inner loop over visited feed `g` left the world `w`. */
  ghost predicate FeedEnds(verdicts: seq<seq<Verdict>>, worlds: seq<seq<World>>, g: nat, w: World) {
    g < |verdicts| && g < |worlds| && |worlds[g]| == |verdicts[g]| + 1 && worlds[g][|verdicts[g]|] == w
  }

  lemma RunSteppedAppend(verdicts: seq<seq<Verdict>>, worlds: seq<seq<World>>, start: World, mid: World, end: World,
                         feedUrls: seq<string>, contents: seq<Result<seq<FeedEntry>>>, today: LocalDate,
                         markupText: string -> string, fontText: string -> string,
                         step: (ArticleFields, World) -> Step, feed: seq<Verdict>, chain: seq<World>)
    requires RunStepped(verdicts, worlds, start, mid, feedUrls, contents, today, markupText, fontText, step)
    requires |verdicts| < |contents| && contents[|verdicts|].Ok?
    requires Stepped(FeedFields(feedUrls[|verdicts|], KeptOf(contents, today, |verdicts|), markupText, fontText),
                     step, feed, chain)
    requires chain[0] == mid && chain[|feed|] == end
    ensures RunStepped(verdicts + [feed], worlds + [chain], start, end, feedUrls, contents, today, markupText, fontText,
                       step)
  {
    var vs, ws := verdicts + [feed], worlds + [chain];
    forall g | 0 <= g < |vs|
      ensures FeedStepped(vs, ws, start, feedUrls, contents, today, markupText, fontText, step, g)
    {
      if g < |verdicts| {
        assert FeedStepped(verdicts, worlds, start, feedUrls, contents, today, markupText, fontText, step, g);
        assert vs[g] == verdicts[g] && ws[g] == worlds[g];
        if g > 0 {
          assert FeedEnds(verdicts, worlds, g - 1, worlds[g][0]);
          assert vs[g - 1] == verdicts[g - 1] && ws[g - 1] == worlds[g - 1];
        }
      } else if g > 0 {
        assert FeedEnds(verdicts, worlds, g - 1, mid);
        assert vs[g - 1] == verdicts[g - 1] && ws[g - 1] == worlds[g - 1];
      }
    }
    assert FeedEnds(vs, ws, |vs| - 1, end);
  }

  /**
   * How far a run got over the feeds: `verdicts[g]` are the outcomes of the
   * articles visited in feed `g`, every visited feed was fetched, and the
   * accepted articles are exactly those whose verdict is Accepted. Only the
   * last visited article of the last visited feed can have failed; the run's
   * failure is that exception or the one of fetching the next feed. A feed
   * the run left for the next one ran out of articles or reached its own
   * cap, and no feed was visited once the total cap was reached.
   */
  predicate FeedsVisited(verdicts: seq<seq<Verdict>>, origins: seq<Origin>, total: int, failure: Option<string>,
                         contents: seq<Result<seq<FeedEntry>>>, today: LocalDate, totalLimit: int, perFeedLimit: int)
  {
    && FeedsFetched(verdicts, origins, contents, today)
    && AcceptedAre(verdicts, origins)
    && FailedLast(verdicts, failure, contents)
    && StoppedAtCaps(verdicts, origins, total, failure, contents, today, totalLimit, perFeedLimit)
  }

  /** Every visited feed was fetched, its articles visited in part or in full, and every origin is in one. */
  predicate FeedsFetched(verdicts: seq<seq<Verdict>>, origins: seq<Origin>, contents: seq<Result<seq<FeedEntry>>>,
                         today: LocalDate)
  {
    && |verdicts| <= |contents|
    && (forall g :: 0 <= g < |verdicts| ==> contents[g].Ok? && |verdicts[g]| <= |KeptOf(contents, today, g)|)
    && (forall i :: 0 <= i < |origins| ==> origins[i].feed < |verdicts|)
  }

  /** The accepted articles are exactly those whose verdict is Accepted, feed by feed and in order. */
  predicate AcceptedAre(verdicts: seq<seq<Verdict>>, origins: seq<Origin>) {
    origins == OriginsOf(verdicts)
  }

  /** The origins of the Accepted verdicts of each feed in turn. */
  function OriginsOf(verdicts: seq<seq<Verdict>>): seq<Origin> {
    if verdicts == [] then []
    else OriginsOf(verdicts[..|verdicts| - 1]) + InFeed(|verdicts| - 1, AcceptedAt(verdicts[|verdicts| - 1]))
  }

  lemma OriginsOfAppend(verdicts: seq<seq<Verdict>>, feed: seq<Verdict>)
    ensures OriginsOf(verdicts + [feed]) == OriginsOf(verdicts) + InFeed(|verdicts|, AcceptedAt(feed))
  {
    assert (verdicts + [feed])[..|verdicts|] == verdicts;
  }

  /** An origin is in OriginsOf exactly when it names a visited article whose verdict is Accepted. */
  lemma {:induction false} OriginsOfMeaning(verdicts: seq<seq<Verdict>>)
    ensures forall i :: 0 <= i < |OriginsOf(verdicts)| ==> OriginsOf(verdicts)[i].feed < |verdicts|
    ensures forall g: nat, i: nat :: g < |verdicts| && i < |verdicts[g]| ==>
              (verdicts[g][i].Accepted? <==> Origin(g, i) in OriginsOf(verdicts))
  {
    if verdicts != [] {
      var f := |verdicts| - 1;
      var front := verdicts[..f];
      var feed := verdicts[f];
      OriginsOfMeaning(front);
      assert verdicts == front + [feed];
      OriginsOfAppend(front, feed);
      AcceptedAtMeaning(feed);
      InFeedMembers(OriginsOf(front), f, AcceptedAt(feed));
      forall g: nat, i: nat | g < |verdicts| && i < |verdicts[g]|
        ensures verdicts[g][i].Accepted? <==> Origin(g, i) in OriginsOf(verdicts)
      {
        if g < f {
          assert verdicts[g] == front[g];
        }
      }
    }
  }

  /**
   * Only the last visited article of the last visited feed can have failed,
   * and the run's failure is that exception or the one of fetching the next feed.
   */
  predicate FailedLast(verdicts: seq<seq<Verdict>>, failure: Option<string>, contents: seq<Result<seq<FeedEntry>>>) {
    && (forall g: nat, i: nat :: g < |verdicts| && i < |verdicts[g]| && verdicts[g][i].Aborted? ==>
          g == |verdicts| - 1 && i == |verdicts[g]| - 1 && failure == Some(verdicts[g][i].message))
    && (failure.Some? ==>
          || (|verdicts| < |contents| && contents[|verdicts|].Err? && failure.value == contents[|verdicts|].message)
          || (&& |verdicts| > 0 && |verdicts[|verdicts| - 1]| > 0
              && verdicts[|verdicts| - 1][|verdicts[|verdicts| - 1]| - 1] == Aborted(failure.value)))
  }

  /**
   * A feed the run left for the next one ran out of articles or reached its
   * own cap, and no feed was visited once the total cap was reached.
   */
  predicate StoppedAtCaps(verdicts: seq<seq<Verdict>>, origins: seq<Origin>, total: int, failure: Option<string>,
                          contents: seq<Result<seq<FeedEntry>>>, today: LocalDate, totalLimit: int, perFeedLimit: int)
    requires FeedsFetched(verdicts, origins, contents, today)
  {
    && (forall g :: 0 <= g < |verdicts| && (g < |verdicts| - 1 || (failure.None? && total < totalLimit)) ==>
          |verdicts[g]| == |KeptOf(contents, today, g)| || CountFeed(origins, g) >= perFeedLimit)
    && (|verdicts| > 0 ==> total - CountFeed(origins, |verdicts| - 1) < totalLimit)
  }

  /** Adding feed `f`'s origins after those of earlier feeds counts them in `f` and nowhere before it. */
  lemma InFeedCounts(origins: seq<Origin>, f: nat, items: seq<nat>)
    requires forall i :: 0 <= i < |origins| ==> origins[i].feed < f
    ensures CountFeed(origins + InFeed(f, items), f) == |items|
    ensures forall g: nat :: g < f ==> CountFeed(origins + InFeed(f, items), g) == CountFeed(origins, g)
  {
    var b := InFeed(f, items);
    CountFeedAppend(origins, b, f);
    CountFeedUniform(b, f, f);
    CountFeedAbsent(origins, f);
    forall g: nat | g < f
      ensures CountFeed(origins + b, g) == CountFeed(origins, g)
    {
      CountFeedAppend(origins, b, g);
      CountFeedUniform(b, f, g);
    }
  }

  /** After adding feed `f`'s origins, an origin in an earlier feed is there as before, and one in `f` names an accepted item. */
  lemma InFeedMembers(origins: seq<Origin>, f: nat, items: seq<nat>)
    requires forall i :: 0 <= i < |origins| ==> origins[i].feed < f
    ensures forall g: nat, i: nat :: g < f ==> (Origin(g, i) in origins + InFeed(f, items) <==> Origin(g, i) in origins)
    ensures forall i: nat :: Origin(f, i) in origins + InFeed(f, items) <==> i in items
  {
    var b := InFeed(f, items);
    forall i: nat
      ensures Origin(f, i) in origins + b <==> i in items
    {
      if i in items {
        var k :| 0 <= k < |items| && items[k] == i;
        assert b[k] == Origin(f, i);
      }
    }
  }

  /** A fetched feed whose inner loop ended as FeedRun says extends the run's account by one feed. */
  lemma FeedsVisitedStep(verdicts: seq<seq<Verdict>>, origins: seq<Origin>, total: int,
                         contents: seq<Result<seq<FeedEntry>>>, today: LocalDate, totalLimit: int, perFeedLimit: int,
                         feed: seq<Verdict>, items: seq<nat>, failure: Option<string>,
                         vs: seq<seq<Verdict>>, os: seq<Origin>, after: int)
    requires FeedsVisited(verdicts, origins, total, None, contents, today, totalLimit, perFeedLimit)
    requires |verdicts| < |contents| && contents[|verdicts|].Ok? && total < totalLimit
    requires FeedRun(feed, items, |KeptOf(contents, today, |verdicts|)|, total, totalLimit, perFeedLimit, failure)
    requires vs == verdicts + [feed] && os == origins + InFeed(|verdicts|, items) && after == total + |items|
    ensures FeedsVisited(vs, os, after, failure, contents, today, totalLimit, perFeedLimit)
  {
    FeedsFetchedStep(verdicts, origins, contents, today, feed, items, vs, os);
    AcceptedAreStep(verdicts, origins, feed, items);
    FailedLastStep(verdicts, contents, feed, items, total, totalLimit, perFeedLimit, failure);
    StoppedAtCapsStep(verdicts, origins, total, contents, today, totalLimit, perFeedLimit, feed, items, failure,
                      vs, os, after);
  }

  lemma FeedsFetchedStep(verdicts: seq<seq<Verdict>>, origins: seq<Origin>, contents: seq<Result<seq<FeedEntry>>>,
                         today: LocalDate, feed: seq<Verdict>, items: seq<nat>, vs: seq<seq<Verdict>>, os: seq<Origin>)
    requires FeedsFetched(verdicts, origins, contents, today)
    requires |verdicts| < |contents| && contents[|verdicts|].Ok? && |feed| <= |KeptOf(contents, today, |verdicts|)|
    requires vs == verdicts + [feed] && os == origins + InFeed(|verdicts|, items)
    ensures FeedsFetched(vs, os, contents, today)
  {
    assert forall g :: 0 <= g < |verdicts| ==> vs[g] == verdicts[g];
  }

  lemma StoppedAtCapsStep(verdicts: seq<seq<Verdict>>, origins: seq<Origin>, total: int,
                          contents: seq<Result<seq<FeedEntry>>>, today: LocalDate, totalLimit: int,
                          perFeedLimit: int, feed: seq<Verdict>, items: seq<nat>, failure: Option<string>,
                          vs: seq<seq<Verdict>>, os: seq<Origin>, after: int)
    requires FeedsFetched(verdicts, origins, contents, today) && FeedsFetched(vs, os, contents, today)
    requires StoppedAtCaps(verdicts, origins, total, None, contents, today, totalLimit, perFeedLimit)
    requires total < totalLimit && |verdicts| < |contents| && contents[|verdicts|].Ok?
    requires |feed| == |KeptOf(contents, today, |verdicts|)| || after >= totalLimit || |items| >= perFeedLimit
             || failure.Some?
    requires vs == verdicts + [feed] && os == origins + InFeed(|verdicts|, items) && after == total + |items|
    ensures StoppedAtCaps(vs, os, after, failure, contents, today, totalLimit, perFeedLimit)
  {
    var f := |verdicts|;
    assert forall g :: 0 <= g < f ==> vs[g] == verdicts[g];
    InFeedCounts(origins, f, items);
  }

  lemma AcceptedAreStep(verdicts: seq<seq<Verdict>>, origins: seq<Origin>, feed: seq<Verdict>, items: seq<nat>)
    requires AcceptedAre(verdicts, origins) && items == AcceptedAt(feed)
    ensures AcceptedAre(verdicts + [feed], origins + InFeed(|verdicts|, items))
  {
    OriginsOfAppend(verdicts, feed);
  }

  lemma FailedLastStep(verdicts: seq<seq<Verdict>>, contents: seq<Result<seq<FeedEntry>>>, feed: seq<Verdict>,
                       items: seq<nat>, total: int, totalLimit: int, perFeedLimit: int, failure: Option<string>)
    requires FailedLast(verdicts, None, contents)
    requires FeedSoFar(feed, items, total, totalLimit, perFeedLimit, failure)
    ensures FailedLast(verdicts + [feed], failure, contents)
  {
    var vs: seq<seq<Verdict>> := verdicts + [feed];
    assert forall g :: 0 <= g < |verdicts| ==> vs[g] == verdicts[g];
    forall g: nat, i: nat | g < |vs| && i < |vs[g]| && vs[g][i].Aborted?
      ensures g == |vs| - 1 && i == |vs[g]| - 1 && failure == Some(vs[g][i].message)
    {
      if g < |verdicts| {
        assert false;
      }
    }
  }

  /** A run that neither failed nor reached the total cap fetched every feed, and left each at its end or its cap. */
  lemma FeedsVisitedComplete(verdicts: seq<seq<Verdict>>, origins: seq<Origin>, total: int, failure: Option<string>,
                             contents: seq<Result<seq<FeedEntry>>>, today: LocalDate, totalLimit: int,
                             perFeedLimit: int)
    requires FeedsVisited(verdicts, origins, total, failure, contents, today, totalLimit, perFeedLimit)
    requires |verdicts| == |contents| || total >= totalLimit || failure.Some?
    ensures failure.None? && total < totalLimit ==>
              && |verdicts| == |contents|
              && forall f :: 0 <= f < |contents| ==>
                   && contents[f].Ok?
                   && (|verdicts[f]| == |KeptOf(contents, today, f)| || CountFeed(origins, f) >= perFeedLimit)
  {
  }

  /** A failed fetch of the next feed ends the run with that exception. */
  lemma FeedsVisitedFetchFailed(verdicts: seq<seq<Verdict>>, origins: seq<Origin>, total: int,
                                contents: seq<Result<seq<FeedEntry>>>, today: LocalDate, totalLimit: int,
                                perFeedLimit: int)
    requires FeedsVisited(verdicts, origins, total, None, contents, today, totalLimit, perFeedLimit)
    requires |verdicts| < |contents| && contents[|verdicts|].Err? && total < totalLimit
    ensures FeedsVisited(verdicts, origins, total, Some(contents[|verdicts|].message), contents, today,
                         totalLimit, perFeedLimit)
  {
    forall g: nat, i: nat | g < |verdicts| && i < |verdicts[g]|
      ensures !verdicts[g][i].Aborted?
    {
      if verdicts[g][i].Aborted? {
        assert false;
      }
    }
  }

  /** What RunSoFar and the snapshots say, stated on the accepted articles themselves. */
  lemma RunConclusion(accepted: seq<Article>, snaps: seq<ArticleFields>, origins: seq<Origin>,
                      contents: seq<Result<seq<FeedEntry>>>, today: LocalDate,
                      cache0: map<string, Insight>, records: map<string, Insight>)
    requires Snapshots(accepted, snaps) && Traced(origins, snaps, contents, today, cache0, records)
    ensures forall i :: 0 <= i < |origins| ==>
              && origins[i].feed < |contents| && contents[origins[i].feed].Ok?
              && origins[i].item < |KeptOf(contents, today, origins[i].feed)|
              && accepted[i].url == UrlUtils.Normalize(KeptOf(contents, today, origins[i].feed)[origins[i].item].link)
    ensures forall i :: 0 <= i < |accepted| ==>
              && accepted[i].url !in cache0 && accepted[i].url in records
              && Describes(records[accepted[i].url], accepted[i].Fields())
    ensures forall i, j :: 0 <= i < j < |accepted| ==> accepted[i].url != accepted[j].url
  {
    forall i | 0 <= i < |origins|
      ensures accepted[i].url == UrlUtils.Normalize(KeptOf(contents, today, origins[i].feed)[origins[i].item].link)
    {
      LinksAt(KeptOf(contents, today, origins[i].feed), origins[i].item);
    }
  }

  /** Each article still has the fields recorded for it. */
  ghost predicate Snapshots(articles: seq<Article>, snaps: seq<ArticleFields>)
    reads set i | 0 <= i < |articles| :: articles[i]
  {
    |articles| == |snaps| && forall i :: 0 <= i < |articles| ==> articles[i].Fields() == snaps[i]
  }

  lemma SnapshotsAppend(a: seq<Article>, b: seq<Article>, sa: seq<ArticleFields>, sb: seq<ArticleFields>)
    requires Snapshots(a, sa) && Snapshots(b, sb)
    ensures Snapshots(a + b, sa + sb)
  {
    forall i | 0 <= i < |a + b|
      ensures (a + b)[i].Fields() == (sa + sb)[i]
    {
      if i >= |a| {
        assert (a + b)[i] == b[i - |a|] && (sa + sb)[i] == sb[i - |a|];
      }
    }
  }

  /** The entries kept from feed `f` of the run. */
  function KeptOf(contents: seq<Result<seq<FeedEntry>>>, today: LocalDate, f: nat): seq<FeedEntry>
    requires f < |contents| && contents[f].Ok?
  {
    KeptEntries(contents[f].value, Cutoff(today))
  }

  /**
   * What the accepted articles of a run satisfy: each came from a fetched
   * feed's kept entry and carries its normalized link; the URL was not cached
   * before the run, the cache now describes the article under it, and no URL
   * is accepted twice.
   */
  predicate Traced(origins: seq<Origin>, snaps: seq<ArticleFields>, contents: seq<Result<seq<FeedEntry>>>,
                   today: LocalDate,
                   cache0: map<string, Insight>, records: map<string, Insight>)
  {
    && |origins| == |snaps|
    && (forall i :: 0 <= i < |origins| ==> Traces(origins[i], snaps[i], contents, today))
    && Recorded(snaps, cache0, records)
  }

  /** The article came from a fetched feed's kept entry and carries its normalized link. */
  predicate Traces(o: Origin, a: ArticleFields, contents: seq<Result<seq<FeedEntry>>>, today: LocalDate) {
    && o.feed < |contents| && contents[o.feed].Ok?
    && o.item < |KeptOf(contents, today, o.feed)|
    && a.url == Links(KeptOf(contents, today, o.feed))[o.item]
  }

  /**
   * Each URL was not cached in `before`, is in `after` with a record that
   * describes the article, and no URL occurs twice.
   */
  predicate Recorded(snaps: seq<ArticleFields>, before: map<string, Insight>, after: map<string, Insight>) {
    && (forall i :: 0 <= i < |snaps| ==>
          snaps[i].url !in before && snaps[i].url in after && Describes(after[snaps[i].url], snaps[i]))
    && (forall i, j :: 0 <= i < j < |snaps| ==> snaps[i].url != snaps[j].url)
  }

  /** A feed's account joins the run's: the feed's URLs were not cached when it started. */
  lemma TracedAdd(origins: seq<Origin>, snaps: seq<ArticleFields>, contents: seq<Result<seq<FeedEntry>>>,
                  today: LocalDate,
                  cache0: map<string, Insight>, r1: map<string, Insight>, r2: map<string, Insight>,
                  f: nat, items: seq<nat>, snap: seq<ArticleFields>)
    requires Traced(origins, snaps, contents, today, cache0, r1) && Grows(cache0, r1) && Grows(r1, r2)
    requires f < |contents| && contents[f].Ok?
    requires Accounted(snap, items, KeptOf(contents, today, f), r1, r2)
    ensures Traced(origins + InFeed(f, items), snaps + snap, contents, today, cache0, r2)
  {
    TracedOriginsAdd(origins, snaps, contents, today, f, items, snap);
    RecordsAdd(snaps, cache0, r1, r2, snap);
  }

  /** Each origin of the joined run still names the kept entry its article's URL came from. */
  lemma TracedOriginsAdd(origins: seq<Origin>, snaps: seq<ArticleFields>, contents: seq<Result<seq<FeedEntry>>>,
                         today: LocalDate, f: nat, items: seq<nat>, snap: seq<ArticleFields>)
    requires |origins| == |snaps| && |items| == |snap|
    requires forall i :: 0 <= i < |origins| ==> Traces(origins[i], snaps[i], contents, today)
    requires f < |contents| && contents[f].Ok?
    requires forall i :: 0 <= i < |items| ==>
               items[i] < |KeptOf(contents, today, f)| && snap[i].url == Links(KeptOf(contents, today, f))[items[i]]
    ensures var o := origins + InFeed(f, items);
            var s := snaps + snap;
            forall i :: 0 <= i < |o| ==> Traces(o[i], s[i], contents, today)
  {
    TracesInFeed(contents, today, f, items, snap);
    var b := InFeed(f, items);
    var o := origins + b;
    var s := snaps + snap;
    forall i | 0 <= i < |o|
      ensures Traces(o[i], s[i], contents, today)
    {
      if i >= |origins| {
        assert o[i] == b[i - |origins|] && s[i] == snap[i - |origins|];
      } else {
        assert o[i] == origins[i] && s[i] == snaps[i];
      }
    }
  }

  /** The articles a fetched feed contributed trace to its kept entries. */
  lemma TracesInFeed(contents: seq<Result<seq<FeedEntry>>>, today: LocalDate, f: nat, items: seq<nat>,
                     snap: seq<ArticleFields>)
    requires |items| == |snap| && f < |contents| && contents[f].Ok?
    requires forall i :: 0 <= i < |items| ==>
               items[i] < |KeptOf(contents, today, f)| && snap[i].url == Links(KeptOf(contents, today, f))[items[i]]
    ensures forall i :: 0 <= i < |items| ==> Traces(InFeed(f, items)[i], snap[i], contents, today)
  {
  }

  /** The joined snapshots are all new to the run's starting cache, recorded, and distinct. */
  lemma RecordsAdd(snaps: seq<ArticleFields>, cache0: map<string, Insight>, r1: map<string, Insight>,
                   r2: map<string, Insight>, snap: seq<ArticleFields>)
    requires Recorded(snaps, cache0, r1) && Grows(cache0, r1) && Grows(r1, r2)
    requires Recorded(snap, r1, r2)
    ensures Recorded(snaps + snap, cache0, r2)
  {
    var s := snaps + snap;
    forall i | 0 <= i < |s|
      ensures s[i].url !in cache0 && s[i].url in r2 && Describes(r2[s[i].url], s[i])
    {
      if i >= |snaps| {
        assert s[i] == snap[i - |snaps|];
      } else {
        assert s[i] == snaps[i];
      }
    }
    forall i, j | 0 <= i < j < |s|
      ensures s[i].url != s[j].url
    {
      if j >= |snaps| && i < |snaps| {
        assert s[i] == snaps[i] && s[j] == snap[j - |snaps|];
      } else if i >= |snaps| {
        assert s[i] == snap[i - |snaps|] && s[j] == snap[j - |snaps|];
      } else {
        assert s[i] == snaps[i] && s[j] == snaps[j];
      }
    }
  }

  /**
   * The run after the feeds before `f`: every article came from one of them,
   * and the run so far is a RunResult.
   */
  ghost predicate RunSoFar(origins: seq<Origin>, snaps: seq<ArticleFields>, f: nat, perFeedLimit: int,
                           contents: seq<Result<seq<FeedEntry>>>, today: LocalDate,
                           cache0: map<string, Insight>, records: map<string, Insight>)
  {
    && (forall i :: 0 <= i < |origins| ==> origins[i].feed < f)
    && RunResult(origins, snaps, perFeedLimit, contents, today, cache0, records)
  }

  /**
   * What a run accepted: at most perFeedLimit articles from any feed, in
   * feed-then-item order, each traced to its entry and its record.
   */
  ghost predicate RunResult(origins: seq<Origin>, snaps: seq<ArticleFields>, perFeedLimit: int,
                            contents: seq<Result<seq<FeedEntry>>>, today: LocalDate,
                            cache0: map<string, Insight>, records: map<string, Insight>)
  {
    && (forall g :: CountFeed(origins, g) <= Max(0, perFeedLimit))
    && Chained(origins)
    && Traced(origins, snaps, contents, today, cache0, records)
  }

  /** Feed `f`'s account extends the run to the feeds before `f + 1`. */
  lemma RunSoFarAdd(origins: seq<Origin>, snaps: seq<ArticleFields>, f: nat, perFeedLimit: int,
                    contents: seq<Result<seq<FeedEntry>>>, today: LocalDate,
                    cache0: map<string, Insight>, r1: map<string, Insight>, r2: map<string, Insight>,
                    items: seq<nat>, snap: seq<ArticleFields>,
                    os: seq<Origin>, ss: seq<ArticleFields>, g: nat)
    requires RunSoFar(origins, snaps, f, perFeedLimit, contents, today, cache0, r1)
    requires Grows(cache0, r1) && Grows(r1, r2)
    requires f < |contents| && contents[f].Ok? && |items| <= Max(0, perFeedLimit)
    requires Accounted(snap, items, KeptOf(contents, today, f), r1, r2)
    requires os == origins + InFeed(f, items) && ss == snaps + snap && g == f + 1
    ensures RunSoFar(os, ss, g, perFeedLimit, contents, today, cache0, r2)
  {
    AddFeedOrigins(origins, f, items, perFeedLimit);
    TracedAdd(origins, snaps, contents, today, cache0, r1, r2, f, items, snap);
  }

  /** Each origin precedes the next. */
  predicate Chained(origins: seq<Origin>) {
    forall i :: 0 < i < |origins| ==> Precedes(origins[i - 1], origins[i])
  }

  lemma PrecedesTransitive(a: Origin, b: Origin, c: Origin)
    requires Precedes(a, b) && Precedes(b, c)
    ensures Precedes(a, c)
  {
  }

  /** A chain is in feed-then-item order throughout. */
  lemma {:induction false} ChainedOrdered(origins: seq<Origin>)
    requires Chained(origins)
    ensures forall i, j :: 0 <= i < j < |origins| ==> Precedes(origins[i], origins[j])
  {
    if |origins| > 1 {
      var init := origins[..|origins| - 1];
      assert Chained(init) by {
        forall i | 0 < i < |init| ensures Precedes(init[i - 1], init[i]) {
          assert init[i - 1] == origins[i - 1] && init[i] == origins[i];
        }
      }
      ChainedOrdered(init);
      var last := |origins| - 1;
      forall i | 0 <= i < last
        ensures Precedes(origins[i], origins[last])
      {
        if i < last - 1 {
          assert init[i] == origins[i] && init[last - 1] == origins[last - 1];
          PrecedesTransitive(origins[i], origins[last - 1], origins[last]);
        }
      }
    }
  }

  /** The per-feed counts and the order survive adding a feed's origins after those of earlier feeds. */
  lemma AddFeedOrigins(origins: seq<Origin>, f: nat, items: seq<nat>, perFeedLimit: int)
    requires forall g :: CountFeed(origins, g) <= Max(0, perFeedLimit)
    requires forall i :: 0 <= i < |origins| ==> origins[i].feed < f
    requires Chained(origins)
    requires forall i, j :: 0 <= i < j < |items| ==> items[i] < items[j]
    requires |items| <= Max(0, perFeedLimit)
    ensures var r := origins + InFeed(f, items);
            && (forall g :: CountFeed(r, g) <= Max(0, perFeedLimit))
            && (forall i :: 0 <= i < |r| ==> r[i].feed < f + 1)
            && Chained(r)
  {
    var b := InFeed(f, items);
    forall g
      ensures CountFeed(origins + b, g) <= Max(0, perFeedLimit)
    {
      CountFeedAppend(origins, b, g);
      CountFeedUniform(b, f, g);
      if g == f {
        CountFeedAbsent(origins, f);
      }
    }
    var r := origins + b;
    forall i | 0 < i < |r|
      ensures Precedes(r[i - 1], r[i])
    {
      if i == |origins| {
        assert r[i - 1] == origins[|origins| - 1] && r[i] == b[0];
      } else if i > |origins| {
        assert r[i - 1] == b[i - 1 - |origins|] && r[i] == b[i - |origins|];
      } else {
        assert r[i - 1] == origins[i - 1] && r[i] == origins[i];
      }
    }
  }
}
