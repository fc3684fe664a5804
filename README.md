# Animal-welfare news tracker: a verified model of the ingestion pipeline and its read side

This project models the core of a Spring application that does two things.
It turns RSS news items into enriched records, and it serves those records to a dashboard.

- **Write side.**
  - Each configured feed is read.
  - Each item's address is normalized.
  - Items already in the insight cache (the `cached_ai_insights` collection) are skipped.
  - Old items are dropped.
  - A chat-completion classifier decides relevance, and then enriches the item with sentiment, themes, tone, authorities, location and festival linkage.
  - Each accepted item becomes one row of a Google Sheet with one sheet per publication month. The monthly sheets are kept newest first.
- **Read side.**
  - The controller's date-window queries, text filters, newest-first sort and pagination.
  - The summary counts.
  - The festival-trend aggregation the dashboard charts.

The Dafny modules follow the Java classes:

| module | Java class |
|---|---|
| `UrlUtils` | `util/UrlUtils` |
| `SourceExtractor` | `util/SourceExtractorUtil` |
| `RssFeed` | `service/RssFeedService` |
| `OpenAi` | `service/OpenAiService` |
| `GoogleSheets` | `service/GoogleSheetService` |
| `Scheduler` | `scheduler/ArticleProcessorScheduler` |
| `InsightController` | `controller/InsightController` |
| `InsightService` | `service/InsightService` |
| `InsightAggregation` | `repository/impl/CustomInsightAggregationRepositoryImpl` |

Supporting modules:

- `Model` holds the records: `ArticleDTO` as the class `Article`, `CachedAiInsight` as `Insight`, `FestivalTrendDTO`, and the feed entries.
- `InsightStore` is the cache, a map from URL to record.
- `SheetBackend` is the spreadsheet.
- `Text`, `Calendar` and `Wrappers` cover Java's string, date, null and exception behaviour. `isBlank` follows `Character.isWhitespace`, and `trim` strips the characters up to U+0020.

How the outside world appears in the model:

- **Objects that change in place are classes.** These are the article, the cache, the spreadsheet, the classifier, the sheet writer with its `duplicateCount`, and the scheduler with its `processedArticles`. Pure logic is functions and lemmas.
- **Exceptions** are `Result`/`Status` values whose message names the exception.
- **The classifier is a scripted oracle.** Each call consumes the next reply and logs its prompt. A reply is either an IOException or the answer text together with its JSON parse. "No classifier call" is therefore a statement about the log.
- **The spreadsheet** holds sheets (id, title, rows, header styled). It also holds one scripted outcome per API call (success or an error message such as "429 …") and a call log. The pauses of the retry loops are returned as a ghost list.
- **The feed transport and parser, fetched feed by feed,** are a parameter. It holds, for each configured feed, its entries or the exception fetching it raised.
- **Jsoup's text extraction** (`Jsoup.parse(...).text()` and `select("font").text()`) is a pair of function parameters.
- **The clock** is the parameters `today` (for `LocalDate.now()`) and `now` (for a record's `cachedAt`).
- **The read side works over a sequence of insights.** It stands for the collection in its natural order. `findByPublishedDateAfter` is a filter over it that keeps the order.

Where the design description and the code disagree, the model follows the code:

- **`site:` marker:** every `"www."` is removed from the group (`String.replace`), not only a leading one.
- **Empty source label:** `extractSource` can return `""`, for example for `file:` addresses whose host is empty.
- **Relevance check:** a classifier failure propagates as an exception. It does not count as "not relevant".
- **Festival sub-check:** it saves a record of its own. The final save of the enrichment then replaces it.
- **Retry loop:** it also sleeps after the fifth rate-limited attempt, so the pauses are 1, 2, 4, 8 and 16 seconds.
- **Monthly sheets:** they move to indexes 1, 2, … whether or not a sheet sits at index 0.
- **Duplicate rows:** a row the writer skips as a duplicate still counts as accepted in the scheduler.
- **Articles without a date:** they pass the scheduler's date filter.
- **Normalized links:** the scheduler normalizes links with `UrlUtils.Normalize`, the code as written, so its cache keys are the code's. The corrected `UrlUtils.StableNormalize` under Findings differs from it only for an empty authority followed by a "//" path.
- **Dashboard range keys:** the festival chart (`ui/src/FestivalTrendChart.js`) and the summary chart (`ui/src/ChartSection.js`) send the keys `1month`, `3months`, `6months` and `1year`. `InsightService` knows only `3months` and `6months` of these, so `1month` and `1year` get the six-month window. The label the server sends then says "Last 6 Months" as well. The summary endpoint knows none of the four keys, so every chart choice gets the six-month summary. The summary chart shows its own label for the key it sent, not the one the server returns. `InsightService.DashboardKeysGetSixMonths` and `InsightController.ChartKeysGetSixMonthSummary` state this.

## Model

Source paths are relative to the repository root.

| member | source | states |
|---|---|---|
| UrlUtils.NormalizeDropsQueryAndFragment | src/main/java/org/codeforcompassion/animalwelfare/util/UrlUtils.java:12-18 | the result is the input, or it contains neither '?' nor '#' |
| UrlUtils.NormalizeHierarchical | src/main/java/org/codeforcompassion/animalwelfare/util/UrlUtils.java:10-18 | for a hierarchical URI, the result parses back to the input's scheme, authority and path with no query and no fragment; "scheme:" alone comes back unchanged |
| UrlUtils.NormalizeOpaque | src/main/java/org/codeforcompassion/animalwelfare/util/UrlUtils.java:12-21 | an opaque URI comes back unchanged, because the rebuilt "scheme:" does not parse |
| UrlUtils.NormalizeUnparsable | src/main/java/org/codeforcompassion/animalwelfare/util/UrlUtils.java:19-21 | an input that does not parse is returned unchanged |
| UrlUtils.NormalizeIdempotent | src/main/java/org/codeforcompassion/animalwelfare/util/UrlUtils.java:10-18 | normalizing a normalized address changes nothing, for every input that does not have an empty authority followed by a "//" path |
| UrlUtils.NormalizeNotIdempotent | src/main/java/org/codeforcompassion/animalwelfare/util/UrlUtils.java:10-18 | as written, normalize is not idempotent: "http://///x" becomes "http:///x", which becomes "http:/x" |
| UrlUtils.StableNormalizeIdempotent | src/main/java/org/codeforcompassion/animalwelfare/util/UrlUtils.java:10-21 | the corrected normalize, which keeps the input when the rebuilt text parses to other components, is idempotent on every input |
| UrlUtils.StableNormalizeAgrees | src/main/java/org/codeforcompassion/animalwelfare/util/UrlUtils.java:10-21 | the corrected normalize gives the code's result for every input outside the empty-authority-then-"//" corner |
| UrlUtils.StableNormalizeCorner | src/main/java/org/codeforcompassion/animalwelfare/util/UrlUtils.java:10-21 | in the corner, the corrected normalize keeps "http://///x" as it is |
| UrlUtils.ParseRebuild | src/main/java/org/codeforcompassion/animalwelfare/util/UrlUtils.java:12-18 | components the parser can return, rebuilt by the five-argument constructor and re-parsed, give themselves back with no query or fragment |
| UrlUtils.ParseSchemeOnly | src/main/java/org/codeforcompassion/animalwelfare/util/UrlUtils.java:12-18 | a scheme with neither authority nor path rebuilds to text that raises URISyntaxException |
| UrlUtils.ParseGivesParsedParts | src/main/java/org/codeforcompassion/animalwelfare/util/UrlUtils.java:10 | the components a hierarchical parse returns: a valid scheme, an authority that is non-empty and free of '/', '?' and '#', and a path that has no query and starts with '/' after an authority |
| UrlUtils.ParseHierarchicalQuery | src/main/java/org/codeforcompassion/animalwelfare/util/UrlUtils.java:10 | a parsed query never holds a '#' |
| UrlUtils.ParseHierarchicalFields | src/main/java/org/codeforcompassion/animalwelfare/util/UrlUtils.java:10 | where each parsed component sits in the text: the authority after "//", the path up to the first '?' or '#', the query up to the first '#' |
| UrlUtils.Scan | src/main/java/org/codeforcompassion/animalwelfare/util/UrlUtils.java:10 | the parser's scan: the first index at or after p holding one of the characters, or the end |
| SourceExtractor.ExtractSourcePriority | src/main/java/org/codeforcompassion/animalwelfare/util/SourceExtractorUtil.java:12-40 | the fallback cascade: a non-blank site label wins; the markup is used only when it is blank; the address's host without a leading "www." is used only when both are blank, and "Unknown" when the address does not parse |
| SourceExtractor.ExtractSourceTrimmed | src/main/java/org/codeforcompassion/animalwelfare/util/SourceExtractorUtil.java:39 | the label is never null and always trimmed |
| SourceExtractor.ExtractSourceMayBeEmpty | src/main/java/org/codeforcompassion/animalwelfare/util/SourceExtractorUtil.java:30-39 | with no site marker and no markup, a "file:" address gives the empty label |
| SourceExtractor.FileUrlHasEmptyHost | src/main/java/org/codeforcompassion/animalwelfare/util/SourceExtractorUtil.java:32 | new URL("file:" + path).getHost() is "" when the path does not start with "//" |
| SourceExtractor.SiteGroupMeaning | src/main/java/org/codeforcompassion/animalwelfare/util/SourceExtractorUtil.java:16-18 | the regex site:([\w.-]+) matches exactly when some "site:" is followed by a site character; the group is the whole run after the first such "site:" |
| SourceExtractor.QueryEndsHost | src/main/java/org/codeforcompassion/animalwelfare/util/SourceExtractorUtil.java:32 | new URL("http://" + h + "?" + r).getHost() is h, whatever r holds: the query is cut off before the authority's end is looked for, so a '/' in the query does not extend the host |
| SourceExtractor.QueryEndsHostExample | src/main/java/org/codeforcompassion/animalwelfare/util/SourceExtractorUtil.java:32 | the host of "http://a?b/c" is "a" |
| SourceExtractor.SiteLabel | src/main/java/org/codeforcompassion/animalwelfare/util/SourceExtractorUtil.java:16-19 | step 1 yields a label exactly when the pattern matches |
| SourceExtractor.SiteMarkerDropsInnerWww | src/main/java/org/codeforcompassion/animalwelfare/util/SourceExtractorUtil.java:18 | replace removes every "www.", not only a leading one ("awww.b" becomes "ab") |
| SourceExtractor.StripLeadingWww | src/main/java/org/codeforcompassion/animalwelfare/util/SourceExtractorUtil.java:33 | one leading "www." is removed and nothing else changes |
| SourceExtractor.FindSite | src/main/java/org/codeforcompassion/animalwelfare/util/SourceExtractorUtil.java:17 | Matcher.find: the first index where the pattern matches, or none |
| SourceExtractor.SiteRunEnd | src/main/java/org/codeforcompassion/animalwelfare/util/SourceExtractorUtil.java:16 | the greedy `+` takes the maximal run of [A-Za-z0-9_.-] |
| RssFeed.ArticleExistsInMongo | src/main/java/org/codeforcompassion/animalwelfare/service/RssFeedService.java:79-81 | true exactly when a record sits under the URL key |
| RssFeed.ArticleExistsMeaning | src/main/java/org/codeforcompassion/animalwelfare/service/RssFeedService.java:84-88 | true exactly when a record sits under the normalized URL, or exactly one record has the article's title and date; it fails only when the key is absent and several records share the title and date |
| RssFeed.FetchArticles | src/main/java/org/codeforcompassion/animalwelfare/service/RssFeedService.java:48-76 | one distinct new article per kept entry, in feed order, with the entry's title, link and date, the cleaned summary and the source from the raw markup |
| RssFeed.NewArticle | src/main/java/org/codeforcompassion/animalwelfare/service/RssFeedService.java:65-73 | a fresh ArticleDTO filled from the entry: the summary is the text of the markup, and the source is computed from the raw markup |
| RssFeed.KeptEntriesMembers | src/main/java/org/codeforcompassion/animalwelfare/service/RssFeedService.java:52-63 | an entry is kept exactly when it has a date not before the cutoff; nothing is added, and the output is no longer than the input |
| RssFeed.KeptEntriesAppend | src/main/java/org/codeforcompassion/animalwelfare/service/RssFeedService.java:52-75 | the filter distributes over concatenation, so the kept entries keep feed order |
| RssFeed.CutoffIsInclusive | src/main/java/org/codeforcompassion/animalwelfare/service/RssFeedService.java:50-63 | an entry dated on today minus three years is kept; one dated a day earlier is dropped |
| InsightStore.Store.constructor | src/main/java/org/codeforcompassion/animalwelfare/repository/CachedAiInsightRepository.java:12-13 | a new cache holds no record |
| InsightStore.Store.FindByUrl | src/main/java/org/codeforcompassion/animalwelfare/repository/CachedAiInsightRepository.java:17 | a record is found exactly when one sits under the URL, and it is that record |
| InsightStore.Store.TitleDatePresent | src/main/java/org/codeforcompassion/animalwelfare/repository/CachedAiInsightRepository.java:23 | the derived Optional query fails when several records match; otherwise it reports whether one does |
| InsightStore.Store.Save | src/main/java/org/codeforcompassion/animalwelfare/repository/CachedAiInsightRepository.java:12-13 | save upserts by URL and keeps every record under its own URL |
| Model.Article.constructor | src/main/java/org/codeforcompassion/animalwelfare/model/ArticleDTO.java:13-27 | a new ArticleDTO has the given title and url and every other field unset |
| Model.RecordOfDescribes | src/main/java/org/codeforcompassion/animalwelfare/model/CachedAiInsight.java:16-33 | the record built from an article holds exactly that article's enrichment, and it is the only such record with that timestamp |
| OpenAi.Classifier.Call | src/main/java/org/codeforcompassion/animalwelfare/service/OpenAiService.java:118-148 | callOpenAi consumes one reply (an IOException for a non-success response) and logs the prompt |
| OpenAi.RelevanceMeaning | src/main/java/org/codeforcompassion/animalwelfare/service/OpenAiService.java:36-51 | a cached URL is relevant; otherwise a failed call is an error, and an answer is relevant exactly when its trimmed upper-cased text starts with "YES" |
| OpenAi.OpenAiService.IsAnimalWelfareRelevant | src/main/java/org/codeforcompassion/animalwelfare/service/OpenAiService.java:36-51 | on a cache hit, true with no classifier call; on a miss, exactly one call with the relevance prompt, and that reply decides |
| OpenAi.ConvertStringArray | src/main/java/org/codeforcompassion/animalwelfare/service/OpenAiService.java:90 | convertValue to String[]: null for a missing or null node; for an array, each scalar's text with a null element kept as null; IllegalArgumentException exactly when the node is neither null nor an array, or the array holds an array or an object |
| OpenAi.ConvertList | src/main/java/org/codeforcompassion/animalwelfare/service/OpenAiService.java:92 | convertValue to a raw List: null for a missing or null node; an array's elements unconverted, objects, numbers and nulls included; IllegalArgumentException exactly when the node is neither null nor an array |
| OpenAi.SubCheckThemes | src/main/java/org/codeforcompassion/animalwelfare/service/OpenAiService.java:202 | the sub-check's theme list: List.of() without an array, otherwise List.of(themes), which raises exactly when an element is null and else holds the elements |
| OpenAi.FinalThemes | src/main/java/org/codeforcompassion/animalwelfare/service/OpenAiService.java:105 | List.of(themes) raises exactly when there is no array or an element is null, and otherwise holds the elements |
| Model.ListOf | src/main/java/org/codeforcompassion/animalwelfare/service/OpenAiService.java:105 | List.of of an array: an NPE exactly when an element is null; otherwise a list whose toArray is the array |
| Model.ListOfToArray | src/main/java/org/codeforcompassion/animalwelfare/service/OpenAiService.java:60 | List.of(list.toArray()) gives the list back |
| OpenAi.EnrichSucceedsMeaning | src/main/java/org/codeforcompassion/animalwelfare/service/OpenAiService.java:87-105 | a cache miss returns normally exactly when the answer is readable, has a sentiment, a tone and a location, its themes are an array of scalars with no null, and its authorities are missing, null or an array |
| OpenAi.ApplyInsightMeaning | src/main/java/org/codeforcompassion/animalwelfare/service/OpenAiService.java:89-93 | only the five enrichment fields change; the setters all complete exactly when sentiment, tone and location are present and themes and authorities convert, and each field then holds the answer's value |
| OpenAi.ApplyAnswer | src/main/java/org/codeforcompassion/animalwelfare/service/OpenAiService.java:89-93 | the article after the five setters, and whether all five ran |
| OpenAi.CopyCachedInsight | src/main/java/org/codeforcompassion/animalwelfare/service/OpenAiService.java:59-66 | the cache-hit copy of the seven fields; an NPE after the sentiment when the record has no theme list |
| OpenAi.FestivalNameMeaning | src/main/java/org/codeforcompassion/animalwelfare/service/OpenAiService.java:189-191 | festivalName is null exactly when the field is missing or holds JSON null, and is otherwise the field's text |
| OpenAi.FestivalNeedsObject | src/main/java/org/codeforcompassion/animalwelfare/service/OpenAiService.java:188 | an answer that is not a JSON object makes the sub-check give up |
| OpenAi.OpenAiService.IsFestivalRelated | src/main/java/org/codeforcompassion/animalwelfare/service/OpenAiService.java:150-218 | never raises. A cache hit copies the flag and name with no call and no write. A miss makes one call, and a readable answer sets the fields and saves a record of the article. Any failure gives false and leaves the article and the cache unchanged |
| OpenAi.OpenAiService.EnrichArticleWithInsights | src/main/java/org/codeforcompassion/animalwelfare/service/OpenAiService.java:53-115 | a hit copies the cached enrichment with no call and no write, raising an NPE after the sentiment when the record has no theme list. A miss returns normally exactly when EnrichSucceeds holds. A failure before the sub-check writes nothing. A miss that passes the setters makes two calls, and on success the cache maps the URL to a record of the article's final fields |
| OpenAi.OpenAiService.EnrichUncached | src/main/java/org/codeforcompassion/animalwelfare/service/OpenAiService.java:68-115 | the miss path: one insight call; an unreadable reply or a failing setter leaves the cache alone; otherwise the sub-check, then List.of decides success, and the cache holds the final record, the sub-check's record, or nothing new |
| OpenAi.OpenAiService.SaveEnriched | src/main/java/org/codeforcompassion/animalwelfare/service/OpenAiService.java:95-113 | after the sub-check and setFestivalLinked, the final record replaces whatever the sub-check saved. List.of raises an NPE when there is no theme list or it holds a null, and then the sub-check's record, if it saved one, stays |
| OpenAi.MissPlan | src/main/java/org/codeforcompassion/animalwelfare/service/OpenAiService.java:68-115 | a cache miss as a function of the cache and the replies: it returns normally exactly when EnrichSucceeds holds, and then the cache describes the article under its URL; the title, summary, date and source are kept; no other key changes; it asks one or two prompts and uses up one reply for each |
| GoogleSheets.GoogleSheetService.constructor | src/main/java/org/codeforcompassion/animalwelfare/service/GoogleSheetService.java:32 | the writer starts with duplicateCount 0 over the given spreadsheet |
| GoogleSheets.MonthlyNameInjective | src/main/java/org/codeforcompassion/animalwelfare/service/GoogleSheetService.java:115 | the zero-padded name Articles_yyyy-MM determines its year and month |
| GoogleSheets.MonthlySheetName | src/main/java/org/codeforcompassion/animalwelfare/service/GoogleSheetService.java:111-116 | blank text gives "Articles_UnknownDate"; other text gives "Articles_" and its first 7 characters; text shorter than 7 characters raises |
| GoogleSheets.PartitionOfDate | src/main/java/org/codeforcompassion/animalwelfare/service/GoogleSheetService.java:111-116 | every article has a partition: UnknownDate without a date, and Articles_yyyy-MM for a four-digit year |
| GoogleSheets.PartitionExample | src/main/java/org/codeforcompassion/animalwelfare/service/GoogleSheetService.java:111-116 | 2025-07-15 goes to Articles_2025-07 |
| GoogleSheets.SamePartitionIffSameMonth | src/main/java/org/codeforcompassion/animalwelfare/service/GoogleSheetService.java:111-116 | two dated articles with four-digit years share a sheet exactly when they share year and month |
| GoogleSheets.TrimSummary | src/main/java/org/codeforcompassion/animalwelfare/service/GoogleSheetService.java:61-64 | a summary over 100 characters becomes its first 100 and "..." (103 in all); a shorter or null one is unchanged |
| GoogleSheets.BuildRow | src/main/java/org/codeforcompassion/animalwelfare/service/GoogleSheetService.java:66-79 | 12 cells, with the date first, the URL in column C, "YES"/"NO" for the festival flag and the trimmed summary last; String.join raises an NPE on a null theme or authority list and a ClassCastException on an authority that is not a string or null; a null element is written "null" |
| GoogleSheets.StoredRowCells | src/main/java/org/codeforcompassion/animalwelfare/service/GoogleSheetService.java:66-81 | the stored row, cell by cell: date text, title, URL in column C, sentiment, joined themes, tone, joined authorities, location, "YES" or "NO" for the festival flag, festival name, source and the summary cut to 100 characters plus "..."; a null cell is stored empty |
| GoogleSheets.AfterEnsure | src/main/java/org/codeforcompassion/animalwelfare/service/GoogleSheetService.java:127-167 | the sheets are unchanged when the title is present; otherwise one new styled sheet is added whose only row is the header |
| GoogleSheets.GoogleSheetService.EnsureSheetExists | src/main/java/org/codeforcompassion/animalwelfare/service/GoogleSheetService.java:118-168 | the status, the sheets, the scripted outcomes left and the calls logged are exactly those of EnsurePlan on the backend before the call; on success the sheets are AfterEnsure's, a present title costing one read and nothing else; on failure the sheet is partway through being created |
| GoogleSheets.GoogleSheetService.WriteHeader | src/main/java/org/codeforcompassion/animalwelfare/service/GoogleSheetService.java:140-166 | the status, the sheets, the outcomes left and the calls logged are exactly HeaderPlan's: row 1 is written, then styled; a failure leaves the new sheet empty or with an unstyled header |
| GoogleSheets.AppendedRowIsFound | src/main/java/org/codeforcompassion/animalwelfare/service/GoogleSheetService.java:48-84 | once an article's row is appended below row 1, the URL column shows its URL, so writing it again is a duplicate |
| GoogleSheets.FindUrl | src/main/java/org/codeforcompassion/animalwelfare/service/GoogleSheetService.java:50-58 | the scan finds a duplicate exactly when some non-empty row equals the URL ignoring case |
| GoogleSheets.GoogleSheetService.WriteUnlessDuplicate | src/main/java/org/codeforcompassion/animalwelfare/service/GoogleSheetService.java:47-84 | the status, the backend and the calls logged are exactly WritePlan's, and duplicateCount grows by 1 exactly for a duplicate: a duplicate writes nothing; otherwise the built row is appended to the partition sheet; a failure changes neither the count nor the sheets |
| GoogleSheets.GoogleSheetService.AppendArticle | src/main/java/org/codeforcompassion/animalwelfare/service/GoogleSheetService.java:36-85 | the status, the backend and the calls logged are exactly AppendPlan's on the backend before the call, and duplicateCount grows by 1 exactly when that plan meets a duplicate; what the plan promises is AppendPlanMeaning |
| GoogleSheets.GoogleSheetService.GetWithRetry | src/main/java/org/codeforcompassion/animalwelfare/service/GoogleSheetService.java:170-191 | the retry run decides the calls made, the pauses and the result; on success, the URL column of the sheet |
| GoogleSheets.GoogleSheetService.AppendWithRetry | src/main/java/org/codeforcompassion/animalwelfare/service/GoogleSheetService.java:193-218 | the retry run decides the calls made, the pauses and the status; the row is appended exactly when the status is success |
| GoogleSheets.GoogleSheetService.AppendAttempt | src/main/java/org/codeforcompassion/animalwelfare/service/GoogleSheetService.java:198-203 | one values.append: attempt i of the run, with its effect on the sheets |
| GoogleSheets.RetryShape | src/main/java/org/codeforcompassion/animalwelfare/service/GoogleSheetService.java:170-218 | between 1 and 5 attempts; a pause after every attempt but possibly the last, and after the last only when the attempts ran out, which ends with the terminal error |
| GoogleSheets.RetryBackoff | src/main/java/org/codeforcompassion/animalwelfare/service/GoogleSheetService.java:170-218 | pause k is 1000·2^k ms |
| GoogleSheets.RetryAttempts | src/main/java/org/codeforcompassion/animalwelfare/service/GoogleSheetService.java:170-218 | every pause follows a "429" failure; a run that did not run out ends on an attempt that was not rate limited, and that attempt decides the result |
| GoogleSheets.RetryAfterRateLimits | src/main/java/org/codeforcompassion/animalwelfare/service/GoogleSheetService.java:174-190 | after i rate-limited attempts, the run gives the result of attempt i, or the terminal error when i is all it had |
| GoogleSheets.OtherErrorIsImmediate | src/main/java/org/codeforcompassion/animalwelfare/service/GoogleSheetService.java:184-186 | a failure without "429" is rethrown at once: one attempt, no pause |
| GoogleSheets.FiveRateLimits | src/main/java/org/codeforcompassion/animalwelfare/service/GoogleSheetService.java:171-190 | five "429"s in a row: pauses of 1000, 2000, 4000, 8000 and 16000 ms, then the terminal error |
| GoogleSheets.FirstAttemptSucceeds | src/main/java/org/codeforcompassion/animalwelfare/service/GoogleSheetService.java:176 | a first success: one call, no pause |
| GoogleSheets.SortDescCorrect | src/main/java/org/codeforcompassion/animalwelfare/service/GoogleSheetService.java:234-238 | the sort is a permutation in descending yyyy-MM order, strictly descending when the keys are distinct |
| GoogleSheets.MonthlySheetsMembers | src/main/java/org/codeforcompassion/animalwelfare/service/GoogleSheetService.java:233 | the filter keeps exactly the sheets whose titles match ^Articles_\d{4}-\d{2}$ |
| GoogleSheets.MovedSheets | src/main/java/org/codeforcompassion/animalwelfare/service/GoogleSheetService.java:232-239 | the sheets moved are exactly the monthly ones, each once, newest first, and strictly so since titles are unique |
| GoogleSheets.ReorderRequestsMeaning | src/main/java/org/codeforcompassion/animalwelfare/service/GoogleSheetService.java:241-252 | request i moves the i-th monthly sheet, newest first, to index i + 1; there are no requests exactly when no title is monthly; no other sheet is a target |
| GoogleSheets.GoogleSheetService.ReorderMonthlySheets | src/main/java/org/codeforcompassion/animalwelfare/service/GoogleSheetService.java:224-262 | one read, then one batch with the index requests unless there are none; the status says whether both calls succeeded; the sheets are left as they were, and the whole call is exactly ReorderPlan |
| GoogleSheets.EnsurePlan | src/main/java/org/codeforcompassion/animalwelfare/service/GoogleSheetService.java:118-168 | ensureSheetExists as a function of the backend: on success the sheets are AfterEnsure's; on failure the partition sheet is partway through being created |
| GoogleSheets.HeaderPlan | src/main/java/org/codeforcompassion/animalwelfare/service/GoogleSheetService.java:140-166 | writing and styling the header of a sheet just added: on success the new sheet's only row is the header, styled; the next id is past the new one |
| GoogleSheets.ReorderPlan | src/main/java/org/codeforcompassion/animalwelfare/service/GoogleSheetService.java:224-262 | reorderMonthlySheets as a function of the backend: the stored sheets and the next id never change |
| GoogleSheets.WritePlan | src/main/java/org/codeforcompassion/animalwelfare/service/GoogleSheetService.java:47-84 | steps 1 to 3 on an existing partition sheet: a duplicate returns normally with the URL found in column C and the sheets unchanged; a normal return otherwise means the URL was not there, the row could be built and it was appended; a failure changes no sheet |
| GoogleSheets.AppendRowPlan | src/main/java/org/codeforcompassion/animalwelfare/service/GoogleSheetService.java:193-218 | one row appended with retries: the sheets change only as the final outcome says, each attempt uses up one scripted outcome, and the next sheet id stays |
| GoogleSheets.WritePlanConsumes | src/main/java/org/codeforcompassion/animalwelfare/service/GoogleSheetService.java:47-84 | the reads of the URL column and the appends of the row use up one scripted outcome per logged call, in the order of the log |
| GoogleSheets.EnsurePlanMeaning | src/main/java/org/codeforcompassion/animalwelfare/service/GoogleSheetService.java:118-168 | at most four calls, in the order read, add, header, style, each using up one scripted outcome; success exactly when the read succeeds and either the title is present, which costs that read alone and changes nothing, or the other three calls succeed; a failure carries the message of the last call made |
| GoogleSheets.ReorderPlanConsumes | src/main/java/org/codeforcompassion/animalwelfare/service/GoogleSheetService.java:224-262 | the read and the batch use up one scripted outcome per logged call |
| GoogleSheets.AppendPlanConsumes | src/main/java/org/codeforcompassion/animalwelfare/service/GoogleSheetService.java:36-85 | every call appendArticle makes uses up exactly one scripted outcome, in the order of the log |
| GoogleSheets.AppendOnHealthyBackend | src/main/java/org/codeforcompassion/animalwelfare/service/GoogleSheetService.java:36-85 | on a backend that answers every call, appendArticle returns normally for every article whose row can be built |
| GoogleSheets.AppendPlanMeaning | src/main/java/org/codeforcompassion/animalwelfare/service/GoogleSheetService.java:36-85 | every date names a partition; a duplicate returns normally; a normal return leaves the partition sheet ensured and the article written in it or counted as a duplicate (ArticleWritten); a failure leaves the partition sheet ensured with nothing written, or partway through being created |
| SheetBackend.Spreadsheet.GetSheets | src/main/java/org/codeforcompassion/animalwelfare/service/GoogleSheetService.java:119-125 | spreadsheets.get: the sheets, or the scripted failure |
| SheetBackend.Spreadsheet.AddSheet | src/main/java/org/codeforcompassion/animalwelfare/service/GoogleSheetService.java:128-138 | addSheet: one new empty sheet at the end with a fresh id, which is returned |
| SheetBackend.Spreadsheet.UpdateFirstRow | src/main/java/org/codeforcompassion/animalwelfare/service/GoogleSheetService.java:143-146 | values.update of A1 overwrites row 1 of that sheet only |
| SheetBackend.Spreadsheet.StyleHeader | src/main/java/org/codeforcompassion/animalwelfare/service/GoogleSheetService.java:148-166 | repeatCell over row 1 marks that sheet's header as styled |
| SheetBackend.Spreadsheet.GetUrlColumn | src/main/java/org/codeforcompassion/animalwelfare/service/GoogleSheetService.java:176 | values.get of C2:C returns the third cell of every row after the first |
| SheetBackend.Spreadsheet.AppendRow | src/main/java/org/codeforcompassion/animalwelfare/service/GoogleSheetService.java:199-202 | values.append puts the row after the last row of that sheet |
| SheetBackend.Spreadsheet.Reorder | src/main/java/org/codeforcompassion/animalwelfare/service/GoogleSheetService.java:255-259 | the index batch is logged, and the stored sheets are left as they are |
| SheetBackend.WellFormedAdd | src/main/java/org/codeforcompassion/animalwelfare/service/GoogleSheetService.java:127-138 | adding a sheet with a new title and the next id keeps titles and ids unique |
| SheetBackend.ColumnC | src/main/java/org/codeforcompassion/animalwelfare/service/GoogleSheetService.java:48 | the C2:C range: one entry per row after the first, empty where the cell is blank |
| Scheduler.ArticleProcessorScheduler.constructor | src/main/java/org/codeforcompassion/animalwelfare/scheduler/ArticleProcessorScheduler.java:41-57 | the collaborators are the ones given, and processedArticles starts empty |
| Scheduler.ArticleProcessorScheduler.FetchAndProcessArticles | src/main/java/org/codeforcompassion/animalwelfare/scheduler/ArticleProcessorScheduler.java:68-113 | processedArticles grows by the accepted articles, and every article's verdict and world change follow ItemStep along the chain of worlds from the world before the run to the one after it (RunStepped); see the bullet list below the table |
| Scheduler.ArticleProcessorScheduler.RunFeeds | src/main/java/org/codeforcompassion/animalwelfare/scheduler/ArticleProcessorScheduler.java:69-107 | the outer loop stops only when the feeds run out, the total cap is reached or something fails; the failure is that of the last visited article or of fetching the next feed; the accepted articles are exactly those whose verdict is Accepted, and each left feed ran out of articles or reached its own cap; every visited article's verdict and world change follow ItemStep along one chain of worlds from the start of the run to its end |
| Scheduler.ArticleProcessorScheduler.VisitFeed | src/main/java/org/codeforcompassion/animalwelfare/scheduler/ArticleProcessorScheduler.java:72-106 | over a fetched feed, the inner loop's stop reasons hold for its kept entries; it adds at most perFeedLimit new articles without passing the total cap, each traced to its kept entry and recorded; the verdicts and the worlds between them follow ItemStep on the articles built from the kept entries |
| Scheduler.ArticleProcessorScheduler.NextFeed | src/main/java/org/codeforcompassion/animalwelfare/scheduler/ArticleProcessorScheduler.java:71-106 | a fetch that raises ends the run with that exception, visits no article and leaves the world as it was; otherwise the run covers one more feed, whose chain of worlds starts where the previous feed's ended; the run's account and its stop reasons are kept |
| Scheduler.ArticleProcessorScheduler.ProcessFeed | src/main/java/org/codeforcompassion/animalwelfare/scheduler/ArticleProcessorScheduler.java:75-106 | the inner loop stops only when the articles run out, either cap is reached, or at the first failure, which is then the last verdict; the accepted positions are exactly the Accepted verdicts; at most perFeedLimit articles are added without passing the total cap, in item order, each under a URL new to the cache; verdict k and the change from world k to world k + 1 are those of `step`, which it requires to be ItemStep on the run's date filter and clock, on article k's fields at the start, from the world before the loop to the one after it |
| Scheduler.ArticleProcessorScheduler.ProcessAt | src/main/java/org/codeforcompassion/animalwelfare/scheduler/ArticleProcessorScheduler.java:76-105 | one step of the inner loop changes only the article it processes; the verdict, that article's fields and the world afterwards are ItemStep's; the feed's account gains that article exactly when it is accepted |
| Scheduler.ArticleProcessorScheduler.ProcessItem | src/main/java/org/codeforcompassion/animalwelfare/scheduler/ArticleProcessorScheduler.java:79-105 | the verdict, the article's fields and the world afterwards are exactly ItemStep's on the article's fields and the world before; ItemStepMeaning states the branches |
| Scheduler.ArticleProcessorScheduler.Screen | src/main/java/org/codeforcompassion/animalwelfare/scheduler/ArticleProcessorScheduler.java:79-92 | dedup on the normalized URL; setUrl only for an unknown article; only a known date before a given fromDate is too old |
| Scheduler.ArticleProcessorScheduler.Classify | src/main/java/org/codeforcompassion/animalwelfare/scheduler/ArticleProcessorScheduler.java:95-105 | the verdict, the article's fields and the world afterwards are exactly ClassifyStep's; ClassifyStepMeaning states the branches |
| Scheduler.ArticleProcessorScheduler.EnrichAndWrite | src/main/java/org/codeforcompassion/animalwelfare/scheduler/ArticleProcessorScheduler.java:96-102 | the verdict, the article's fields and the world afterwards are exactly EnrichWriteStep's; EnrichWriteMeaning states what that means |
| Scheduler.ArticleProcessorScheduler.StepAt | src/main/java/org/codeforcompassion/animalwelfare/scheduler/ArticleProcessorScheduler.java:76-105 | the step with the feed's account: the article is added exactly when accepted, the articles still to come keep their initial fields, and the verdict and the world afterwards are those of `step`, required to be ItemStep on the run's date filter and clock, on the article's initial fields |
| Scheduler.ItemStepMeaning | src/main/java/org/codeforcompassion/animalwelfare/scheduler/ArticleProcessorScheduler.java:79-105 | see the bullet list below the table |
| Scheduler.ClassifyStepMeaning | src/main/java/org/codeforcompassion/animalwelfare/scheduler/ArticleProcessorScheduler.java:95-104 | a failed relevance call aborts and a no rejects, both after exactly that call; a yes goes on to enrichment and the write |
| Scheduler.EnrichWriteMeaning | src/main/java/org/codeforcompassion/animalwelfare/scheduler/ArticleProcessorScheduler.java:96-102 | a failed enrichment aborts before the sheet is touched; after a successful one the article is accepted exactly when appendArticle returns normally, and then the cache describes it under its URL and the sheet holds its row or counted it as a duplicate |
| Scheduler.EnrichWriteRecords | src/main/java/org/codeforcompassion/animalwelfare/scheduler/ArticleProcessorScheduler.java:96-98 | enrichment and the write change no cache key but the article's own, and an accepted article keeps its URL and is described under it |
| Scheduler.ClassifyRecords | src/main/java/org/codeforcompassion/animalwelfare/scheduler/ArticleProcessorScheduler.java:95-98 | the relevance call and what follows it change no cache key but the article's own, and an accepted article is described under its URL |
| Scheduler.ItemStepRecords | src/main/java/org/codeforcompassion/animalwelfare/scheduler/ArticleProcessorScheduler.java:79-101 | the cache only grows, and an accepted article carries its normalized URL, which was new to the cache and now holds a record describing the article |
| Scheduler.SteppedAppend | src/main/java/org/codeforcompassion/animalwelfare/scheduler/ArticleProcessorScheduler.java:76-106 | the inner loop's chain of worlds extends by one article: a step that goes from the last world to a new one with verdict v keeps the account |
| Scheduler.RunSteppedAppend | src/main/java/org/codeforcompassion/animalwelfare/scheduler/ArticleProcessorScheduler.java:71-107 | the run's chain of feeds extends by one fetched feed whose inner chain starts in the world the previous feed left |
| Scheduler.AcceptedAtMeaning | src/main/java/org/codeforcompassion/animalwelfare/scheduler/ArticleProcessorScheduler.java:76-102 | the accepted positions of a feed are exactly those whose verdict is Accepted, each once, in increasing order |
| Scheduler.OriginsOfMeaning | src/main/java/org/codeforcompassion/animalwelfare/scheduler/ArticleProcessorScheduler.java:71-102 | an origin names a visited article exactly when that article's verdict is Accepted |
| Scheduler.FeedsVisitedFetchFailed | src/main/java/org/codeforcompassion/animalwelfare/scheduler/ArticleProcessorScheduler.java:71-73 | a feed whose fetch raises ends the run with that exception, below the total cap |
| Scheduler.LinksAt | src/main/java/org/codeforcompassion/animalwelfare/scheduler/ArticleProcessorScheduler.java:79 | the i-th of the feed's links is the normalized link of its i-th kept entry |
| Scheduler.RunConclusion | src/main/java/org/codeforcompassion/animalwelfare/scheduler/ArticleProcessorScheduler.java:76-102 | the run's ghost account, restated on the accepted articles themselves: origin, normalized link, new URL, record, distinct URLs |
| Scheduler.ChainedOrdered | src/main/java/org/codeforcompassion/animalwelfare/scheduler/ArticleProcessorScheduler.java:71-76 | origins chained pairwise are in feed-then-item order throughout |
| Scheduler.AddFeedOrigins | src/main/java/org/codeforcompassion/animalwelfare/scheduler/ArticleProcessorScheduler.java:75-102 | a feed's origins, added after those of earlier feeds, keep the per-feed counts within perFeedLimit and keep the order |
| Scheduler.RecordsAdd | src/main/java/org/codeforcompassion/animalwelfare/scheduler/ArticleProcessorScheduler.java:79-83 | what two stretches of the run recorded joins up: every URL new to the starting cache, recorded, and distinct |
| Scheduler.CountFeedUniform | src/main/java/org/codeforcompassion/animalwelfare/scheduler/ArticleProcessorScheduler.java:75 | a feed's own articles count toward that feed only, because the per-feed counter resets for each feed |
| InsightController.WindowsBeforeToday | src/main/java/org/codeforcompassion/animalwelfare/controller/InsightController.java:37-119 | every window the controller opens starts strictly before today |
| InsightController.RangeKeysIgnoreCase | src/main/java/org/codeforcompassion/animalwelfare/controller/InsightController.java:37-154 | a key and its lower-case form choose the same window and label |
| InsightController.ListAndFilterWindows | src/main/java/org/codeforcompassion/animalwelfare/controller/InsightController.java:37-69 | the list and filter endpoints agree on week, month and year; for other keys the list looks back 3 months and the filter 6 |
| InsightController.SummaryLabelNamesWindow | src/main/java/org/codeforcompassion/animalwelfare/controller/InsightController.java:98-119 | each summary label names the window the counts cover: "Last 3 Years" goes with three years back, any other key with six months |
| InsightController.ChartKeysGetSixMonthSummary | src/main/java/org/codeforcompassion/animalwelfare/controller/InsightController.java:98-119 | the summary chart's keys 1month, 3months, 6months and 1year all give the six-month window and its label |
| InsightController.FestivalLabelNamesWindow | src/main/java/org/codeforcompassion/animalwelfare/controller/InsightController.java:146-154 | the festival label names the window the service aggregated over |
| InsightController.FindByPublishedDateAfter | src/main/java/org/codeforcompassion/animalwelfare/repository/CachedAiInsightRepository.java:19 | the insights published strictly after the date, in collection order; an undated one never matches |
| InsightController.InsightsByTimeRangeMeaning | src/main/java/org/codeforcompassion/animalwelfare/controller/InsightController.java:33-44 | getInsightsByTimeRange returns exactly the insights published after the range's window start |
| InsightController.ApplyFilters | src/main/java/org/codeforcompassion/animalwelfare/controller/InsightController.java:73-75 | an insight is kept exactly when it is in the input and passes all three filters, in input order |
| InsightController.FiltersIgnoreCase | src/main/java/org/codeforcompassion/animalwelfare/controller/InsightController.java:73-75 | filter values that are equal ignoring case keep the same insights |
| InsightController.BlankFiltersKeepAll | src/main/java/org/codeforcompassion/animalwelfare/controller/InsightController.java:73-75 | blank filters keep every insight |
| InsightController.SortNewestFirst | src/main/java/org/codeforcompassion/animalwelfare/controller/InsightController.java:76 | the sort is a permutation of its input |
| InsightController.SortNewestFirstOrdered | src/main/java/org/codeforcompassion/animalwelfare/controller/InsightController.java:76 | the sorted list is ordered by published date, most recent first |
| InsightController.SortNewestFirstStable | src/main/java/org/codeforcompassion/animalwelfare/controller/InsightController.java:76 | insights with the same date keep their input order, as Java's stable sort does |
| InsightController.FoundAreDated | src/main/java/org/codeforcompassion/animalwelfare/controller/InsightController.java:71-76 | everything the date query returns has a date, so the comparator never meets a null |
| InsightController.Wrap32 | src/main/java/org/codeforcompassion/animalwelfare/controller/InsightController.java:79-80 | Java int arithmetic: the value itself in range, and congruent to it modulo 2^32 |
| InsightController.Paginate | src/main/java/org/codeforcompassion/animalwelfare/controller/InsightController.java:79-86 | a page (with page >= 0 and size >= 1) exactly when PageRequest accepts them. The content is filtered[min(page·size,n)..min(page·size+size,n)], at most size items, and the reported total is n |
| InsightController.PagePastTheEnd | src/main/java/org/codeforcompassion/animalwelfare/controller/InsightController.java:79-83 | a page that starts at or past the end is empty |
| InsightController.PagesTile | src/main/java/org/codeforcompassion/animalwelfare/controller/InsightController.java:79-83 | the first k pages, joined, are the first min(k·size, n) items: pages neither overlap nor skip |
| InsightController.PagesAgreeWithoutOverflow | src/main/java/org/codeforcompassion/animalwelfare/controller/InsightController.java:79-86 | when 32-bit arithmetic does not overflow, the code as written and the corrected pagination give the same answer |
| InsightController.WrappedOffsetRepeatsFirstPage | src/main/java/org/codeforcompassion/animalwelfare/controller/InsightController.java:79 | page = size = 65536 wraps page·size to 0: as written, the first items come back, where the corrected page is empty |
| InsightController.WrappedEndRejectsPage | src/main/java/org/codeforcompassion/animalwelfare/controller/InsightController.java:80 | page 1 with size 2^31-1 wraps start+size negative: as written, an IllegalArgumentException, where the corrected page is empty |
| InsightController.FilterInsightsMeaning | src/main/java/org/codeforcompassion/animalwelfare/controller/InsightController.java:55-87 | the page is newest first, at most size long, and reports the filtered total; every item is an insight published after the window start that passes the filters |
| InsightController.PageOfNewestFirst | src/main/java/org/codeforcompassion/animalwelfare/controller/InsightController.java:76-83 | a slice of a newest-first list is newest first |
| InsightController.CountSentimentIgnoreCase | src/main/java/org/codeforcompassion/animalwelfare/controller/InsightController.java:123-124 | the count is at most the number of insights |
| InsightController.SentimentCountsDisjoint | src/main/java/org/codeforcompassion/animalwelfare/controller/InsightController.java:123-124 | positive + negative never exceeds the number of insights, since no sentiment equals both ignoring case |
| InsightController.AllThemes | src/main/java/org/codeforcompassion/animalwelfare/controller/InsightController.java:126-127 | the flatMap lists exactly the themes of the insights that have a theme list |
| InsightController.CountBy | src/main/java/org/codeforcompassion/animalwelfare/controller/InsightController.java:126-132 | groupingBy with counting has exactly the keys that occur |
| InsightController.CountByOccurrences | src/main/java/org/codeforcompassion/animalwelfare/controller/InsightController.java:126-132 | each key's count is how often it occurs |
| InsightController.CountBySum | src/main/java/org/codeforcompassion/animalwelfare/controller/InsightController.java:126-132 | the counts add up to the number of keys counted |
| InsightController.LowerAllIsLower | src/main/java/org/codeforcompassion/animalwelfare/controller/InsightController.java:126-132 | every grouping key is in lower case |
| InsightController.SummaryStatsMeaning | src/main/java/org/codeforcompassion/animalwelfare/controller/InsightController.java:90-142 | see the bullet list below the table |
| InsightController.ThemeKeysComeFromInsights | src/main/java/org/codeforcompassion/animalwelfare/controller/InsightController.java:126-128 | every theme key is the lower-case form of some insight's theme |
| InsightController.FestivalSummaryMeaning | src/main/java/org/codeforcompassion/animalwelfare/controller/InsightController.java:146-160 | the festival summary has one entry for each festival named by a festival-linked insight dated in the window the key chooses, no festival twice, each with the POSITIVE and NEGATIVE counts of that festival's insights; the label names that same window |
| InsightService.TrendWindowBeforeToday | src/main/java/org/codeforcompassion/animalwelfare/service/InsightService.java:21-27 | every festival window starts strictly before today |
| InsightService.TrendWindowIgnoresCase | src/main/java/org/codeforcompassion/animalwelfare/service/InsightService.java:21 | the key is matched without regard to case |
| InsightService.UnknownTrendKeyIsSixMonths | src/main/java/org/codeforcompassion/animalwelfare/service/InsightService.java:26 | a key other than month, 3months, 6months and year gives six months |
| InsightService.DashboardKeysGetSixMonths | src/main/java/org/codeforcompassion/animalwelfare/service/InsightService.java:21-27 | the festival chart's "1month" and "1year" get the six-month window |
| InsightService.FestivalTrendsInWindow | src/main/java/org/codeforcompassion/animalwelfare/service/InsightService.java:20-30 | the trends name exactly the festivals of the contributing insights in the window the key chooses, one entry each |
| InsightAggregation.Matching | src/main/java/org/codeforcompassion/animalwelfare/repository/impl/CustomInsightAggregationRepositoryImpl.java:50-52 | the match stage keeps exactly the festival-linked, named insights dated on or after fromDate |
| InsightAggregation.Names | src/main/java/org/codeforcompassion/animalwelfare/repository/impl/CustomInsightAggregationRepositoryImpl.java:54-55 | the group keys are exactly the names that occur, each once |
| InsightAggregation.AggregateEvents | src/main/java/org/codeforcompassion/animalwelfare/repository/impl/CustomInsightAggregationRepositoryImpl.java:49-64 | the events are exactly the festival names of the contributing insights |
| InsightAggregation.AggregateDistinct | src/main/java/org/codeforcompassion/animalwelfare/repository/impl/CustomInsightAggregationRepositoryImpl.java:54-55 | no festival has two entries |
| InsightAggregation.AggregateCounts | src/main/java/org/codeforcompassion/animalwelfare/repository/impl/CustomInsightAggregationRepositoryImpl.java:56-59 | positive and negative count the exact "POSITIVE" and "NEGATIVE" members of the group, and the two together do not exceed the group |
| InsightAggregation.SentimentCountsBounded | src/main/java/org/codeforcompassion/animalwelfare/repository/impl/CustomInsightAggregationRepositoryImpl.java:56-57 | other sentiments count in neither sum |
| InsightAggregation.GroupsPartition | src/main/java/org/codeforcompassion/animalwelfare/repository/impl/CustomInsightAggregationRepositoryImpl.java:50-54 | every matching insight lies in exactly one group; the group sizes add up to the number of matches |

`Scheduler.ArticleProcessorScheduler.FetchAndProcessArticles` states these facts about a run:

- At most totalLimit articles are accepted in the run.
- At most perFeedLimit articles are accepted from any one feed.
- The accepted articles come in feed-then-item order.
- Each accepted article comes from a kept entry of a fetched feed and carries its normalized link.
- The URL of each accepted article was not in the cache before the run. The cache now holds a record that describes the article.
- No URL is accepted twice.
- The run stops only when the feeds run out, the total cap is reached, or something fails.
- A failure is that of the last visited article of the last visited feed, or that of fetching the next feed. No article failed before it.
- The accepted articles are exactly the visited ones whose verdict is Accepted. `ProcessItem` says when a verdict is Accepted.
- A run that ends without a failure, below the total cap, fetched every feed. Each feed then ran out of articles or reached its own cap.

`Scheduler.ItemStepMeaning` states what processing one article does:

- A failing cache check aborts, and a known article is skipped. Both leave the article and the world as they were.
- Otherwise the article takes its normalized URL, which the cache does not hold.
- An article dated before fromDate then stops, with no classifier call.
- Any other article costs one relevance call. A failed call aborts, and a no gives NotRelevant.
- A relevant article whose enrichment fails aborts before the sheet is touched.
- After a successful enrichment, the article is accepted exactly when appendArticle returns normally.
- An accepted article carries its normalized link, which the cache did not hold. The cache now describes the article under it, and the sheet holds its row or counted it as a duplicate.
- Known, TooOld and NotRelevant leave the cache, the sheet, the call log and the duplicate count as they were.
- The cache never loses a record, and the only key it can gain is the article's own.

`InsightController.SummaryStatsMeaning` states these facts about a summary:

- The label names the window.
- positive + negative <= the number of insights.
- Every key is in lower case.
- Each count equals the number of occurrences of its key.
- The theme counts add up to the number of themes in all. The location counts add up to the number of insights that have a location.

## Left out

- Credentials and transport (`getSheetsService`, the OkHttp call inside `callOpenAi`, the feed's HTTP fetch): I/O. Each appears only as a scripted outcome.
- Prompt texts and the model name: the prompt is logged as which question was asked about which title and summary. Its text is not modelled.
- Thread.sleep: the pauses are only a ghost list. An `InterruptedException` during a pause is ignored in the code and not modelled.
- A classifier answer whose `choices[0].message.content` path is missing: this NPE is folded into the IOException outcome.
- An IOException whose message is null, which makes `e.getMessage().contains("429")` itself throw: not modelled. Every scripted failure carries a message.
- `USER_ENTERED` value parsing of appended cells: the sheet stores the cell text as given.
- SheetBackend.Spreadsheet.Reorder: the index requests are logged with their exact content, and the model's sheet order is not changed by them. Sheets' own handling of the index is outside the model.
- The header's 0.9 grey and bold formatting: floats. Only a "styled" flag is kept.
- Case mapping: `toLowerCase`, `toUpperCase` and `equalsIgnoreCase` are modelled on ASCII letters only.
- java.net.URI: percent-decoding, IPv6 and registry authorities, and the full character classes are left out. The parser covers the scheme, "//" authority, path, query and fragment layout, and rejects an illegal character or a second '#'.
- NormalizeIdempotent: it is not stated for an empty authority followed by a "//" path, because the code is not idempotent there. For example, `http://///x` becomes `http:///x`, and re-parsing that reads the empty authority again and leaves the path `/x`. This is the first row under Findings.
- java.net.URL protocols other than http, https, ftp, file and mailto: these raise MalformedURLException in the model.
- A feed entry whose link or title is null: each entry carries a link and a title text. Java would store a null link, `extractSource` would fall back to "Unknown", and `UrlUtils.normalize(null)` would raise a NullPointerException, which is not a URISyntaxException. That exception would end the whole run at the catch of `fetchAndProcessArticles` (ArticleProcessorScheduler.java:109). A null title would reach the (title, date) lookup and the prompts as null.
- Jsoup's markup parsing and Rome's feed parsing: these are function parameters and the feed parameter.
- The date conversion through the system time zone: the entry carries its local date.
- FetchAndProcessArticles: the accepted articles are added to processedArticles once, at the end of the run. The code adds them one at a time, but nothing in the model reads the list during a run.
- FetchAndProcessArticles: it does not state that the accepted articles are new objects, and neither do `RunFeeds` and `NextFeed`. Only `VisitFeed` states it, for the articles of one feed.
- Concurrency (`CopyOnWriteArrayList`, overlapping scheduled and manual runs): runs are sequential.
- `scheduledFetchAndProcess` (the 8:00 cron, with one day back from `LocalDateTime.now()`): the clock. `fromDate` is a parameter of the run.
- `getProcessedArticles` and `getDuplicateCount`: plain reads of the fields `processedArticles` and `duplicateCount`, which the model keeps.
- Logging, `System.out` and `printStackTrace`: they have no effect on the state.
- Storage failures of the cache: `save` and the lookups always succeed, except for the ambiguous (title, date) lookup.
- `getInsightsBetweenDates` (`findByPublishedDateBetween`): whether Mongo's derived query includes its bounds is not visible in the source, so it is not modelled.
- The aggregation's group order: MongoDB leaves it open. The model lists groups in the order their names first appear in the collection.
- `PageImpl`'s adjustment of the total: it differs from the list size only when the content runs past the requested page's end. That happens only on the overflow path described under Findings.
- `forwardToFrontend`: routing only.
- `SummaryResponse`: unused. The summary is the map built in `getSummaryStats`, modelled as a datatype.
- `ArticleProcessorController` and `SheetAdminController`: HTTP wrappers.
- `FeedConfig` and `FetchLimitConfig`: constructor and run parameters.
- The dashboard UI: only its range keys are used, in the lemmas named above.

## Findings

| source | as written | input that shows it | evidently intended | confidence | as-written member | corrected member |
|---|---|---|---|---|---|---|
| src/main/java/org/codeforcompassion/animalwelfare/util/UrlUtils.java:10-18 | the URI is rebuilt from scheme, authority and path, and the rebuilt text's own parse is not checked against them | `http://///x` normalizes to `http:///x`, and that normalizes to `http:/x`. An item that links to `http:///x` therefore gets another cache key than the item it was normalized from | normalizing a normalized link leaves it alone, so that a link already in normal form is its own cache key | not executed; low, the inputs are unusual addresses | UrlUtils.Normalize (lemma NormalizeNotIdempotent) | UrlUtils.StableNormalize (lemmas StableNormalizeIdempotent, StableNormalizeAgrees, StableNormalizeCorner); the scheduler keeps the code's Normalize, so that its cache keys are those of the code |
| src/main/java/org/codeforcompassion/animalwelfare/controller/InsightController.java:79-80 | `page * size` and `start + size` are computed in 32-bit int and wrap around | page = size = 65536 over 1 to 65536 insights: page·size wraps to 0 and the first page comes back. page = 1 with size = 2^31-1: start + size wraps negative and the request fails with IllegalArgumentException | a page past the end is empty, as for smaller numbers | not executed | InsightController.PageAsWritten (lemmas WrappedOffsetRepeatsFirstPage, WrappedEndRejectsPage) | InsightController.Paginate (lemmas PagePastTheEnd, PagesTile, PagesAgreeWithoutOverflow), used by FilterInsights |
