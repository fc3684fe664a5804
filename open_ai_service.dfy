/**
 * OpenAiService: the cache-first relevance check, the enrichment of an article
 * from the classifier's JSON answer, and the festival sub-check.
 *
 * The classifier (the chat-completion endpoint behind callOpenAi) is a scripted
 * oracle: each call consumes the next reply, which is either a failure (a
 * non-success response, raised as IOException) or the answer text together
 * with what Jackson's readTree makes of it (None when it does not parse).
 * Every prompt sent is logged, so "no classifier call" is a statement about
 * the log. `now` stands for LocalDateTime.now() when a record is cached.
 */
module OpenAi {
  import opened Wrappers
  import opened Text
  import opened Model
  import opened InsightStore

  /** JsonNode.get(field): null (None) unless the node is an object with that field. */
  function Get(node: Json, field: string): Option<Json> {
    if node.JObject? && field in node.fields then Some(node.fields[field]) else None
  }

  /** JsonNode.has(field): the field is present, even when it holds JSON null. */
  predicate Has(node: Json, field: string) {
    Get(node, field).Some?
  }

  /** JsonNode.asText() */
  function AsText(node: Json): string {
    match node
    case JNull => "null"
    case JBool(b) => if b then "true" else "false"
    case JInt(n) => IntToString(n)
    case JDecimal(t) => t
    case JString(s) => s
    case JArray(_) => ""
    case JObject(_) => ""
  }

  /** JsonNode.asBoolean(): a boolean, a non-zero integer, or the text "true" once trimmed. */
  predicate AsBoolean(node: Json) {
    match node
    case JBool(b) => b
    case JInt(n) => n != 0
    case JString(s) => Trim(s) == "true"
    case _ => false
  }

  predicate IsScalar(node: Json) {
    node.JBool? || node.JInt? || node.JDecimal? || node.JString?
  }

  /**
   * ObjectMapper.convertValue(node, String[].class): null for a missing or
   * null node; for an array, each scalar element's text and a null element
   * kept as null; an IllegalArgumentException for any other node or for an
   * array holding an array or an object.
   */
  function ConvertStringArray(node: Option<Json>): (r: Result<Option<seq<Option<string>>>>)
    ensures node.None? || node == Some(JNull) ==> r == Ok(None)
    ensures r.Ok? && r.value.Some? ==>
              && node.Some? && node.value.JArray? && |r.value.value| == |node.value.items|
              && forall i :: 0 <= i < |r.value.value| ==>
                   r.value.value[i] == (if node.value.items[i].JNull? then None else Some(AsText(node.value.items[i])))
    ensures r.Err? <==>
              && node.Some? && !node.value.JNull?
              && (!node.value.JArray? ||
                  exists i :: 0 <= i < |node.value.items| && (node.value.items[i].JArray? || node.value.items[i].JObject?))
  {
    if node.None? || node.value.JNull? then Ok(None)
    else if node.value.JArray? && forall i :: 0 <= i < |node.value.items| ==>
                                    IsScalar(node.value.items[i]) || node.value.items[i].JNull? then
      var items := node.value.items;
      Ok(Some(seq(|items|, i requires 0 <= i < |items| => if items[i].JNull? then None else Some(AsText(items[i])))))
    else Err("IllegalArgumentException")
  }

  /**
   * ObjectMapper.convertValue(node, List.class): null for a missing or null
   * node; for an array, its elements unconverted (strings, numbers, booleans,
   * nulls, maps and lists alike); an IllegalArgumentException otherwise.
   */
  function ConvertList(node: Option<Json>): (r: Result<Option<seq<Json>>>)
    ensures node.None? || node == Some(JNull) ==> r == Ok(None)
    ensures r.Ok? && r.value.Some? ==> node == Some(JArray(r.value.value))
    ensures r.Err? <==> node.Some? && !node.value.JNull? && !node.value.JArray?
  {
    if node.None? || node.value.JNull? then Ok(None)
    else if node.value.JArray? then Ok(Some(node.value.items))
    else Err("IllegalArgumentException")
  }

  /** What is sent: which question, about which title and summary. */
  datatype Prompt =
    | RelevancePrompt(title: string, summary: Option<string>)
    | InsightPrompt(title: string, summary: Option<string>)
    | FestivalPrompt(title: string, summary: Option<string>)

  /** callOpenAi's outcome: IOException, or the answer text and its parse. */
  datatype Reply = Unavailable(message: string) | Answered(content: string, parsed: Option<Json>)

  function NextReply(script: seq<Reply>): Reply {
    if script == [] then Unavailable("no response") else script[0]
  }

  function RestOf(script: seq<Reply>): seq<Reply> {
    if script == [] then [] else script[1..]
  }

  /** The classifier endpoint: scripted replies, and the log of the prompts it received. */
  class Classifier {
    var script: seq<Reply>
    var prompts: seq<Prompt>

    constructor (script: seq<Reply>)
      ensures this.script == script && prompts == []
    {
      this.script := script;
      prompts := [];
    }

    /** callOpenAi */
    method Call(p: Prompt) returns (reply: Reply)
      modifies this
      ensures reply == NextReply(old(script))
      ensures script == RestOf(old(script))
      ensures prompts == old(prompts) + [p]
    {
      reply := NextReply(script);
      script := RestOf(script);
      prompts := prompts + [p];
    }
  }

  /** isAnimalWelfareRelevant as a decision over the cache lookup and the classifier's reply. */
  function Relevance(cached: bool, reply: Reply): Result<bool> {
    if cached then Ok(true)
    else
      match reply
      case Unavailable(m) => Err(m)
      case Answered(content, _) => Ok(StartsWith(ToUpper(Trim(content)), "YES"))
  }

  lemma UpperCharIs(c: char, lower: char, upper: char)
    requires 'a' <= lower <= 'z' && upper as int == lower as int - 32
    ensures UpperChar(c) == upper <==> c == lower || c == upper
  {
  }

  /**
   * A cached article is relevant without a reply; otherwise a failed call is an
   * error, and an answer means "relevant" exactly when, once trimmed, it starts
   * with y, e, s in either case ("Yes.", " yes", and also "Yesterday").
   */
  lemma RelevanceMeaning(cached: bool, reply: Reply)
    ensures cached ==> Relevance(cached, reply) == Ok(true)
    ensures !cached && reply.Unavailable? ==> Relevance(cached, reply) == Err(reply.message)
    ensures !cached && reply.Answered? ==>
              var t := Trim(reply.content);
              Relevance(cached, reply) == Ok(|t| >= 3 && t[0] in "yY" && t[1] in "eE" && t[2] in "sS")
  {
    if !cached && reply.Answered? {
      var t := Trim(reply.content);
      var u := ToUpper(t);
      if |t| >= 3 {
        UpperCharIs(t[0], 'y', 'Y');
        UpperCharIs(t[1], 'e', 'E');
        UpperCharIs(t[2], 's', 'S');
        assert u[..3] == [u[0], u[1], u[2]];
        assert StartsWith(u, "YES") <==> u[0] == 'Y' && u[1] == 'E' && u[2] == 'S';
      }
    }
  }

  /** The festival sub-check's reading of the answer. */
  datatype FestivalInfo = FestivalInfo(linked: bool, name: Option<string>)

  /** None where the lookup of "festivalLinked" yields null and asBoolean throws. */
  function FestivalAnswer(root: Json): Option<FestivalInfo> {
    match Get(root, "festivalLinked")
    case None => None
    case Some(flag) =>
      var name := if Has(root, "festivalName") && !Get(root, "festivalName").value.JNull?
                  then Some(AsText(Get(root, "festivalName").value)) else None;
      Some(FestivalInfo(AsBoolean(flag), name))
  }

  /** The reading of a reply; None for every failure the sub-check swallows. */
  function FestivalReplyInfo(reply: Reply): Option<FestivalInfo> {
    match reply
    case Unavailable(_) => None
    case Answered(_, None) => None
    case Answered(_, Some(root)) => FestivalAnswer(root)
  }

  /** festivalName is null exactly when the field is missing or holds JSON null. */
  lemma FestivalNameMeaning(root: Json)
    requires FestivalAnswer(root).Some?
    ensures FestivalAnswer(root).value.name.None? <==> Get(root, "festivalName") in {None, Some(JNull)}
    ensures FestivalAnswer(root).value.name.Some? ==>
              FestivalAnswer(root).value.name.value == AsText(Get(root, "festivalName").value)
  {
  }

  /** An answer whose root is not an object has no fields, so the sub-check gives up. */
  lemma FestivalNeedsObject(root: Json)
    requires !root.JObject?
    ensures FestivalAnswer(root).None?
  {
  }

  /** The article's fields once the answer's five fields are set in order, and whether all five were. */
  datatype InsightStep = InsightStep(fields: ArticleFields, complete: bool)

  /**
   * setSentiment(root.get("sentiment").asText()), setThemes(convertValue(...)),
   * setTone, setAuthorities, setLocation: each stops the sequence with an
   * exception when its field is missing (asText on null) or not convertible.
   */
  function ApplyInsight(f: ArticleFields, root: Json): InsightStep {
    var sentiment := Get(root, "sentiment");
    if sentiment.None? then InsightStep(f, false)
    else
      var f1 := f.(sentiment := Some(AsText(sentiment.value)));
      var themes := ConvertStringArray(Get(root, "themes"));
      if themes.Err? then InsightStep(f1, false)
      else
        var f2 := f1.(themes := themes.value);
        var tone := Get(root, "tone");
        if tone.None? then InsightStep(f2, false)
        else
          var f3 := f2.(tone := Some(AsText(tone.value)));
          var authorities := ConvertList(Get(root, "authorities"));
          if authorities.Err? then InsightStep(f3, false)
          else
            var f4 := f3.(authorities := authorities.value);
            var location := Get(root, "location");
            if location.None? then InsightStep(f4, false)
            else InsightStep(f4.(location := Some(AsText(location.value))), true)
  }

  /**
   * Only the five enrichment fields change; the sequence completes exactly when
   * sentiment, tone and location are present and themes and authorities
   * convert, and then each field holds the answer's value.
   */
  lemma ApplyInsightMeaning(f: ArticleFields, root: Json)
    ensures var g := ApplyInsight(f, root).fields;
            && g.title == f.title && g.url == f.url && g.source == f.source && g.summary == f.summary
            && g.publishedDate == f.publishedDate
            && g.festivalLinked == f.festivalLinked && g.festivalName == f.festivalName
    ensures ApplyInsight(f, root).complete <==>
              && Has(root, "sentiment") && Has(root, "tone") && Has(root, "location")
              && ConvertStringArray(Get(root, "themes")).Ok? && ConvertList(Get(root, "authorities")).Ok?
    ensures ApplyInsight(f, root).complete ==>
              var g := ApplyInsight(f, root).fields;
              && g.sentiment == Some(AsText(Get(root, "sentiment").value))
              && g.themes == ConvertStringArray(Get(root, "themes")).value
              && g.tone == Some(AsText(Get(root, "tone").value))
              && g.authorities == ConvertList(Get(root, "authorities")).value
              && g.location == Some(AsText(Get(root, "location").value))
  {
  }

  /** The article after enrichment's cache-hit branch copied the record's fields. */
  function CopyCached(f: ArticleFields, c: Insight): ArticleFields
    requires c.themes.Some?
  {
    f.(sentiment := c.sentiment, themes := Some(ToArray(c.themes.value)), tone := c.tone, authorities := c.authorities,
       location := c.location, festivalLinked := c.festivalLinked, festivalName := c.festivalName)
  }

  /**
   * The theme list the festival sub-check stores: List.of() for a missing
   * array, List.of(themes) otherwise, which throws (None) on a null element.
   */
  function SubCheckThemes(t: Option<seq<Option<string>>>): (r: Option<seq<string>>)
    ensures t.None? ==> r == Some([])
    ensures t.Some? ==> (r.Some? <==> forall i :: 0 <= i < |t.value| ==> t.value[i].Some?)
    ensures t.Some? && r.Some? ==> ToArray(r.value) == t.value
  {
    if t.None? then Some([]) else ListOf(t.value)
  }

  /**
   * The theme list enrichment stores: List.of(themes), which throws (None) on
   * a missing array as well as on a null element.
   */
  function FinalThemes(t: Option<seq<Option<string>>>): (r: Option<seq<string>>)
    ensures r.Some? <==> t.Some? && forall i :: 0 <= i < |t.value| ==> t.value[i].Some?
    ensures r.Some? ==> t == Some(ToArray(r.value))
  {
    if t.None? then None else ListOf(t.value)
  }

  /**
   * The article after setFestivalLinked(isFestivalRelated(article)): on a
   * readable answer the name is set, and the flag is the answer's unless the
   * sub-check's List.of(themes) threw, in which case it returned false.
   */
  function AfterFestival(f: ArticleFields, info: Option<FestivalInfo>): ArticleFields {
    if info.Some? then f.(festivalLinked := info.value.linked && SubCheckThemes(f.themes).Some?, festivalName := info.value.name)
    else f.(festivalLinked := false)
  }

  /**
   * Whether enrichArticleWithInsights returns normally on a cache miss, given
   * the article and the classifier's replies: the insight answer is readable,
   * all five setters run, and List.of accepts the theme array. The festival
   * sub-check that comes between never raises and leaves the themes alone.
   */
  predicate EnrichSucceeds(f: ArticleFields, script: seq<Reply>) {
    var reply := NextReply(script);
    && reply.Answered? && reply.parsed.Some?
    && var step := ApplyInsight(f, reply.parsed.value);
       step.complete && FinalThemes(step.fields.themes).Some?
  }

  /**
   * Enrichment succeeds exactly when the answer is readable, has a sentiment,
   * a tone and a location, its themes are an array of scalars (no null, no
   * nesting), and its authorities are missing, null or an array.
   */
  lemma EnrichSucceedsMeaning(f: ArticleFields, script: seq<Reply>)
    ensures EnrichSucceeds(f, script) <==>
              && NextReply(script).Answered? && NextReply(script).parsed.Some?
              && var root := NextReply(script).parsed.value;
                 && Has(root, "sentiment") && Has(root, "tone") && Has(root, "location")
                 && Get(root, "themes").Some? && Get(root, "themes").value.JArray?
                 && (forall i :: 0 <= i < |Get(root, "themes").value.items| ==> IsScalar(Get(root, "themes").value.items[i]))
                 && (Get(root, "authorities").None? || Get(root, "authorities").value.JNull? || Get(root, "authorities").value.JArray?)
  {
    var reply := NextReply(script);
    if reply.Answered? && reply.parsed.Some? {
      ApplyInsightMeaning(f, reply.parsed.value);
    }
  }

  /**
   * What a cache miss of enrichArticleWithInsights leaves behind: its outcome,
   * the article's fields, the cache, the replies still to come and the prompts
   * it sent.
   */
  datatype Enrichment = Enrichment(status: Status, fields: ArticleFields, records: map<string, Insight>,
                                   script: seq<Reply>, prompts: seq<Prompt>)

  /**
   * A cache miss of enrichArticleWithInsights on these values: the insight
   * call, the five setters, then the festival sub-check (which may save a
   * record of its own) and the save of the final record. It returns normally
   * exactly when EnrichSucceeds says so, and then the cache describes the
   * article under its URL; no other key changes, and each prompt uses up one
   * reply.
   */
  function MissPlan(f: ArticleFields, records: map<string, Insight>, script: seq<Reply>, now: int): (e: Enrichment)
    ensures e.status.Success? <==> EnrichSucceeds(f, script)
    ensures e.status.Success? ==> f.url in e.records && Describes(e.records[f.url], e.fields)
    ensures && e.fields.url == f.url && e.fields.title == f.title && e.fields.summary == f.summary
            && e.fields.publishedDate == f.publishedDate && e.fields.source == f.source
    ensures forall k :: k in e.records ==> k in records || k == f.url
    ensures forall k :: k in records && k != f.url ==> k in e.records && e.records[k] == records[k]
    ensures || (e.prompts == [InsightPrompt(f.title, f.summary)] && e.script == RestOf(script))
            || (e.prompts == [InsightPrompt(f.title, f.summary), FestivalPrompt(f.title, f.summary)]
                && e.script == RestOf(RestOf(script)))
  {
    var reply := NextReply(script);
    var rest := RestOf(script);
    var first := [InsightPrompt(f.title, f.summary)];
    if reply.Unavailable? then Enrichment(Failure(reply.message), f, records, rest, first)
    else if reply.parsed.None? then Enrichment(Failure("JsonProcessingException"), f, records, rest, first)
    else
      var step := ApplyInsight(f, reply.parsed.value);
      ApplyInsightMeaning(f, reply.parsed.value);
      if !step.complete then Enrichment(Failure("NullPointerException"), step.fields, records, rest, first)
      else
        var info := FestivalReplyInfo(NextReply(rest));
        var g := AfterFestival(step.fields, info);
        var both := first + [FestivalPrompt(f.title, f.summary)];
        var final := FinalThemes(g.themes);
        var sub := SubCheckThemes(g.themes);
        if final.Some? then
          RecordOfDescribes(g, now);
          Enrichment(Success, g, records[f.url := RecordOf(g, final.value, now)], RestOf(rest), both)
        else if info.Some? && sub.Some? then
          Enrichment(Failure("NullPointerException"), g, records[f.url := RecordOf(g, sub.value, now)], RestOf(rest), both)
        else
          Enrichment(Failure("NullPointerException"), g, records, RestOf(rest), both)
  }

  /** The cache-hit branch of enrichArticleWithInsights: copy the record's fields onto the article. */
  method CopyCachedInsight(article: Article, c: Insight) returns (status: Status)
    modifies article
    ensures article.url == old(article.url)
    ensures c.themes.None? ==> status.Failure? && article.Fields() == old(article.Fields()).(sentiment := c.sentiment)
    ensures c.themes.Some? ==> status.Success? && article.Fields() == CopyCached(old(article.Fields()), c)
  {
    article.sentiment := c.sentiment;
    if c.themes.None? {
      return Failure("NullPointerException");
    }
    article.themes := Some(ToArray(c.themes.value));
    article.tone := c.tone;
    article.authorities := c.authorities;
    article.location := c.location;
    article.festivalLinked := c.festivalLinked;
    article.festivalName := c.festivalName;
    return Success;
  }

  /** The five setters fed from the parsed answer, in order; false where one of them throws. */
  method ApplyAnswer(article: Article, root: Json) returns (complete: bool)
    modifies article
    ensures article.url == old(article.url)
    ensures article.Fields() == ApplyInsight(old(article.Fields()), root).fields
    ensures complete == ApplyInsight(old(article.Fields()), root).complete
  {
    var sentiment := Get(root, "sentiment");
    if sentiment.None? {
      return false;
    }
    article.sentiment := Some(AsText(sentiment.value));
    var themes := ConvertStringArray(Get(root, "themes"));
    if themes.Err? {
      return false;
    }
    article.themes := themes.value;
    var tone := Get(root, "tone");
    if tone.None? {
      return false;
    }
    article.tone := Some(AsText(tone.value));
    var authorities := ConvertList(Get(root, "authorities"));
    if authorities.Err? {
      return false;
    }
    article.authorities := authorities.value;
    var location := Get(root, "location");
    if location.None? {
      return false;
    }
    article.location := Some(AsText(location.value));
    return true;
  }

  class OpenAiService {
    const store: Store
    const classifier: Classifier

    constructor (store: Store, classifier: Classifier)
      ensures this.store == store && this.classifier == classifier
    {
      this.store := store;
      this.classifier := classifier;
    }

    /** isAnimalWelfareRelevant: a cached URL is relevant with no call; otherwise one call decides. */
    method IsAnimalWelfareRelevant(article: Article) returns (relevant: Result<bool>)
      modifies classifier
      ensures relevant == Relevance(article.url in store.records, NextReply(old(classifier.script)))
      ensures article.url in store.records ==> unchanged(classifier)
      ensures article.url !in store.records ==>
                && classifier.prompts == old(classifier.prompts) + [RelevancePrompt(article.title, article.summary)]
                && classifier.script == RestOf(old(classifier.script))
    {
      var cached := store.FindByUrl(article.url);
      if cached.Some? {
        return Ok(true);
      }
      var reply := classifier.Call(RelevancePrompt(article.title, article.summary));
      match reply
      case Unavailable(m) =>
        return Err(m);
      case Answered(text, _) =>
        return Ok(StartsWith(ToUpper(Trim(text)), "YES"));
    }

    /**
     * isFestivalRelated: never raises. A cached URL supplies the flag and the
     * name with no call and no write; otherwise one call, and on a readable
     * answer the article's festival fields are set and a record of the
     * article is saved (an absent theme list stored as empty). A failed call
     * or an unreadable answer gives false and leaves article and store as
     * they were; a theme list holding a null makes List.of throw after the
     * festival fields were set, so the call gives false and saves nothing.
     */
    method IsFestivalRelated(article: Article, now: int) returns (linked: bool)
      modifies article, store, classifier
      ensures article.url == old(article.url)
      ensures old(article.url) in old(store.records) ==>
                var c := old(store.records)[old(article.url)];
                && linked == c.festivalLinked
                && article.Fields() == old(article.Fields()).(festivalLinked := c.festivalLinked, festivalName := c.festivalName)
                && store.records == old(store.records)
                && classifier.script == old(classifier.script) && classifier.prompts == old(classifier.prompts)
      ensures old(article.url) !in old(store.records) ==>
                && classifier.prompts == old(classifier.prompts) + [FestivalPrompt(old(article.title), old(article.summary))]
                && classifier.script == RestOf(old(classifier.script))
                && var info := FestivalReplyInfo(NextReply(old(classifier.script)));
                   && (info.None? ==> !linked && article.Fields() == old(article.Fields()) && store.records == old(store.records))
                   && (info.Some? ==>
                         && article.Fields() == old(article.Fields()).(festivalLinked := info.value.linked, festivalName := info.value.name)
                         && var themes := SubCheckThemes(old(article.themes));
                            && (themes.Some? ==>
                                  && linked == info.value.linked
                                  && store.records == old(store.records)[article.url := RecordOf(article.Fields(), themes.value, now)])
                            && (themes.None? ==> !linked && store.records == old(store.records)))
    {
      var cached := store.FindByUrl(article.url);
      if cached.Some? {
        var c := cached.value;
        article.festivalLinked := c.festivalLinked;
        article.festivalName := c.festivalName;
        return c.festivalLinked;
      }
      var reply := classifier.Call(FestivalPrompt(article.title, article.summary));
      if reply.Unavailable? || reply.parsed.None? {
        return false;
      }
      var root := reply.parsed.value;
      var flag := Get(root, "festivalLinked");
      if flag.None? {
        return false;
      }
      var isLinked := AsBoolean(flag.value);
      var festivalName := if Has(root, "festivalName") && !Get(root, "festivalName").value.JNull?
                          then Some(AsText(Get(root, "festivalName").value)) else None;
      article.festivalLinked := isLinked;
      article.festivalName := festivalName;
      var themes := SubCheckThemes(article.themes);
      if themes.None? {
        return false;
      }
      store.Save(RecordOf(article.Fields(), themes.value, now));
      return isLinked;
    }

    /**
     * enrichArticleWithInsights. Cache hit: the record's enrichment is copied
     * with no call and no write (an NPE after the sentiment when the record has
     * no theme list). Cache miss: one call for the insight; if its answer is
     * readable and complete, the festival sub-check makes a second call, and the
     * final record of the article replaces whatever that sub-check stored.
     * A failure before the sub-check writes nothing.
     */
    method EnrichArticleWithInsights(article: Article, now: int) returns (status: Status)
      modifies article, store, classifier
      ensures article.url == old(article.url)
      ensures old(store.Valid()) ==> store.Valid()
      ensures status.Success? && old(article.url) !in old(store.records) ==>
                article.url in store.records && Describes(store.records[article.url], article.Fields())
      ensures old(article.url) !in old(store.records) ==>
                (status.Success? <==> EnrichSucceeds(old(article.Fields()), old(classifier.script)))
      ensures old(article.url) !in old(store.records) ==>
                var e := MissPlan(old(article.Fields()), old(store.records), old(classifier.script), now);
                && status == e.status && article.Fields() == e.fields && store.records == e.records
                && classifier.script == e.script && classifier.prompts == old(classifier.prompts) + e.prompts
      ensures old(article.url) in old(store.records) ==>
                var c := old(store.records)[old(article.url)];
                && store.records == old(store.records) && unchanged(classifier)
                && (c.themes.None? ==>
                      status.Failure? && article.Fields() == old(article.Fields()).(sentiment := c.sentiment))
                && (c.themes.Some? ==> status.Success? && article.Fields() == CopyCached(old(article.Fields()), c))
      ensures old(article.url) !in old(store.records) ==>
                var reply := NextReply(old(classifier.script));
                var first := old(classifier.prompts) + [InsightPrompt(old(article.title), old(article.summary))];
                if reply.Unavailable? || reply.parsed.None? then
                  && status.Failure? && article.Fields() == old(article.Fields())
                  && store.records == old(store.records)
                  && classifier.prompts == first && classifier.script == RestOf(old(classifier.script))
                else
                  var step := ApplyInsight(old(article.Fields()), reply.parsed.value);
                  if !step.complete then
                    && status.Failure? && article.Fields() == step.fields
                    && store.records == old(store.records)
                    && classifier.prompts == first && classifier.script == RestOf(old(classifier.script))
                  else
                    var info := FestivalReplyInfo(NextReply(RestOf(old(classifier.script))));
                    && article.Fields() == AfterFestival(step.fields, info)
                    && classifier.prompts == first + [FestivalPrompt(old(article.title), old(article.summary))]
                    && classifier.script == RestOf(RestOf(old(classifier.script)))
                    && (status.Success? <==> FinalThemes(article.themes).Some?)
                    && (status.Success? ==>
                          store.records == old(store.records)[article.url := RecordOf(article.Fields(), FinalThemes(article.themes).value, now)])
                    && (status.Failure? && (info.None? || SubCheckThemes(article.themes).None?) ==> store.records == old(store.records))
                    && (status.Failure? && info.Some? && SubCheckThemes(article.themes).Some? ==>
                          store.records == old(store.records)[article.url := RecordOf(article.Fields(), SubCheckThemes(article.themes).value, now)])
    {
      var cached := store.FindByUrl(article.url);
      if cached.Some? {
        status := CopyCachedInsight(article, cached.value);
        return;
      }
      status := EnrichUncached(article, now);
    }

    /**
     * The cache miss of enrichArticleWithInsights: one call for the insight;
     * if its answer is readable and complete, the festival sub-check and the
     * save of the final record.
     */
    method EnrichUncached(article: Article, now: int) returns (status: Status)
      requires article.url !in store.records
      modifies article, store, classifier
      ensures article.url == old(article.url)
      ensures old(store.Valid()) ==> store.Valid()
      ensures status.Success? ==> article.url in store.records && Describes(store.records[article.url], article.Fields())
      ensures status.Success? <==> EnrichSucceeds(old(article.Fields()), old(classifier.script))
      ensures var e := MissPlan(old(article.Fields()), old(store.records), old(classifier.script), now);
              && status == e.status && article.Fields() == e.fields && store.records == e.records
              && classifier.script == e.script && classifier.prompts == old(classifier.prompts) + e.prompts
      ensures var reply := NextReply(old(classifier.script));
              var first := old(classifier.prompts) + [InsightPrompt(old(article.title), old(article.summary))];
              if reply.Unavailable? || reply.parsed.None? then
                && status.Failure? && article.Fields() == old(article.Fields())
                && store.records == old(store.records)
                && classifier.prompts == first && classifier.script == RestOf(old(classifier.script))
              else
                var step := ApplyInsight(old(article.Fields()), reply.parsed.value);
                if !step.complete then
                  && status.Failure? && article.Fields() == step.fields
                  && store.records == old(store.records)
                  && classifier.prompts == first && classifier.script == RestOf(old(classifier.script))
                else
                  var info := FestivalReplyInfo(NextReply(RestOf(old(classifier.script))));
                  && article.Fields() == AfterFestival(step.fields, info)
                  && classifier.prompts == first + [FestivalPrompt(old(article.title), old(article.summary))]
                  && classifier.script == RestOf(RestOf(old(classifier.script)))
                  && (status.Success? <==> FinalThemes(article.themes).Some?)
                  && (status.Success? ==>
                        store.records == old(store.records)[article.url := RecordOf(article.Fields(), FinalThemes(article.themes).value, now)])
                  && (status.Failure? && (info.None? || SubCheckThemes(article.themes).None?) ==> store.records == old(store.records))
                  && (status.Failure? && info.Some? && SubCheckThemes(article.themes).Some? ==>
                        store.records == old(store.records)[article.url := RecordOf(article.Fields(), SubCheckThemes(article.themes).value, now)])
    {
      var reply := classifier.Call(InsightPrompt(article.title, article.summary));
      if reply.Unavailable? {
        return Failure(reply.message);
      }
      if reply.parsed.None? {
        return Failure("JsonProcessingException");
      }
      var complete := ApplyAnswer(article, reply.parsed.value);
      if !complete {
        return Failure("NullPointerException");
      }

      status := SaveEnriched(article, now);
    }

    /**
     * The end of a cache miss: the festival sub-check, setFestivalLinked, and
     * the save of the final record (an NPE instead when there is no theme list
     * or it holds a null, after the sub-check may already have saved its own
     * record).
     */
    method SaveEnriched(article: Article, now: int) returns (status: Status)
      requires article.url !in store.records
      modifies article, store, classifier
      ensures article.url == old(article.url)
      ensures var info := FestivalReplyInfo(NextReply(old(classifier.script)));
              && article.Fields() == AfterFestival(old(article.Fields()), info)
              && classifier.prompts == old(classifier.prompts) + [FestivalPrompt(old(article.title), old(article.summary))]
              && classifier.script == RestOf(old(classifier.script))
              && (status.Success? <==> FinalThemes(article.themes).Some?)
              && (status.Failure? ==> status == Failure("NullPointerException"))
              && (status.Success? ==>
                    store.records == old(store.records)[article.url := RecordOf(article.Fields(), FinalThemes(article.themes).value, now)])
              && (status.Failure? && (info.None? || SubCheckThemes(article.themes).None?) ==> store.records == old(store.records))
              && (status.Failure? && info.Some? && SubCheckThemes(article.themes).Some? ==>
                    store.records == old(store.records)[article.url := RecordOf(article.Fields(), SubCheckThemes(article.themes).value, now)])
    {
      var isLinked := IsFestivalRelated(article, now);
      article.festivalLinked := isLinked;
      var themes := FinalThemes(article.themes);
      if themes.None? {
        return Failure("NullPointerException");
      }
      store.Save(RecordOf(article.Fields(), themes.value, now));
      return Success;
    }
  }
}
