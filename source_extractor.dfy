/**
 * SourceExtractorUtil.extractSource: a publisher label for an article, taken
 * from the first of three places that yields a non-blank text:
 *   1. a `site:` marker in the feed address (regex site:([\w.-]+), then
 *      every "www." removed);
 *   2. the text of the <font> elements of the description markup;
 *   3. the host of the article's own address, one leading "www." removed;
 * with "Unknown" when the address does not parse. The result is trimmed.
 *
 * The markup parser (Jsoup) is the parameter `fontText`; a description that is
 * null, which makes Jsoup throw, is None.
 */
module SourceExtractor {
  import opened Wrappers
  import opened Text

  predicate IsAsciiLetter(c: char) { 'a' <= c <= 'z' || 'A' <= c <= 'Z' }

  /** [\w.-] without UNICODE_CHARACTER_CLASS: [A-Za-z0-9_.-] */
  predicate IsSiteChar(c: char) { IsAsciiLetter(c) || IsDigit(c) || c == '_' || c == '.' || c == '-' }

  /** The end of the run of site characters that starts at `i`. */
  function SiteRunEnd(s: string, i: nat): (e: nat)
    requires i <= |s|
    ensures i <= e <= |s|
    ensures forall k :: i <= k < e ==> IsSiteChar(s[k])
    ensures e < |s| ==> !IsSiteChar(s[e])
    decreases |s| - i
  {
    if i < |s| && IsSiteChar(s[i]) then SiteRunEnd(s, i + 1) else i
  }

  /** The pattern site:([\w.-]+) matches at index `i`. */
  predicate SiteMatchAt(s: string, i: nat) {
    OccursAt(s, "site:", i) && i + 5 < |s| && IsSiteChar(s[i + 5])
  }

  /** Matcher.find from index `i`: the first index where the pattern matches, or |s|. */
  function FindSite(s: string, i: nat): (k: nat)
    requires i <= |s|
    ensures i <= k <= |s|
    ensures forall j :: i <= j < k ==> !SiteMatchAt(s, j)
    ensures k < |s| ==> SiteMatchAt(s, k)
    decreases |s| - i
  {
    if i == |s| then i else if SiteMatchAt(s, i) then i else FindSite(s, i + 1)
  }

  /** matcher.find() ? matcher.group(1) : no match. The greedy + takes the whole run. */
  function SiteGroup(feedUrl: string): Option<string> {
    var k := FindSite(feedUrl, 0);
    if k < |feedUrl| then Some(feedUrl[k + 5..SiteRunEnd(feedUrl, k + 5)]) else None
  }

  /**
   * The group is found exactly when some "site:" is followed by a site character,
   * and it is then the whole run of site characters after the first such "site:".
   */
  lemma SiteGroupMeaning(feedUrl: string)
    ensures SiteGroup(feedUrl).Some? <==> exists i :: 0 <= i < |feedUrl| && SiteMatchAt(feedUrl, i)
    ensures SiteGroup(feedUrl).Some? ==>
      var g := SiteGroup(feedUrl).value;
      var k := FindSite(feedUrl, 0);
      && g != []
      && (forall j :: 0 <= j < |g| ==> IsSiteChar(g[j]))
      && OccursAt(feedUrl, "site:" + g, k)
      && (k + 5 + |g| < |feedUrl| ==> !IsSiteChar(feedUrl[k + 5 + |g|]))
      && (forall j :: 0 <= j < k ==> !SiteMatchAt(feedUrl, j))
  {
    var k := FindSite(feedUrl, 0);
    if k < |feedUrl| {
      var e := SiteRunEnd(feedUrl, k + 5);
      var g := feedUrl[k + 5..e];
      assert feedUrl[k..k + 5] == "site:";
      assert feedUrl[k..k + 5 + |g|] == feedUrl[k..k + 5] + g;
    }
  }

  /** SourceExtractorUtil.isEmpty */
  predicate IsEmptyText(s: Option<string>) {
    s.None? || IsBlank(s.value)
  }

  /** Protocols the JDK has a java.net.URL handler for that the model covers. */
  predicate KnownProtocol(p: string) {
    p == "http" || p == "https" || p == "ftp" || p == "file" || p == "mailto"
  }

  predicate IsSchemeText(s: string) {
    |s| > 0 && IsAsciiLetter(s[0])
    && forall i :: 1 <= i < |s| ==> IsAsciiLetter(s[i]) || IsDigit(s[i]) || s[i] in "+-."
  }

  /** The first index at or after `i` whose character is in `cs`, or |s|. */
  function IndexOfAny(s: string, i: nat, cs: set<char>): (k: nat)
    requires i <= |s|
    ensures i <= k <= |s|
    ensures forall j :: i <= j < k ==> s[j] !in cs
    ensures k < |s| ==> s[k] in cs
    decreases |s| - i
  {
    if i == |s| then i else if s[i] in cs then i else IndexOfAny(s, i + 1, cs)
  }

  /** The host of an authority: after a single '@', before the port; None when the port is not a number. */
  function AuthorityHost(authority: string): Option<string> {
    var at := IndexOfAny(authority, 0, {'@'});
    var host :=
      if at == |authority| then authority
      else if IndexOfAny(authority, at + 1, {'@'}) < |authority| then ""
      else authority[at + 1..];
    if host != [] && host[0] == '[' then Some(host)
    else
      var colon := IndexOfAny(host, 0, {':'});
      if colon == |host| then Some(host)
      else if forall j :: colon < j < |host| ==> IsDigit(host[j]) then Some(host[..colon])
      else None
  }

  /** The spec as java.net.URL reads it: trimmed, without a leading "url:" in any case. */
  function SpecBody(spec: string): string {
    var t := Trim(spec);
    if |t| >= 4 && EqualsIgnoreCase(t[..4], "url:") then t[4..] else t
  }

  /**
   * The host of a trimmed spec: a known scheme, then "//" and an authority or no
   * host at all. URL strips the reference at '#' and the query at '?' before it
   * looks for the '/' that ends the authority, so the authority ends at the first
   * of the three.
   */
  function HostOfBody(u: string): Option<string> {
    var c := IndexOfAny(u, 0, {':', '/', '#'});
    if c == |u| || u[c] != ':' || !IsSchemeText(u[..c]) || !KnownProtocol(ToLower(u[..c])) then None
    else
      var rest := u[c + 1..];
      if StartsWith(rest, "//") then AuthorityHost(rest[2..IndexOfAny(rest, 2, {'/', '?', '#'})])
      else Some("")
  }

  /** new URL(spec).getHost(): None where MalformedURLException is raised. */
  function UrlHost(spec: Option<string>): Option<string> {
    if spec.None? then None else HostOfBody(SpecBody(spec.value))
  }

  /** domain.startsWith("www.") ? domain.substring(4) : domain */
  function StripLeadingWww(domain: string): (r: string)
    ensures StartsWith(domain, "www.") ==> domain == "www." + r
    ensures !StartsWith(domain, "www.") ==> r == domain
  {
    if StartsWith(domain, "www.") then domain[4..] else domain
  }

  /** Step 1: the site marker's group with every "www." removed, if the marker is present. */
  function SiteLabel(feedUrl: string): (r: Option<string>)
    ensures r.Some? <==> SiteGroup(feedUrl).Some?
  {
    if SiteGroup(feedUrl).Some? then Some(RemoveAll(SiteGroup(feedUrl).value, "www.")) else None
  }

  /** Step 3: the address's host without a leading "www.", or "Unknown" when it does not parse. */
  function HostLabel(articleUrl: Option<string>): string {
    match UrlHost(articleUrl)
      case Some(domain) => StripLeadingWww(domain)
      case None => "Unknown"
  }

  /** SourceExtractorUtil.extractSource */
  function ExtractSource(feedUrl: string, summaryHtml: Option<string>, articleUrl: Option<string>,
                         fontText: string -> string): string
  {
    var fromSite := SiteLabel(feedUrl);
    var fromMarkup := if IsEmptyText(fromSite) && summaryHtml.Some? then Some(fontText(summaryHtml.value)) else fromSite;
    if !IsEmptyText(fromMarkup) then Trim(fromMarkup.value) else Trim(HostLabel(articleUrl))
  }

  /**
   * The fallback cascade: the site marker wins whenever it leaves a non-blank
   * label; the markup is consulted only when it does not; the address only when
   * neither does, giving "Unknown" when it does not parse.
   */
  lemma ExtractSourcePriority(feedUrl: string, summaryHtml: Option<string>, articleUrl: Option<string>,
                              fontText: string -> string)
    ensures var r := ExtractSource(feedUrl, summaryHtml, articleUrl, fontText);
            var site := SiteLabel(feedUrl);
            var markup := if summaryHtml.Some? then Some(fontText(summaryHtml.value)) else None;
            && (!IsEmptyText(site) ==> r == Trim(site.value))
            && (IsEmptyText(site) && !IsEmptyText(markup) ==> r == Trim(markup.value))
            && (IsEmptyText(site) && IsEmptyText(markup) ==>
                  r == if UrlHost(articleUrl).Some? then Trim(StripLeadingWww(UrlHost(articleUrl).value)) else "Unknown")
  {
    var site := SiteLabel(feedUrl);
    var markup := if summaryHtml.Some? then Some(fontText(summaryHtml.value)) else None;
    if !IsEmptyText(site) {
      assert ExtractSource(feedUrl, summaryHtml, articleUrl, fontText) == Trim(site.value);
    } else if !IsEmptyText(markup) {
      assert ExtractSource(feedUrl, summaryHtml, articleUrl, fontText) == Trim(markup.value);
    } else {
      var u := "Unknown";
      TrimNoSpace(u);
      assert ExtractSource(feedUrl, summaryHtml, articleUrl, fontText) == Trim(HostLabel(articleUrl));
    }
  }

  /** The label is always trimmed: nothing up to U+0020 at either end. */
  lemma ExtractSourceTrimmed(feedUrl: string, summaryHtml: Option<string>, articleUrl: Option<string>,
                             fontText: string -> string)
    ensures IsTrimmed(ExtractSource(feedUrl, summaryHtml, articleUrl, fontText))
  {
    var site := SiteLabel(feedUrl);
    var markup := if IsEmptyText(site) && summaryHtml.Some? then Some(fontText(summaryHtml.value)) else site;
    if !IsEmptyText(markup) {
      TrimResult(markup.value);
    } else {
      TrimResult(HostLabel(articleUrl));
    }
  }

  /** A "file:" address without "//" parses, with an empty host, whatever the path. */
  lemma FileUrlHasEmptyHost(path: string)
    requires !StartsWith(path, "//")
    requires path == [] || !IsTrimmable(path[|path| - 1])
    ensures UrlHost(Some("file:" + path)) == Some("")
  {
    FileSpecBody(path);
    FileSpecHost(path);
  }

  lemma FileSpecBody(path: string)
    requires path == [] || !IsTrimmable(path[|path| - 1])
    ensures SpecBody("file:" + path) == "file:" + path
  {
    var u := "file:" + path;
    assert u[0] == 'f' && u[|u| - 1] == if path == [] then ':' else path[|path| - 1];
    TrimStartOfTrimmed(u);
    TrimEndOfTrimmed(u);
    assert ToLower(u[..4])[0] == 'f' != ToLower("url:")[0];
  }

  lemma FileSpecHost(path: string)
    requires !StartsWith(path, "//")
    ensures HostOfBody("file:" + path) == Some("")
  {
    var u := "file:" + path;
    assert u[0] == 'f' && u[1] == 'i' && u[2] == 'l' && u[3] == 'e' && u[4] == ':';
    assert IndexOfAny(u, 4, {':', '/', '#'}) == 4;
    assert IndexOfAny(u, 3, {':', '/', '#'}) == 4;
    assert IndexOfAny(u, 2, {':', '/', '#'}) == 4;
    assert IndexOfAny(u, 1, {':', '/', '#'}) == 4;
    assert IndexOfAny(u, 0, {':', '/', '#'}) == 4;
    assert u[..4] == "file" && u[5..] == path;
    assert ToLower("file") == "file";
  }

  /** The label can be empty: a parsed address with an empty host. */
  lemma ExtractSourceMayBeEmpty(feedUrl: string, path: string, fontText: string -> string)
    requires SiteGroup(feedUrl).None?
    requires !StartsWith(path, "//")
    requires path == [] || !IsTrimmable(path[|path| - 1])
    ensures ExtractSource(feedUrl, None, Some("file:" + path), fontText) == ""
  {
    FileUrlHasEmptyHost(path);
    assert HostLabel(Some("file:" + path)) == "";
  }

  /** IndexOfAny's result is determined by its postcondition. */
  lemma IndexOfAnyIs(s: string, i: nat, cs: set<char>, k: nat)
    requires i <= k <= |s|
    requires forall j :: i <= j < k ==> s[j] !in cs
    requires k < |s| ==> s[k] in cs
    ensures IndexOfAny(s, i, cs) == k
    decreases k - i
  {
    if i < k {
      IndexOfAnyIs(s, i + 1, cs, k);
    }
  }

  /**
   * URL cuts the query off at the first '?' before it looks for the end of the
   * authority, so a '/' inside the query does not extend the host.
   */
  lemma QueryEndsHost(h: string, r: string)
    requires h != [] && h[0] != '['
    requires forall j :: 0 <= j < |h| ==> h[j] !in {'/', '?', '#', '@', ':'}
    ensures HostOfBody("http://" + h + "?" + r) == Some(h)
  {
    var u := "http://" + h + "?" + r;
    IndexOfAnyIs(u, 0, {':', '/', '#'}, 4);
    assert u[..4] == "http" && ToLower("http") == "http";
    var rest := u[5..];
    assert rest == "//" + h + "?" + r;
    forall j | 2 <= j < 2 + |h| ensures rest[j] !in {'/', '?', '#'} {
      assert rest[j] == h[j - 2];
    }
    IndexOfAnyIs(rest, 2, {'/', '?', '#'}, 2 + |h|);
    assert rest[2..2 + |h|] == h;
    IndexOfAnyIs(h, 0, {'@'}, |h|);
    IndexOfAnyIs(h, 0, {':'}, |h|);
  }

  /** The host of "http://a?b/c" is "a". */
  lemma QueryEndsHostExample()
    ensures HostOfBody("http://a?b/c") == Some("a")
  {
    QueryEndsHost("a", "b/c");
    assert "http://" + "a" + "?" + "b/c" == "http://a?b/c";
  }

  /** Every "www." goes, not only a leading one. */
  lemma SiteMarkerDropsInnerWww()
    ensures RemoveAll("awww.b", "www.") == "ab"
  {
    assert "awww.b"[..4][0] != "www."[0];
    assert "awww.b"[1..] == "www.b";
    assert "www.b"[..4] == "www.";
    assert "www.b"[4..] == "b";
  }
}
