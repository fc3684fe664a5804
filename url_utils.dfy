/**
 * UrlUtils.normalize: parse an address as a java.net.URI, and rebuild it from
 * its scheme, authority and path alone, dropping the query and the fragment.
 * Either step may raise URISyntaxException, in which case the input is returned.
 *
 * The parser follows the shape of java.net.URI's: a scheme is what precedes the
 * first ':' when no '/', '?' or '#' comes before it; "//" opens an authority
 * (an empty one is reported as absent); the path runs to the first '?' or '#';
 * the query to the first '#'; a second '#' is an illegal character.
 */
module UrlUtils {
  import opened Wrappers
  import opened Text

  datatype Uri =
    | Hierarchical(scheme: Option<string>, authority: Option<string>, path: string,
                   query: Option<string>, fragment: Option<string>)
    | Opaque(opaqueScheme: string, schemeSpecificPart: string, fragment: Option<string>)

  /** The first index at or after `p` whose character is in `cs`, or |s| (URI.Parser.scan). */
  function Scan(s: string, p: nat, cs: set<char>): (k: nat)
    requires p <= |s|
    ensures p <= k <= |s|
    ensures forall i :: p <= i < k ==> s[i] !in cs
    ensures k < |s| ==> s[k] in cs
    decreases |s| - p
  {
    if p == |s| then p else if s[p] in cs then p else Scan(s, p + 1, cs)
  }

  /** Scan's result is determined by its postcondition. */
  lemma ScanIs(s: string, p: nat, cs: set<char>, k: nat)
    requires p <= k <= |s|
    requires forall i :: p <= i < k ==> s[i] !in cs
    requires k < |s| ==> s[k] in cs
    ensures Scan(s, p, cs) == k
  {
  }

  predicate IsAlpha(c: char) { 'a' <= c <= 'z' || 'A' <= c <= 'Z' }

  predicate IsSchemeChar(c: char) { IsAlpha(c) || IsDigit(c) || c in "+-." }

  /** scheme = alpha *( alpha | digit | "+" | "-" | "." ) */
  predicate ValidScheme(s: string) {
    |s| > 0 && IsAlpha(s[0]) && forall i :: 1 <= i < |s| ==> IsSchemeChar(s[i])
  }

  predicate IsIsoControl(c: char) { c <= '\U{1F}' || ('\U{7F}' <= c <= '\U{9F}') }

  /** Character.isSpaceChar */
  predicate IsSpaceChar(c: char) {
    c == ' ' || c == '\U{A0}' || c == '\U{1680}' || ('\U{2000}' <= c <= '\U{200A}')
    || c == '\U{2028}' || c == '\U{2029}' || c == '\U{202F}' || c == '\U{205F}' || c == '\U{3000}'
  }

  /** The characters java.net.URI accepts in some component, delimiters included. */
  predicate IsUriChar(c: char) {
    || IsAlpha(c) || IsDigit(c)
    || c in "-_.!~*'()"
    || c in ";/?:@&=+$,[]%#"
    || (c > '\U{7F}' && !IsIsoControl(c) && !IsSpaceChar(c))
  }

  predicate AllUriChars(s: string) {
    forall i :: 0 <= i < |s| ==> IsUriChar(s[i])
  }

  /** new URI(s): the parsed components, or None where URISyntaxException is raised. */
  function Parse(s: string): Option<Uri> {
    if !AllUriChars(s) then None
    else
      var c := Scan(s, 0, {':', '/', '?', '#'});
      if c < |s| && s[c] == ':' then
        if !ValidScheme(s[..c]) then None
        else if c + 1 < |s| && s[c + 1] == '/' then ParseHierarchical(s, c + 1, Some(s[..c]))
        else
          var q := Scan(s, c + 1, {'#'});
          if q == c + 1 then None
          else
            match ParseFragment(s, q)
            case None => None
            case Some(f) => Some(Opaque(s[..c], s[c + 1..q], f))
      else ParseHierarchical(s, 0, None)
  }

  /** The fragment that starts at `p`, if any; None when a second '#' makes it illegal. */
  function ParseFragment(s: string, p: nat): Option<Option<string>>
    requires p <= |s|
  {
    if p == |s| then Some(None)
    else if Scan(s, p + 1, {'#'}) < |s| then None
    else Some(Some(s[p + 1..]))
  }

  /** "//" at `p` opens an authority. */
  predicate HasAuthority(s: string, p: nat)
    requires p <= |s|
  {
    p + 1 < |s| && s[p] == '/' && s[p + 1] == '/'
  }

  /** Where the authority (if any) that starts at `p` ends and the path begins. */
  function AuthorityEnd(s: string, p: nat): (q: nat)
    requires p <= |s|
    ensures p <= q <= |s|
  {
    if HasAuthority(s, p) then Scan(s, p + 2, {'/', '?', '#'}) else p
  }

  /** Where the path that follows the authority ends. */
  function PathEnd(s: string, p: nat): (pe: nat)
    requires p <= |s|
    ensures AuthorityEnd(s, p) <= pe <= |s|
  {
    Scan(s, AuthorityEnd(s, p), {'?', '#'})
  }

  /** [ "//" authority ] path [ "?" query ] [ "#" fragment ], starting at `p`. */
  function ParseHierarchical(s: string, p: nat, scheme: Option<string>): Option<Uri>
    requires p <= |s|
  {
    var q := AuthorityEnd(s, p);
    if HasAuthority(s, p) && q == p + 2 && q == |s| then None
    else
      var authority := if HasAuthority(s, p) && q > p + 2 then Some(s[p + 2..q]) else None;
      var pe := PathEnd(s, p);
      var hasQuery := pe < |s| && s[pe] == '?';
      var qe := if hasQuery then Scan(s, pe + 1, {'#'}) else pe;
      match ParseFragment(s, qe)
      case None => None
      case Some(f) =>
        Some(Hierarchical(scheme, authority, s[q..pe], if hasQuery then Some(s[pe + 1..qe]) else None, f))
  }

  /** The text new URI(scheme, authority, path, null, null) is built from before it is re-parsed. */
  function Rebuild(scheme: Option<string>, authority: Option<string>, path: Option<string>): string {
    (if scheme.Some? then scheme.value + ":" else "")
    + (if authority.Some? then "//" + authority.value else "")
    + path.GetOr("")
  }

  /** UrlUtils.normalize */
  function Normalize(url: string): string {
    match Parse(url)
    case None => url
    case Some(u) =>
      var rebuilt :=
        match u
        case Hierarchical(scheme, authority, path, _, _) => Rebuild(scheme, authority, Some(path))
        case Opaque(scheme, _, _) => Rebuild(Some(scheme), None, None);
      if Parse(rebuilt).Some? then rebuilt else url
  }

  /** The first ':' or '/' of a scheme-less, authority-less path is not a ':'. */
  predicate NoSchemeInPath(path: string) {
    var k := Scan(path, 0, {':', '/', '?', '#'});
    k == |path| || path[k] != ':'
  }

  /** What the parser guarantees of the hierarchical components it returns. */
  predicate ParsedParts(scheme: Option<string>, authority: Option<string>, path: string) {
    && (scheme.Some? ==> ValidScheme(scheme.value))
    && (authority.Some? ==> authority.value != [] && AllUriChars(authority.value)
                            && '/' !in authority.value && '?' !in authority.value && '#' !in authority.value)
    && AllUriChars(path) && '?' !in path && '#' !in path
    && (authority.Some? ==> path == [] || path[0] == '/')
    && (scheme.Some? && authority.None? ==> path == [] || path[0] == '/')
    && (scheme.None? && authority.None? ==> NoSchemeInPath(path))
  }

  /** Components whose rebuilt text parses back to themselves. */
  predicate RebuildableParts(scheme: Option<string>, authority: Option<string>, path: string) {
    && ParsedParts(scheme, authority, path)
    && (scheme.Some? && authority.None? ==> path != [])
    && (authority.None? ==> !StartsWith(path, "//"))
  }

  lemma AllUriCharsConcat(a: string, b: string)
    requires AllUriChars(a) && AllUriChars(b)
    ensures AllUriChars(a + b)
  {
    forall i | 0 <= i < |a + b| ensures IsUriChar((a + b)[i]) {
      if i >= |a| {
        assert (a + b)[i] == b[i - |a|];
      }
    }
  }

  lemma ValidSchemeChars(x: string)
    requires ValidScheme(x)
    ensures AllUriChars(x)
    ensures forall i :: 0 <= i < |x| ==> x[i] !in {':', '/', '?', '#'}
  {
  }

  lemma DoubleSlashPrefix(path: string)
    ensures |path| >= 2 && path[0] == '/' && path[1] == '/' ==> StartsWith(path, "//")
  {
    if |path| >= 2 {
      assert path[..2] == [path[0], path[1]];
    }
  }

  /** Where an authority laid out at `p` ends. */
  lemma AuthorityLayout(t: string, p: nat, authority: Option<string>, path: string)
    requires p <= |t|
    requires t[p..] == (if authority.Some? then "//" + authority.value else "") + path
    requires authority.Some? ==> authority.value != [] && '/' !in authority.value
                                 && '?' !in authority.value && '#' !in authority.value
    requires authority.Some? ==> path == [] || path[0] == '/'
    requires authority.None? ==> !StartsWith(path, "//")
    ensures HasAuthority(t, p) == authority.Some?
    ensures t[AuthorityEnd(t, p)..] == path
    ensures authority.Some? ==> AuthorityEnd(t, p) > p + 2 && t[p + 2..AuthorityEnd(t, p)] == authority.value
  {
    if authority.Some? {
      AuthorityLayoutSome(t, p, authority.value, path);
    } else {
      assert |t| == p + |t[p..]|;
      assert p + 1 < |t| ==> t[p] == path[0] && t[p + 1] == path[1];
      DoubleSlashPrefix(path);
    }
  }

  /** "//" authority path at `p`: the authority ends where the path begins. */
  lemma AuthorityLayoutSome(t: string, p: nat, a: string, path: string)
    requires p <= |t| && t[p..] == "//" + a + path
    requires a != [] && '/' !in a && '?' !in a && '#' !in a
    requires path == [] || path[0] == '/'
    ensures HasAuthority(t, p) && AuthorityEnd(t, p) == p + 2 + |a|
    ensures t[p + 2..p + 2 + |a|] == a && t[p + 2 + |a|..] == path
  {
    assert |t| == p + |t[p..]|;
    assert t[p] == '/' && t[p + 1] == '/';
    var q := p + 2 + |a|;
    forall i | p + 2 <= i < q ensures t[i] !in {'/', '?', '#'} {
      assert t[i] == t[p..][i - p] == a[i - p - 2];
    }
    if q < |t| {
      assert t[q] == t[p..][q - p] == path[0];
    }
    ScanIs(t, p + 2, {'/', '?', '#'}, q);
    assert t[p + 2..q] == a;
    assert t[q..] == path;
  }

  /** The parser reads [ "//" authority ] path back from text laid out that way at `p`. */
  lemma ParseHierarchicalAt(t: string, p: nat, scheme: Option<string>, authority: Option<string>, path: string)
    requires p <= |t|
    requires t[p..] == (if authority.Some? then "//" + authority.value else "") + path
    requires authority.Some? ==> authority.value != [] && '/' !in authority.value
                                 && '?' !in authority.value && '#' !in authority.value
    requires '?' !in path && '#' !in path
    requires authority.Some? ==> path == [] || path[0] == '/'
    requires authority.None? ==> !StartsWith(path, "//")
    ensures ParseHierarchical(t, p, scheme) == Some(Hierarchical(scheme, authority, path, None, None))
  {
    AuthorityLayout(t, p, authority, path);
    var q := AuthorityEnd(t, p);
    forall i | q <= i < |t| ensures t[i] !in {'?', '#'} {
      assert t[i] == t[q..][i - q] == path[i - q];
    }
    ScanIs(t, q, {'?', '#'}, |t|);
    assert PathEnd(t, p) == |t|;
    assert ParseFragment(t, |t|) == Some(None);
    assert t[q..|t|] == path;
  }

  /** The text of [ "//" authority ] path. */
  function HierText(authority: Option<string>, path: string): string {
    (if authority.Some? then "//" + authority.value else "") + path
  }

  lemma HierTextChars(authority: Option<string>, path: string)
    requires ParsedParts(None, authority, path)
    ensures AllUriChars(HierText(authority, path))
  {
    if authority.Some? {
      AllUriCharsConcat("//", authority.value);
    }
    AllUriCharsConcat(if authority.Some? then "//" + authority.value else "", path);
  }

  lemma ParseRebuildWithScheme(x: string, authority: Option<string>, path: string)
    requires RebuildableParts(Some(x), authority, path)
    ensures Parse(Rebuild(Some(x), authority, Some(path))) == Some(Hierarchical(Some(x), authority, path, None, None))
  {
    var h := HierText(authority, path);
    HierTextChars(authority, path);
    assert h != [] && h[0] == '/';
    var t := Rebuild(Some(x), authority, Some(path));
    assert t == (x + ":") + h;
    ParseSchemeText(x, h, t);
    ParseHierarchicalAt(t, |x| + 1, Some(x), authority, path);
  }

  /** "scheme:" before a text starting with '/' parses as that scheme and a hierarchical part from the text. */
  lemma ParseSchemeText(x: string, h: string, t: string)
    requires ValidScheme(x) && AllUriChars(h) && h != [] && h[0] == '/' && t == (x + ":") + h
    ensures |x| + 1 <= |t| && t[|x| + 1..] == h && Parse(t) == ParseHierarchical(t, |x| + 1, Some(x))
  {
    SchemeText(x, h);
  }

  /** "scheme:" before a text starting with '/': the scheme ends at the first ':' and the text follows it. */
  lemma SchemeText(x: string, h: string)
    requires ValidScheme(x) && AllUriChars(h) && h != [] && h[0] == '/'
    ensures var t := (x + ":") + h;
            && AllUriChars(t) && Scan(t, 0, {':', '/', '?', '#'}) == |x| && t[|x|] == ':'
            && t[..|x|] == x && t[|x| + 1] == '/' && t[|x| + 1..] == h
  {
    var t := (x + ":") + h;
    ValidSchemeChars(x);
    AllUriCharsConcat(x, ":");
    AllUriCharsConcat(x + ":", h);
    forall i | 0 <= i < |x| ensures t[i] !in {':', '/', '?', '#'} {
      assert t[i] == x[i];
    }
    ScanIs(t, 0, {':', '/', '?', '#'}, |x|);
    assert t[..|x|] == x;
    assert t[|x| + 1..] == h;
  }

  lemma ParseRebuildWithoutScheme(authority: Option<string>, path: string)
    requires RebuildableParts(None, authority, path)
    ensures Parse(Rebuild(None, authority, Some(path))) == Some(Hierarchical(None, authority, path, None, None))
  {
    var t := Rebuild(None, authority, Some(path));
    assert t == HierText(authority, path);
    HierTextChars(authority, path);
    if authority.Some? {
      assert t[0] == '/';
      ScanIs(t, 0, {':', '/', '?', '#'}, 0);
    } else {
      assert t == path;
    }
    assert t[0..] == t;
    ParseHierarchicalAt(t, 0, None, authority, path);
  }

  /** Rebuilding parsed components that are rebuildable and re-parsing gives them back, with no query or fragment. */
  lemma ParseRebuild(scheme: Option<string>, authority: Option<string>, path: string)
    requires RebuildableParts(scheme, authority, path)
    ensures Parse(Rebuild(scheme, authority, Some(path))) == Some(Hierarchical(scheme, authority, path, None, None))
  {
    if scheme.Some? {
      ParseRebuildWithScheme(scheme.value, authority, path);
    } else {
      ParseRebuildWithoutScheme(authority, path);
    }
  }

  /** "scheme:" alone does not parse: the scheme-specific part is missing. */
  lemma ParseSchemeOnly(x: string)
    requires ValidScheme(x)
    ensures Parse(Rebuild(Some(x), None, None)) == None
  {
    var t := Rebuild(Some(x), None, None);
    assert t == x + ":";
    ValidSchemeChars(x);
    AllUriCharsConcat(x, ":");
    forall i | 0 <= i < |x| ensures t[i] !in {':', '/', '?', '#'} {
      assert t[i] == x[i];
    }
    ScanIs(t, 0, {':', '/', '?', '#'}, |x|);
    assert t[..|x|] == x;
    ScanIs(t, |x| + 1, {'#'}, |x| + 1);
  }

  lemma SliceChars(s: string, i: nat, j: nat, cs: set<char>)
    requires i <= j <= |s|
    requires forall k :: i <= k < j ==> s[k] !in cs
    ensures forall c :: c in cs ==> c !in s[i..j]
  {
    forall c | c in cs ensures c !in s[i..j] {
      assert forall m :: 0 <= m < j - i ==> s[i..j][m] == s[i + m];
    }
  }

  lemma SliceUriChars(s: string, i: nat, j: nat)
    requires i <= j <= |s| && AllUriChars(s)
    ensures AllUriChars(s[i..j])
  {
    forall k | 0 <= k < j - i ensures IsUriChar(s[i..j][k]) {
      assert s[i..j][k] == s[i + k];
    }
  }

  /** The path runs from the end of the authority to the first '?' or '#'. */
  lemma PathFacts(s: string, p: nat)
    requires p <= |s| && AllUriChars(s)
    ensures var path := s[AuthorityEnd(s, p)..PathEnd(s, p)];
            AllUriChars(path) && '?' !in path && '#' !in path
    ensures var path := s[AuthorityEnd(s, p)..PathEnd(s, p)];
            path != [] ==> path[0] == s[AuthorityEnd(s, p)]
    ensures HasAuthority(s, p) ==> var path := s[AuthorityEnd(s, p)..PathEnd(s, p)];
            path == [] || path[0] == '/'
  {
    var q, pe := AuthorityEnd(s, p), PathEnd(s, p);
    SliceChars(s, q, pe, {'?', '#'});
    SliceUriChars(s, q, pe);
  }

  /** A non-empty authority has no '/', '?' or '#'. */
  lemma AuthorityFacts(s: string, p: nat)
    requires p <= |s| && AllUriChars(s) && HasAuthority(s, p)
    ensures var a := s[p + 2..AuthorityEnd(s, p)];
            AllUriChars(a) && '/' !in a && '?' !in a && '#' !in a
  {
    SliceChars(s, p + 2, AuthorityEnd(s, p), {'/', '?', '#'});
    SliceUriChars(s, p + 2, AuthorityEnd(s, p));
  }

  /** A query runs to the first '#'. */
  lemma QueryFacts(s: string, pe: nat)
    requires pe < |s|
    ensures '#' !in s[pe + 1..Scan(s, pe + 1, {'#'})]
  {
    SliceChars(s, pe + 1, Scan(s, pe + 1, {'#'}), {'#'});
  }

  /** Without a scheme and an authority, the path is a prefix of the input: its first ':' or '/' is a '/'. */
  lemma NoSchemePath(s: string)
    requires !HasAuthority(s, 0)
    requires var c := Scan(s, 0, {':', '/', '?', '#'}); c == |s| || s[c] != ':'
    ensures NoSchemeInPath(s[..PathEnd(s, 0)])
  {
    var c, pe := Scan(s, 0, {':', '/', '?', '#'}), PathEnd(s, 0);
    var path := s[..pe];
    var k := if c < pe then c else pe;
    forall i | 0 <= i < k ensures path[i] !in {':', '/', '?', '#'} {
      assert path[i] == s[i];
    }
    if k < |path| {
      assert path[k] == s[k];
    }
    ScanIs(path, 0, {':', '/', '?', '#'}, k);
  }

  lemma ParseHierarchicalParts(s: string, p: nat, scheme: Option<string>)
    requires p <= |s| && AllUriChars(s)
    requires scheme.Some? ==> ValidScheme(scheme.value) && p < |s| && s[p] == '/'
    requires scheme.None? ==> p == 0 && (var c := Scan(s, 0, {':', '/', '?', '#'}); c == |s| || s[c] != ':')
    requires ParseHierarchical(s, p, scheme).Some?
    ensures var u := ParseHierarchical(s, p, scheme).value;
            u.Hierarchical? && u.scheme == scheme && ParsedParts(u.scheme, u.authority, u.path)
  {
    var u := ParseHierarchical(s, p, scheme).value;
    ParseHierarchicalFields(s, p, scheme);
    assert u.authority.Some? ==>
             && u.authority.value != [] && AllUriChars(u.authority.value)
             && '/' !in u.authority.value && '?' !in u.authority.value && '#' !in u.authority.value
             && (u.path == [] || u.path[0] == '/') by {
      HierarchicalAuthorityParts(s, p, scheme);
    }
    assert && AllUriChars(u.path) && '?' !in u.path && '#' !in u.path
           && (scheme.Some? && u.authority.None? ==> u.path == [] || u.path[0] == '/')
           && (scheme.None? && u.authority.None? ==> NoSchemeInPath(u.path)) by {
      HierarchicalPathParts(s, p, scheme);
    }
  }

  /** A parsed query stops before the first '#'. */
  lemma ParseHierarchicalQuery(s: string, p: nat, scheme: Option<string>)
    requires p <= |s| && ParseHierarchical(s, p, scheme).Some?
    ensures var u := ParseHierarchical(s, p, scheme).value;
            u.query.Some? ==> '#' !in u.query.value
  {
    var u := ParseHierarchical(s, p, scheme).value;
    ParseHierarchicalFields(s, p, scheme);
    if u.query.Some? {
      QueryFacts(s, PathEnd(s, p));
    }
  }

  /** A parsed authority is non-empty and free of '/', '?' and '#', and a path after it starts with '/'. */
  lemma HierarchicalAuthorityParts(s: string, p: nat, scheme: Option<string>)
    requires p <= |s| && AllUriChars(s) && ParseHierarchical(s, p, scheme).Some?
    ensures var u := ParseHierarchical(s, p, scheme).value;
            u.authority.Some? ==>
              && u.authority.value != [] && AllUriChars(u.authority.value)
              && '/' !in u.authority.value && '?' !in u.authority.value && '#' !in u.authority.value
              && (u.path == [] || u.path[0] == '/')
  {
    var u := ParseHierarchical(s, p, scheme).value;
    ParseHierarchicalFields(s, p, scheme);
    if u.authority.Some? {
      AuthorityFacts(s, p);
      PathFacts(s, p);
    }
  }

  /** A parsed path has no '?' or '#', starts with '/' after a scheme, and hides no scheme without one. */
  lemma HierarchicalPathParts(s: string, p: nat, scheme: Option<string>)
    requires p <= |s| && AllUriChars(s)
    requires scheme.Some? ==> p < |s| && s[p] == '/'
    requires scheme.None? ==> p == 0 && (var c := Scan(s, 0, {':', '/', '?', '#'}); c == |s| || s[c] != ':')
    requires ParseHierarchical(s, p, scheme).Some?
    ensures var u := ParseHierarchical(s, p, scheme).value;
            && AllUriChars(u.path) && '?' !in u.path && '#' !in u.path
            && (scheme.Some? && u.authority.None? ==> u.path == [] || u.path[0] == '/')
            && (scheme.None? && u.authority.None? ==> NoSchemeInPath(u.path))
  {
    var u := ParseHierarchical(s, p, scheme).value;
    ParseHierarchicalFields(s, p, scheme);
    PathFacts(s, p);
    if scheme.None? && u.authority.None? {
      if !HasAuthority(s, 0) {
        NoSchemePath(s);
      } else if u.path != [] {
        ScanIs(u.path, 0, {':', '/', '?', '#'}, 0);
      }
    }
  }

  /** Where each component of a hierarchical parse comes from. */
  lemma ParseHierarchicalFields(s: string, p: nat, scheme: Option<string>)
    requires p <= |s| && ParseHierarchical(s, p, scheme).Some?
    ensures var u := ParseHierarchical(s, p, scheme).value;
            var q, pe := AuthorityEnd(s, p), PathEnd(s, p);
            && u.Hierarchical? && u.scheme == scheme && u.path == s[q..pe]
            && (u.authority.Some? ==> HasAuthority(s, p) && u.authority.value == s[p + 2..q])
            && (!HasAuthority(s, p) ==> q == p)
            && (u.query.Some? ==> pe < |s| && s[pe] == '?' && u.query.value == s[pe + 1..Scan(s, pe + 1, {'#'})])
  {
  }

  /** The components Parse returns for a hierarchical URI satisfy ParsedParts. */
  lemma ParseGivesParsedParts(s: string)
    requires Parse(s).Some? && Parse(s).value.Hierarchical?
    ensures var u := Parse(s).value; ParsedParts(u.scheme, u.authority, u.path)
  {
    var c := Scan(s, 0, {':', '/', '?', '#'});
    if c < |s| && s[c] == ':' {
      ParseHierarchicalParts(s, c + 1, Some(s[..c]));
    } else {
      ParseHierarchicalParts(s, 0, None);
    }
  }

  /** Opaque URIs come back unchanged: "scheme:" alone does not parse. */
  lemma NormalizeOpaque(url: string)
    requires Parse(url).Some? && Parse(url).value.Opaque?
    ensures Normalize(url) == url
  {
    var c := Scan(url, 0, {':', '/', '?', '#'});
    assert Parse(url).value.opaqueScheme == url[..c];
    ParseSchemeOnly(url[..c]);
  }

  /**
   * Normalizing a hierarchical URI keeps its scheme, authority and path, and
   * drops its query and fragment. "scheme:" with nothing after it does not
   * parse, so such an input comes back unchanged.
   */
  lemma NormalizeHierarchical(url: string)
    requires Parse(url).Some? && Parse(url).value.Hierarchical?
    ensures var u := Parse(url).value;
            Normalize(url) == url || Normalize(url) == Rebuild(u.scheme, u.authority, Some(u.path))
    ensures var u := Parse(url).value;
            u.scheme.Some? && u.authority.None? && u.path == [] ==> Normalize(url) == url
    ensures var u := Parse(url).value;
            RebuildableParts(u.scheme, u.authority, u.path) ==>
              && Normalize(url) == Rebuild(u.scheme, u.authority, Some(u.path))
              && Parse(Normalize(url)) == Some(Hierarchical(u.scheme, u.authority, u.path, None, None))
  {
    var u := Parse(url).value;
    ParseGivesParsedParts(url);
    if u.scheme.Some? && u.authority.None? && u.path == [] {
      assert Rebuild(u.scheme, u.authority, Some(u.path)) == Rebuild(u.scheme, None, None);
      ParseSchemeOnly(u.scheme.value);
    } else if RebuildableParts(u.scheme, u.authority, u.path) {
      ParseRebuild(u.scheme, u.authority, u.path);
    }
  }

  /** A hierarchical URI whose empty authority is followed by a "//" path. */
  predicate DoubleSlashPath(url: string) {
    match Parse(url)
    case Some(Hierarchical(_, None, path, _, _)) => StartsWith(path, "//")
    case _ => false
  }

  /** The result of normalize is the input, or has neither a query nor a fragment. */
  lemma NormalizeDropsQueryAndFragment(url: string)
    ensures Normalize(url) == url || ('?' !in Normalize(url) && '#' !in Normalize(url))
  {
    if Normalize(url) != url {
      var u := Parse(url).value;
      if u.Opaque? {
        NormalizeOpaque(url);
      } else {
        NormalizeHierarchical(url);
        ParseGivesParsedParts(url);
        var t := Rebuild(u.scheme, u.authority, Some(u.path));
        assert Normalize(url) == t;
        var a := if u.authority.Some? then "//" + u.authority.value else "";
        assert '?' !in a && '#' !in a;
        assert t == (if u.scheme.Some? then u.scheme.value + ":" else "") + a + u.path;
        if u.scheme.Some? {
          ValidSchemeChars(u.scheme.value);
        }
      }
    }
  }

  /** normalize(normalize(u)) == normalize(u), outside the empty-authority-then-"//" corner. */
  lemma NormalizeIdempotent(url: string)
    requires !DoubleSlashPath(url)
    ensures Normalize(Normalize(url)) == Normalize(url)
  {
    match Parse(url)
    case None =>
    case Some(u) =>
      if u.Opaque? {
        NormalizeOpaque(url);
      } else {
        NormalizeHierarchical(url);
        ParseGivesParsedParts(url);
        if RebuildableParts(u.scheme, u.authority, u.path) {
          var t := Normalize(url);
          assert Parse(t) == Some(Hierarchical(u.scheme, u.authority, u.path, None, None));
        }
      }
  }

  /**
   * The corner above, written out: normalizing "http://///x" gives "http:///x",
   * whose empty authority is followed by "/x", and normalizing that gives "http:/x".
   */
  lemma NormalizeNotIdempotent()
    ensures Normalize("http://///x") == "http:///x"
    ensures Normalize("http:///x") == "http:/x"
    ensures Normalize(Normalize("http://///x")) != Normalize("http://///x")
  {
    NormalizeFirstStep("http://///x", "http:///x");
    NormalizeSecondStep("http:///x", "http:/x");
  }

  /** The first normalization of the counterexample. */
  lemma NormalizeFirstStep(s1: string, s2: string)
    requires s1 == "http://///x" && s2 == "http:///x"
    ensures Normalize(s1) == s2
  {
    ParseFirst(s1);
    ParseSecond(s2);
    NormalizeRebuilt(s1, Hierarchical(Some("http"), None, "///x", None, None), s2);
  }

  /** The second normalization of the counterexample. */
  lemma NormalizeSecondStep(s2: string, s3: string)
    requires s2 == "http:///x" && s3 == "http:/x"
    ensures Normalize(s2) == s3
  {
    ParseSecond(s2);
    ParseThird(s3);
    NormalizeRebuilt(s2, Hierarchical(Some("http"), None, "/x", None, None), s3);
  }

  /** "http://///x" has no authority and the path "///x". */
  lemma ParseFirst(s1: string)
    requires s1 == "http://///x"
    ensures Parse(s1) == Some(Hierarchical(Some("http"), None, "///x", None, None))
  {
    ParseEmptyAuthority(s1, "///x");
  }

  /** "http:///x" has no authority and the path "/x". */
  lemma ParseSecond(s2: string)
    requires s2 == "http:///x"
    ensures Parse(s2) == Some(Hierarchical(Some("http"), None, "/x", None, None))
  {
    ParseEmptyAuthority(s2, "/x");
  }

  /** "http:/x" has no authority and the path "/x". */
  lemma ParseThird(s3: string)
    requires s3 == "http:/x"
    ensures Parse(s3) == Some(Hierarchical(Some("http"), None, "/x", None, None))
  {
    ParseSchemePath(s3, "/x");
  }

  /** A hierarchical URI whose rebuilt text parses is normalized to that text. */
  lemma NormalizeRebuilt(url: string, u: Uri, t: string)
    requires Parse(url) == Some(u) && u.Hierarchical?
    requires t == Rebuild(u.scheme, u.authority, Some(u.path)) && Parse(t).Some?
    ensures Normalize(url) == t
  {
  }

  /** "http:" + "//" followed at once by `path`: the authority is empty, hence absent. */
  lemma ParseEmptyAuthority(s: string, path: string)
    requires s == "http://" + path && path != [] && path[0] == '/' && AllUriChars(path)
    requires '?' !in path && '#' !in path
    ensures Parse(s) == Some(Hierarchical(Some("http"), None, path, None, None))
  {
    assert AllUriChars("//" + path) by { AllUriCharsConcat("//", path); }
    HttpPrefix(s, "//" + path);
    ScanIs(s, 7, {'/', '?', '#'}, 7);
    PathScan(s, 7, path);
    assert HasAuthority(s, 5) && AuthorityEnd(s, 5) == 7 && PathEnd(s, 5) == |s|;
    assert ParseHierarchical(s, 5, Some(s[..4])) == Some(Hierarchical(Some("http"), None, path, None, None));
  }

  /** "http:" followed by a path that does not open an authority. */
  lemma ParseSchemePath(s: string, path: string)
    requires s == "http:" + path && |path| >= 2 && path[0] == '/' && path[1] != '/' && AllUriChars(path)
    requires '?' !in path && '#' !in path
    ensures Parse(s) == Some(Hierarchical(Some("http"), None, path, None, None))
  {
    HttpPrefix(s, path);
    PathScan(s, 5, path);
    assert !HasAuthority(s, 5) && AuthorityEnd(s, 5) == 5 && PathEnd(s, 5) == |s|;
    assert ParseHierarchical(s, 5, Some(s[..4])) == Some(Hierarchical(Some("http"), None, path, None, None));
  }

  /** The scheme "http" of a text "http:" + rest. */
  lemma HttpPrefix(s: string, rest: string)
    requires s == "http:" + rest && AllUriChars(rest)
    ensures AllUriChars(s) && Scan(s, 0, {':', '/', '?', '#'}) == 4
    ensures s[4] == ':' && s[..4] == "http" && ValidScheme(s[..4]) && s[5..] == rest
  {
    AllUriCharsConcat("http:", rest);
    ScanIs(s, 0, {':', '/', '?', '#'}, 4);
    assert s[..4] == "http";
  }

  /** A suffix without '?' and '#' is path to the end of the text. */
  lemma PathScan(s: string, from: nat, suffix: string)
    requires from <= |s| && s[from..] == suffix && '?' !in suffix && '#' !in suffix
    ensures Scan(s, from, {'?', '#'}) == |s| && s[from..|s|] == suffix
  {
    forall i | from <= i < |s| ensures s[i] !in {'?', '#'} {
      assert s[i] == suffix[i - from];
    }
    ScanIs(s, from, {'?', '#'}, |s|);
  }

  /**
   * normalize as its use as a cache key needs it: the rebuilt text is taken
   * only when it parses back to the components it was built from; otherwise
   * the input is kept, as it already is for a rebuilt text that does not parse.
   */
  function StableNormalize(url: string): string {
    match Parse(url)
    case None => url
    case Some(u) =>
      var rebuilt :=
        match u
        case Hierarchical(scheme, authority, path, _, _) => Rebuild(scheme, authority, Some(path))
        case Opaque(scheme, _, _) => Rebuild(Some(scheme), None, None);
      if u.Hierarchical? && Parse(rebuilt) == Some(Hierarchical(u.scheme, u.authority, u.path, None, None))
      then rebuilt else url
  }

  /** The corrected normalize is idempotent on every input. */
  lemma StableNormalizeIdempotent(url: string)
    ensures StableNormalize(StableNormalize(url)) == StableNormalize(url)
  {
    match Parse(url)
    case None =>
    case Some(u) =>
      if u.Hierarchical? {
        var t := Rebuild(u.scheme, u.authority, Some(u.path));
        if Parse(t) == Some(Hierarchical(u.scheme, u.authority, u.path, None, None)) {
          assert StableNormalize(url) == t;
          assert StableNormalize(t) == t;
        }
      }
  }

  /** Outside the corner, the corrected normalize is the one of the source. */
  lemma StableNormalizeAgrees(url: string)
    requires !DoubleSlashPath(url)
    ensures StableNormalize(url) == Normalize(url)
  {
    match Parse(url)
    case None =>
    case Some(u) =>
      if u.Opaque? {
        NormalizeOpaque(url);
      } else {
        NormalizeHierarchical(url);
        ParseGivesParsedParts(url);
        if u.scheme.Some? && u.authority.None? && u.path == [] {
          ParseSchemeOnly(u.scheme.value);
          assert Rebuild(u.scheme, u.authority, Some(u.path)) == u.scheme.value + ":";
        }
      }
  }

  /** In the corner, the corrected normalize keeps the input. */
  lemma StableNormalizeCorner(s1: string, s2: string)
    requires s1 == "http://///x" && s2 == "http:///x"
    ensures StableNormalize(s1) == s1
  {
    ParseFirst(s1);
    ParseSecond(s2);
    StableNormalizeKeeps(s1, Hierarchical(Some("http"), None, "///x", None, None), s2);
  }

  /** A hierarchical URI whose rebuilt text parses to other components is kept. */
  lemma StableNormalizeKeeps(url: string, u: Uri, t: string)
    requires Parse(url) == Some(u) && u.Hierarchical?
    requires t == Rebuild(u.scheme, u.authority, Some(u.path))
    requires Parse(t) != Some(Hierarchical(u.scheme, u.authority, u.path, None, None))
    ensures StableNormalize(url) == url
  {
  }

  /** An input that does not parse is returned unchanged. */
  lemma NormalizeUnparsable(url: string)
    requires Parse(url).None?
    ensures Normalize(url) == url
  {
  }
}
