/**
 * SharePointUrl: a server URL as configured, with one trailing slash
 * removed, its escaped URI (section 2.1 of RFC 3986 percent-encoding of the
 * path) and its root URL (scheme and authority, section 3 of RFC 3986).
 *
 * With browser leniency the first '?' starts the query (section 3.4 of
 * RFC 3986), which is kept as written; without it the whole text after the
 * authority is one path, so a '?' in it is escaped too.
 */
module SharePointUrls {
  import opened Failures
  import opened JavaLang

  const DEFAULT_BROWSER_LENIENCY: bool := true

  predicate IsAlpha(c: char) { 'a' <= c <= 'z' || 'A' <= c <= 'Z' }

  predicate IsSchemeChar(c: char) { IsAlpha(c) || IsDigit(c) || c == '+' || c == '-' || c == '.' }

  /** A scheme as section 3.1 of RFC 3986 defines it: a letter, then letters, digits, '+', '-' or '.'. */
  predicate IsScheme(s: string) {
    |s| > 0 && IsAlpha(s[0]) && forall i :: 1 <= i < |s| ==> IsSchemeChar(s[i])
  }

  /** The characters that end the authority: '/' and '?'; a '#' does not, as fragments are not recognised. */
  predicate EndsAuthority(c: char) { c == '/' || c == '?' }

  /** The delimiters a URL is split at. */
  datatype Delimiter = Colon | QuestionMark | AuthorityEnd

  predicate IsDelimiter(d: Delimiter, c: char) {
    match d
    case Colon => c == ':'
    case QuestionMark => c == '?'
    case AuthorityEnd => EndsAuthority(c)
  }

  /** The index of the first delimiter d in s, or |s| when there is none. */
  function IndexWhere(s: string, d: Delimiter): (k: nat)
    ensures k <= |s|
    ensures forall i :: 0 <= i < k ==> !IsDelimiter(d, s[i])
    ensures k < |s| ==> IsDelimiter(d, s[k])
  {
    if |s| == 0 then 0 else if IsDelimiter(d, s[0]) then 0 else 1 + IndexWhere(s[1..], d)
  }

  /** The three pieces of an absolute URL of the form scheme "://" authority path. */
  datatype UrlParts = UrlParts(scheme: string, authority: string, path: string)

  predicate ValidParts(p: UrlParts) {
    && IsScheme(p.scheme)
    && (forall i :: 0 <= i < |p.authority| ==> !EndsAuthority(p.authority[i]))
    && (p.path == [] || EndsAuthority(p.path[0]))
  }

  function JoinParts(p: UrlParts): string {
    p.scheme + "://" + p.authority + p.path
  }

  /** Splits an absolute URL into scheme, authority and path; None when it has no scheme followed by "://". */
  function SplitUrl(s: string): (r: Option<UrlParts>)
    ensures r.Some? ==> ValidParts(r.value) && JoinParts(r.value) == s
  {
    var k := IndexWhere(s, Colon);
    if k + 3 <= |s| && IsScheme(s[..k]) && s[k..k + 3] == "://" then
      var rest := s[k + 3..];
      var a := IndexWhere(rest, AuthorityEnd);
      var p := UrlParts(s[..k], rest[..a], rest[a..]);
      assert JoinParts(p) == s[..k] + s[k..k + 3] + rest[..a] + rest[a..];
      Some(p)
    else
      None
  }

  /** A URL assembled from valid pieces splits back into exactly those pieces. */
  lemma SplitJoin(p: UrlParts)
    requires ValidParts(p)
    ensures SplitUrl(JoinParts(p)) == Some(p)
  {
    var s := JoinParts(p);
    var n := |p.scheme|;
    assert s[..n] == p.scheme;
    assert s[n] == ':';
    assert forall i :: 0 <= i < n ==> s[i] == p.scheme[i];
    IndexWhereAt(s, Colon, n);
    assert s[n..n + 3] == "://";
    var rest := s[n + 3..];
    assert rest == p.authority + p.path;
    IndexWhereAt(rest, AuthorityEnd, |p.authority|);
    assert rest[..|p.authority|] == p.authority;
    assert rest[|p.authority|..] == p.path;
  }

  /** IndexWhere finds k when k is the first stopping position (or |s| and none stops). */
  lemma IndexWhereAt(s: string, d: Delimiter, k: nat)
    requires k <= |s|
    requires forall i :: 0 <= i < k ==> !IsDelimiter(d, s[i])
    requires k < |s| ==> IsDelimiter(d, s[k])
    ensures IndexWhere(s, d) == k
  {
  }

  /** The characters java.net.URI leaves unquoted in a path: RFC 2396 unreserved and path punctuation, and '/'. */
  predicate IsPathChar(c: char) {
    || IsAlpha(c) || IsDigit(c)
    || c == '-' || c == '_' || c == '.' || c == '!' || c == '~' || c == '*' || c == '\'' || c == '(' || c == ')'
    || c == ';' || c == ':' || c == '@' || c == '&' || c == '=' || c == '+' || c == '$' || c == ','
    || c == '/'
  }

  /** An ASCII character that must be percent-encoded (non-ASCII characters are kept as they are). */
  predicate MustEscape(c: char) {
    c < 128 as char && !IsPathChar(c)
  }

  function HexDigit(n: nat): char
    requires n < 16
  {
    if n < 10 then ('0' as int + n) as char else ('A' as int + n - 10) as char
  }

  function HexValue(c: char): (r: Option<nat>)
    ensures r.Some? ==> r.value < 16
  {
    if '0' <= c <= '9' then Some(c as int - '0' as int)
    else if 'A' <= c <= 'F' then Some(c as int - 'A' as int + 10)
    else None
  }

  /** A hex digit stands in a path as it is. */
  lemma HexDigitKept(n: nat)
    requires n < 16
    ensures !MustEscape(HexDigit(n)) && HexDigit(n) != '%'
  {
  }

  lemma HexValueOfHexDigit(n: nat)
    requires n < 16
    ensures HexValue(HexDigit(n)) == Some(n)
  {
  }

  /** Percent-encoding of one character (section 2.1 of RFC 3986, upper-case hex digits). */
  function EscapeChar(c: char): string {
    if MustEscape(c) then ['%', HexDigit(c as int / 16), HexDigit(c as int % 16)] else [c]
  }

  /** Percent-encodes every character of a path that may not stand in it as it is. */
  function EscapePath(p: string): (r: string)
    ensures r == [] <==> p == []
  {
    if p == [] then [] else EscapeChar(p[0]) + EscapePath(p[1..])
  }

  /** Every character of r may stand in a path as it is, or opens a percent-encoded triplet. */
  predicate IsEscaped(r: string) {
    forall i :: 0 <= i < |r| ==> !MustEscape(r[i]) || r[i] == '%'
  }

  lemma {:induction false} EscapedPathChars(p: string)
    ensures IsEscaped(EscapePath(p))
  {
    if p != [] {
      EscapedPathChars(p[1..]);
      var e := EscapeChar(p[0]);
      var t := EscapePath(p[1..]);
      var r := EscapePath(p);
      assert r == e + t;
      forall i | 0 <= i < |r|
        ensures !MustEscape(r[i]) || r[i] == '%'
      {
        if i < |e| {
          assert r[i] == e[i];
          if MustEscape(p[0]) {
            var hi, lo := p[0] as int / 16, p[0] as int % 16;
            HexDigitKept(hi);
            HexDigitKept(lo);
            assert e == ['%', HexDigit(hi), HexDigit(lo)];
          }
        } else {
          assert r[i] == t[i - |e|];
        }
      }
    }
  }

  /** Decodes percent-encoded triplets; the inverse of EscapePath (URI.getPath). */
  function UnescapePath(e: string): string {
    if |e| >= 3 && e[0] == '%' && HexValue(e[1]).Some? && HexValue(e[2]).Some? then
      [(HexValue(e[1]).value * 16 + HexValue(e[2]).value) as char] + UnescapePath(e[3..])
    else if e == [] then []
    else [e[0]] + UnescapePath(e[1..])
  }

  lemma {:induction false} UnescapeEscape(p: string)
    ensures UnescapePath(EscapePath(p)) == p
  {
    if p != [] {
      var c := p[0];
      var e := EscapePath(p);
      assert e == EscapeChar(c) + EscapePath(p[1..]);
      UnescapeEscape(p[1..]);
      if MustEscape(c) {
        HexValueOfHexDigit(c as int / 16);
        HexValueOfHexDigit(c as int % 16);
        assert e[3..] == EscapePath(p[1..]);
      } else {
        assert c != '%';
        assert e[1..] == EscapePath(p[1..]);
      }
    }
  }

  /** Neither a space nor a '?' survives escaping, so an escaped path has no query delimiter. */
  lemma EscapedPathHasNoSpaceOrQuery(p: string)
    ensures ' ' !in EscapePath(p) && '?' !in EscapePath(p)
  {
    EscapedPathChars(p);
    assert MustEscape(' ') && MustEscape('?');
  }

  /**
   * SharePointUrl.escape: the scheme and authority as they are, the path
   * percent-encoded; a string with no scheme is an illegal argument.
   */
  function Escape(url: string): (r: Result<string>)
    ensures r.Ok? <==> SplitUrl(url).Some?
    ensures r.Err? ==> r.error.IllegalArgumentException?
  {
    match SplitUrl(url)
    case None => Err(IllegalArgumentException("Invalid URL " + url))
    case Some(p) => Ok(p.scheme + "://" + p.authority + EscapePath(p.path))
  }

  /** Removes one trailing slash, if there is one. */
  function StripTrailingSlash(url: string): (r: string)
    ensures |url| > 0 && url[|url| - 1] == '/' ==> url == r + "/"
    ensures !(|url| > 0 && url[|url| - 1] == '/') ==> r == url
  {
    if |url| > 0 && url[|url| - 1] == '/' then url[..|url| - 1] else url
  }

  /** Splits at the first '?': the text before it and, if there is one, the query after it. */
  function SplitQuery(s: string): (r: (string, Option<string>))
    ensures r.1.None? ==> r.0 == s && '?' !in s
    ensures r.1.Some? ==> s == r.0 + "?" + r.1.value && '?' !in r.0
  {
    var q := IndexWhere(s, QuestionMark);
    if q == |s| then (s, None) else (s[..q], Some(s[q + 1..]))
  }

  /**
   * A built SharePointUrl. Equality is that of the datatype; every field
   * after the first two is computed from url and performBrowserLeniency.
   */
  datatype SharePointUrl = SharePointUrl(
    url: string,
    performBrowserLeniency: bool,
    scheme: string,
    authority: string,
    path: string,
    query: Option<string>)
  {
    /** getURI, as text. */
    function Uri(): (r: string)
      ensures RootUrl() <= r
    {
      scheme + "://" + authority + EscapePath(path) + (if query.Some? then "?" + query.value else "")
    }

    /** getRootUrl: the scheme, "://" and the authority, with no path or query. */
    function RootUrl(): (r: string)
      ensures scheme + "://" <= r && r[|scheme| + 3..] == authority
    {
      scheme + "://" + authority
    }
  }

  /** SharePointUrl.Builder(url).setPerformBrowserLeniency(lenient).build(). */
  function Build(url: string, lenient: bool): (r: Result<SharePointUrl>)
    ensures r.Ok? ==> r.value.url == StripTrailingSlash(url) && r.value.performBrowserLeniency == lenient
    ensures r.Err? ==> r.error.URISyntaxException?
  {
    var u := StripTrailingSlash(url);
    var (base, query) := if lenient then SplitQuery(u) else (u, None);
    match SplitUrl(base)
    case None => Err(URISyntaxException("Invalid URL " + u))
    case Some(p) => Ok(SharePointUrl(u, lenient, p.scheme, p.authority, p.path, query))
  }

  /** SharePointUrl.Builder(url).build(): browser leniency is on unless set otherwise. */
  function BuildDefault(url: string): (r: Result<SharePointUrl>)
    ensures r == Build(url, true)
  {
    Build(url, DEFAULT_BROWSER_LENIENCY)
  }

  // ---------------------------------------------------------------------------
  // What a built URL is

  /** The URI of a lenient build is the escaped part before the first '?', then the query as written. */
  lemma LenientUri(url: string)
    requires Build(url, true).Ok?
    ensures var u := StripTrailingSlash(url);
            var (base, query) := SplitQuery(u);
            Escape(base).Ok? &&
            Build(url, true).value.Uri() == Escape(base).value + (if query.Some? then "?" + query.value else "")
  {
  }

  /** Without leniency the URI is the escape of the whole (slash-stripped) text, and it has no query. */
  lemma StrictUri(url: string)
    requires Build(url, false).Ok?
    ensures var u := StripTrailingSlash(url);
            Escape(u) == Ok(Build(url, false).value.Uri())
    ensures '?' !in Build(url, false).value.Uri()
  {
    var b := Build(url, false).value;
    StrictEscape(url);
    BuiltPartsValid(url, false);
    NoQueryInUri(b);
  }

  lemma StrictEscape(url: string)
    requires Build(url, false).Ok?
    ensures Escape(StripTrailingSlash(url)) == Ok(Build(url, false).value.Uri())
    ensures Build(url, false).value.query.None?
  {
    StrictBuild(url);
    EscapeIsStrictUri(StripTrailingSlash(url));
  }

  /** A strict build is the split of the slash-stripped text, with no query. */
  lemma StrictBuild(url: string)
    requires Build(url, false).Ok?
    ensures var u := StripTrailingSlash(url);
            SplitUrl(u).Some? &&
            Build(url, false) == Ok(SharePointUrl(u, false, SplitUrl(u).value.scheme, SplitUrl(u).value.authority,
                                                  SplitUrl(u).value.path, None))
  {
  }

  /** Escaping a URL that splits gives the URI of the strict SharePoint URL over its pieces. */
  lemma EscapeIsStrictUri(u: string)
    requires SplitUrl(u).Some?
    ensures var p := SplitUrl(u).value;
            Escape(u) == Ok(SharePointUrl(u, false, p.scheme, p.authority, p.path, None).Uri())
  {
    var p := SplitUrl(u).value;
    var b := SharePointUrl(u, false, p.scheme, p.authority, p.path, None);
    var t := p.scheme + "://" + p.authority + EscapePath(p.path);
    assert b.Uri() == t + "";
    assert t + "" == t;
    assert Escape(u) == Ok(t);
  }

  /** A URI without a query has no '?': the scheme and authority have none, and escaping removes any in the path. */
  lemma NoQueryInUri(b: SharePointUrl)
    requires b.query.None? && ValidParts(UrlParts(b.scheme, b.authority, b.path))
    ensures '?' !in b.Uri()
  {
    EscapedPathHasNoSpaceOrQuery(b.path);
    assert forall i :: 0 <= i < |b.authority| ==> b.authority[i] != '?';
    assert '?' !in b.scheme by {
      assert forall i :: 0 <= i < |b.scheme| ==> IsSchemeChar(b.scheme[i]);
    }
    assert b.Uri() == b.scheme + "://" + b.authority + EscapePath(b.path);
  }

  /** The stored URL is the input with one trailing slash removed; the scheme, authority, path and query rebuild it. */
  lemma UrlIsInput(url: string, lenient: bool)
    requires Build(url, lenient).Ok?
    ensures var b := Build(url, lenient).value;
            b.url == b.scheme + "://" + b.authority + b.path + (if b.query.Some? then "?" + b.query.value else "")
  {
  }

  /** No '?' occurs before the path of a URL assembled from valid pieces. */
  lemma NoQueryBeforePath(p: UrlParts)
    requires ValidParts(p)
    ensures forall i :: 0 <= i < |p.scheme| + 3 + |p.authority| ==> JoinParts(p)[i] != '?'
  {
    var s := JoinParts(p);
    var n := |p.scheme|;
    forall i | 0 <= i < n + 3 + |p.authority|
      ensures s[i] != '?'
    {
      if i < n {
        assert s[i] == p.scheme[i];
        assert i == 0 || IsSchemeChar(p.scheme[i]);
      } else if i < n + 3 {
        assert s[i] == "://"[i - n];
      } else {
        assert s[i] == p.authority[i - n - 3];
      }
    }
  }

  /** A '?'-free text that is a URL stays one, with the same scheme and authority, when a query is appended. */
  lemma SplitWithQuery(base: string, q: string)
    requires '?' !in base
    requires SplitUrl(base).Some?
    ensures SplitUrl(base + "?" + q).Some?
    ensures SplitUrl(base + "?" + q).value.scheme == SplitUrl(base).value.scheme
    ensures SplitUrl(base + "?" + q).value.authority == SplitUrl(base).value.authority
  {
    var pb := SplitUrl(base).value;
    var p := UrlParts(pb.scheme, pb.authority, pb.path + "?" + q);
    assert JoinParts(p) == JoinParts(pb) + "?" + q;
    SplitJoin(p);
  }

  /** Conversely, the text before the first '?' of a URL is already a URL with the same scheme and authority. */
  lemma SplitBeforeQuery(base: string, q: string)
    requires '?' !in base
    requires SplitUrl(base + "?" + q).Some?
    ensures SplitUrl(base).Some?
    ensures SplitUrl(base + "?" + q).value.scheme == SplitUrl(base).value.scheme
    ensures SplitUrl(base + "?" + q).value.authority == SplitUrl(base).value.authority
  {
    var p := SplitUrl(base + "?" + q).value;
    BaseParts(base, q, p);
    var m := |p.scheme| + 3 + |p.authority|;
    SplitJoin(UrlParts(p.scheme, p.authority, base[m..]));
  }

  /** The scheme and authority of a URL, with the rest of the text before its first '?' as path, are valid parts of that text. */
  lemma BaseParts(base: string, q: string, p: UrlParts)
    requires '?' !in base
    requires ValidParts(p) && JoinParts(p) == base + "?" + q
    ensures var m := |p.scheme| + 3 + |p.authority|;
            && m <= |base|
            && ValidParts(UrlParts(p.scheme, p.authority, base[m..]))
            && JoinParts(UrlParts(p.scheme, p.authority, base[m..])) == base
  {
    var u := base + "?" + q;
    var m := |p.scheme| + 3 + |p.authority|;
    NoQueryBeforePath(p);
    assert u[|base|] == '?';
    assert m <= |base|;
    var pb := UrlParts(p.scheme, p.authority, base[m..]);
    assert u[..m] == base[..m];
    assert JoinParts(pb) == base by {
      assert JoinParts(pb) == u[..m] + base[m..];
    }
    assert ValidParts(pb) by {
      if pb.path != [] {
        assert pb.path[0] == u[m] == p.path[0];
      }
    }
  }

  /** Whether a URL builds, and its root URL, do not depend on the leniency setting. */
  lemma RootUrlIgnoresLeniency(url: string)
    ensures Build(url, true).Ok? <==> Build(url, false).Ok?
    ensures Build(url, true).Ok? ==> Build(url, true).value.RootUrl() == Build(url, false).value.RootUrl()
  {
    var u := StripTrailingSlash(url);
    var (base, query) := SplitQuery(u);
    if query.Some? {
      if SplitUrl(base).Some? {
        SplitWithQuery(base, query.value);
      }
      if SplitUrl(u).Some? {
        SplitBeforeQuery(base, query.value);
      }
    }
  }

  /** Text without a ':' has no scheme, so it neither escapes nor builds. */
  lemma NoSchemeFails(url: string, lenient: bool)
    requires ':' !in url
    ensures Escape(url).Err? && Build(url, lenient).Err?
  {
    var u := StripTrailingSlash(url);
    assert ':' !in u by {
      if u != url {
        assert forall i :: 0 <= i < |u| ==> u[i] == url[i];
      }
    }
    var (base, query) := if lenient then SplitQuery(u) else (u, None);
    assert ':' !in base by {
      if query.Some? {
        assert forall i :: 0 <= i < |base| ==> base[i] == u[i];
      }
    }
  }

  /** The root URL starts both the stored URL and the URI, and ends before the first '/' or '?' after the scheme. */
  lemma RootUrlPrefix(url: string, lenient: bool)
    requires Build(url, lenient).Ok?
    ensures var b := Build(url, lenient).value;
            && b.RootUrl() <= b.url && b.RootUrl() <= b.Uri()
            && forall i :: |b.scheme| + 3 <= i < |b.RootUrl()| ==> !EndsAuthority(b.RootUrl()[i])
  {
    var b := Build(url, lenient).value;
    UrlIsInput(url, lenient);
    StoredUrlStartsWithRoot(b);
    BuiltPartsValid(url, lenient);
    RootAuthority(b.scheme, b.authority);
  }

  lemma StoredUrlStartsWithRoot(b: SharePointUrl)
    requires b.url == b.scheme + "://" + b.authority + b.path + (if b.query.Some? then "?" + b.query.value else "")
    ensures b.RootUrl() <= b.url
  {
    var rest := b.path + (if b.query.Some? then "?" + b.query.value else "");
    assert b.url == b.RootUrl() + rest;
    PrefixOfConcat(b.RootUrl(), rest);
  }

  /** The scheme, authority and path of a built URL are well-formed parts. */
  lemma BuiltPartsValid(url: string, lenient: bool)
    requires Build(url, lenient).Ok?
    ensures var b := Build(url, lenient).value;
            ValidParts(UrlParts(b.scheme, b.authority, b.path))
  {
  }

  lemma PrefixOfConcat(a: string, c: string)
    ensures a <= a + c
  {
    assert (a + c)[..|a|] == a;
  }

  /** The characters of scheme "://" authority after the "://" are those of the authority. */
  lemma RootAuthority(scheme: string, authority: string)
    requires forall i :: 0 <= i < |authority| ==> !EndsAuthority(authority[i])
    ensures var root := scheme + "://" + authority;
            forall i :: |scheme| + 3 <= i < |root| ==> !EndsAuthority(root[i])
  {
    var root := scheme + "://" + authority;
    assert forall i :: |scheme| + 3 <= i < |root| ==> root[i] == authority[i - |scheme| - 3];
  }

  /** Building from the stored URL gives the same URL back, unless the input ended in two slashes. */
  lemma BuildIdempotent(url: string, lenient: bool)
    requires Build(url, lenient).Ok?
    requires !(|url| >= 2 && url[|url| - 2..] == "//")
    ensures Build(Build(url, lenient).value.url, lenient) == Build(url, lenient)
  {
    var u := StripTrailingSlash(url);
    assert Build(url, lenient).value.url == u;
    if |url| > 0 && url[|url| - 1] == '/' && |u| > 0 {
      assert url[|url| - 2..] == [u[|u| - 1], '/'];
    }
    assert StripTrailingSlash(u) == u;
    BuildOfStripped(u, url, lenient);
  }

  /** A build depends on its input only through the input with its trailing slash stripped. */
  lemma BuildOfStripped(a: string, b: string, lenient: bool)
    requires StripTrailingSlash(a) == StripTrailingSlash(b)
    ensures Build(a, lenient) == Build(b, lenient)
  {
  }

  // ---------------------------------------------------------------------------
  // Equality and hashing

  /** Two builds are equal exactly when their slash-stripped inputs and their leniency agree. */
  lemma EqualIff(a: string, la: bool, b: string, lb: bool)
    requires Build(a, la).Ok? && Build(b, lb).Ok?
    ensures Build(a, la) == Build(b, lb) <==> StripTrailingSlash(a) == StripTrailingSlash(b) && la == lb
  {
  }

  /** A single trailing slash does not change the built URL. */
  lemma TrailingSlashIgnored(url: string, lenient: bool)
    ensures Build(url + "/", lenient) == Build(url, lenient) || (|url| > 0 && url[|url| - 1] == '/')
  {
    assert (url + "/")[..|url|] == url;
  }

  /** Java's String.hashCode: h = 31 * h + c over the characters, wrapped to 32 bits. */
  function StringHashCode(s: string): (h: int)
    ensures INT_MIN <= h <= INT_MAX
  {
    if s == [] then 0 else Wrap32(31 * StringHashCode(s[..|s| - 1]) + s[|s| - 1] as int)
  }

  /** Two's-complement wrap-around of an integer to 32 bits. */
  function Wrap32(x: int): (r: int)
    ensures INT_MIN <= r <= INT_MAX
    ensures (r - x) % 0x1_0000_0000 == 0
  {
    var m := x % 0x1_0000_0000;
    if m > INT_MAX then m - 0x1_0000_0000 else m
  }

  /** hashCode: Objects.hash(url, performBrowserLeniency), with Boolean.hashCode 1231 for true and 1237 for false. */
  function HashCode(u: SharePointUrl): (h: int)
    ensures INT_MIN <= h <= INT_MAX
  {
    Wrap32(31 * Wrap32(31 + StringHashCode(u.url)) + (if u.performBrowserLeniency then 1231 else 1237))
  }

  /** Equal URLs hash equal even when built from inputs that differ in a trailing slash. */
  lemma HashIgnoresTrailingSlash(a: string, b: string, lenient: bool)
    requires Build(a, lenient).Ok? && Build(b, lenient).Ok?
    requires StripTrailingSlash(a) == StripTrailingSlash(b)
    ensures HashCode(Build(a, lenient).value) == HashCode(Build(b, lenient).value)
  {
  }

  // ---------------------------------------------------------------------------
  // The cases of SharePointUrlTest

  lemma {:induction false} EscapePathConcat(a: string, b: string)
    ensures EscapePath(a + b) == EscapePath(a) + EscapePath(b)
  {
    if a == [] {
      assert a + b == b;
    } else {
      assert (a + b)[0] == a[0];
      assert (a + b)[1..] == a[1..] + b;
      EscapePathConcat(a[1..], b);
    }
  }

  lemma {:induction false} EscapePathPlain(s: string)
    requires forall i :: 0 <= i < |s| ==> !MustEscape(s[i])
    ensures EscapePath(s) == s
  {
    if s != [] {
      EscapePathPlain(s[1..]);
    }
  }

  lemma SplitQueryAt(s: string, base: string, q: string)
    requires s == base + "?" + q && '?' !in base
    ensures SplitQuery(s) == (base, Some(q))
  {
    assert forall i :: 0 <= i < |base| ==> s[i] == base[i];
    assert s[|base|] == '?';
    IndexWhereAt(s, QuestionMark, |base|);
    assert s[..|base|] == base;
    assert s[|base| + 1..] == q;
  }

  /** Building a URL that has no trailing slash and no '?'. */
  lemma BuildPlain(url: string, lenient: bool, p: UrlParts)
    requires !(|url| > 0 && url[|url| - 1] == '/') && '?' !in url
    requires ValidParts(p) && JoinParts(p) == url
    ensures Build(url, lenient) == Ok(SharePointUrl(url, lenient, p.scheme, p.authority, p.path, None))
  {
    SplitJoin(p);
  }

  /** Building with leniency a URL that has no trailing slash and a query after its first '?'. */
  lemma BuildLenientWithQuery(base: string, q: string, p: UrlParts)
    requires '?' !in base && !(|q| > 0 && q[|q| - 1] == '/')
    requires ValidParts(p) && JoinParts(p) == base
    ensures Build(base + "?" + q, true) == Ok(SharePointUrl(base + "?" + q, true, p.scheme, p.authority, p.path, Some(q)))
  {
    var u := base + "?" + q;
    assert u[|u| - 1] == if q == [] then '?' else q[|q| - 1];
    SplitQueryAt(u, base, q);
    SplitJoin(p);
  }

  /** Building without leniency a URL that has no trailing slash. */
  lemma BuildStrict(url: string, p: UrlParts)
    requires !(|url| > 0 && url[|url| - 1] == '/')
    requires ValidParts(p) && JoinParts(p) == url
    ensures Build(url, false) == Ok(SharePointUrl(url, false, p.scheme, p.authority, p.path, None))
  {
    SplitJoin(p);
  }

  predicate Plain(s: string) {
    forall i :: 0 <= i < |s| ==> !MustEscape(s[i])
  }

  /** Escaping a path with one character between two pieces that need no escaping. */
  lemma EscapeBetween(a: string, c: char, b: string)
    requires Plain(a) && Plain(b)
    ensures EscapePath(a + [c] + b) == a + EscapeChar(c) + b
  {
    EscapePathConcat(a + [c], b);
    EscapePathConcat(a, [c]);
    EscapePathPlain(a);
    EscapePathPlain(b);
    EscapeOne(c);
  }

  lemma EscapeOne(c: char)
    ensures EscapePath([c]) == EscapeChar(c)
  {
    assert [c][1..] == [];
    assert EscapePath([c]) == EscapeChar(c) + EscapePath([]);
  }

  /** Plain text has no '?', since '?' must be escaped. */
  lemma PlainHasNoQuery(s: string)
    requires Plain(s)
    ensures '?' !in s
  {
    assert MustEscape('?');
  }

  /** A URL assembled from valid pieces has a '?' only where its path has one. */
  lemma NoQueryInJoin(p: UrlParts)
    requires ValidParts(p) && '?' !in p.path
    ensures '?' !in JoinParts(p)
  {
    NoQueryBeforePath(p);
    var s := JoinParts(p);
    var m := |p.scheme| + 3 + |p.authority|;
    forall i | m <= i < |s|
      ensures s[i] != '?'
    {
      assert s[i] == p.path[i - m];
    }
  }

  /** A path with one space between two plain pieces starts like the first and escapes the space only. */
  lemma SpacePath(a: string, b: string)
    requires |a| > 0 && a[0] == '/' && Plain(a) && Plain(b)
    ensures var path := a + " " + b;
            path[0] == '/' && '?' !in path && EscapePath(path) == a + "%20" + b
  {
    PlainHasNoQuery(a);
    PlainHasNoQuery(b);
    EscapeBetween(a, ' ', b);
  }

  /** With leniency, scheme "://" host path "?" query builds into exactly those pieces. */
  lemma BuildLenientParts(scheme: string, host: string, path: string, q: string)
    requires ValidParts(UrlParts(scheme, host, path)) && '?' !in path
    requires !(|q| > 0 && q[|q| - 1] == '/')
    ensures Build(scheme + "://" + host + path + "?" + q, true)
         == Ok(SharePointUrl(scheme + "://" + host + path + "?" + q, true, scheme, host, path, Some(q)))
  {
    var p := UrlParts(scheme, host, path);
    NoQueryInJoin(p);
    BuildLenientWithQuery(JoinParts(p), q, p);
  }

  /**
   * With leniency a space in the path is escaped and the query after the
   * first '?' is kept as written (testBrowserLeniency).
   */
  lemma LenientSpaceAndQuery(scheme: string, host: string, a: string, b: string, q: string)
    requires IsScheme(scheme) && forall i :: 0 <= i < |host| ==> !EndsAuthority(host[i])
    requires |a| > 0 && a[0] == '/' && Plain(a) && Plain(b)
    requires !(|q| > 0 && q[|q| - 1] == '/')
    ensures var r := Build(scheme + "://" + host + (a + " " + b) + "?" + q, true);
            && r.Ok?
            && r.value.url == scheme + "://" + host + (a + " " + b) + "?" + q
            && r.value.Uri() == scheme + "://" + host + (a + "%20" + b) + ("?" + q)
            && r.value.RootUrl() == scheme + "://" + host
  {
    SpacePath(a, b);
    BuildLenientParts(scheme, host, a + " " + b, q);
  }

  /** scheme "://" host path, with no '?' in the path and no trailing slash, builds into exactly those pieces. */
  lemma BuildParts(scheme: string, host: string, path: string, lenient: bool)
    requires ValidParts(UrlParts(scheme, host, path)) && '?' !in path
    requires var url := scheme + "://" + host + path; url[|url| - 1] != '/'
    ensures var url := scheme + "://" + host + path;
            Build(url, lenient) == Ok(SharePointUrl(url, lenient, scheme, host, path, None))
  {
    var p := UrlParts(scheme, host, path);
    NoQueryInJoin(p);
    BuildPlain(JoinParts(p), lenient, p);
  }

  /**
   * With or without leniency, a space in a path with no query is escaped, and
   * one trailing slash is dropped (testBuilderNonBrowserLeniency,
   * testBuilderBrowserLeniencyNoParam, testBuilderBrowserLeniencyTrailingSlash).
   */
  lemma SpaceWithoutQuery(scheme: string, host: string, a: string, b: string, lenient: bool)
    requires IsScheme(scheme) && forall i :: 0 <= i < |host| ==> !EndsAuthority(host[i])
    requires |a| > 0 && a[0] == '/' && Plain(a) && Plain(b)
    requires !(|b| > 0 && b[|b| - 1] == '/')
    ensures var url := scheme + "://" + host + (a + " " + b);
            var r := Build(url, lenient);
            && r.Ok?
            && r.value.url == url
            && r.value.Uri() == scheme + "://" + host + (a + "%20" + b) + ""
            && r.value.RootUrl() == scheme + "://" + host
            && Build(url + "/", lenient) == r
  {
    var path := a + " " + b;
    SpacePath(a, b);
    var url := scheme + "://" + host + path;
    assert url[|url| - 1] == path[|path| - 1];
    BuildParts(scheme, host, path, lenient);
    TrailingSlashIgnored(url, lenient);
  }

  /** A '?' before plain text is escaped as %3F. */
  lemma EscapeQueryMark(q: string)
    requires Plain(q)
    ensures EscapePath("?" + q) == "%3F" + q
  {
    var s := "?" + q;
    assert s[0] == '?' && s[1..] == q;
    EscapePathPlain(q);
    assert EscapeChar('?') == "%3F";
  }

  /** Escaping a path with a space and a '?' between plain pieces. */
  lemma EscapeSpaceAndQuery(a: string, b: string, q: string)
    requires |a| > 0 && a[0] == '/' && Plain(a) && Plain(b) && Plain(q)
    ensures EscapePath(a + " " + b + "?" + q) == a + "%20" + b + "%3F" + q
  {
    assert a + " " + b + "?" + q == (a + " " + b) + ("?" + q);
    EscapePathConcat(a + " " + b, "?" + q);
    SpacePath(a, b);
    EscapeQueryMark(q);
  }

  /** Without leniency a '?' is part of the path and is escaped as %3F (testBuilderNonBrowserLeniencyQueryParam). */
  lemma StrictSpaceAndQuery(scheme: string, host: string, a: string, b: string, q: string)
    requires IsScheme(scheme) && forall i :: 0 <= i < |host| ==> !EndsAuthority(host[i])
    requires |a| > 0 && a[0] == '/' && Plain(a) && Plain(b) && Plain(q)
    requires !(|q| > 0 && q[|q| - 1] == '/')
    ensures var r := Build(scheme + "://" + host + (a + " " + b + "?" + q), false);
            && r.Ok?
            && r.value.Uri() == scheme + "://" + host + (a + "%20" + b + "%3F" + q) + ""
  {
    var path := a + " " + b + "?" + q;
    assert path[0] == '/';
    var url := scheme + "://" + host + path;
    assert url[|url| - 1] == path[|path| - 1];
    BuildStrict(url, UrlParts(scheme, host, path));
    EscapeSpaceAndQuery(a, b, q);
  }

  lemma SchemeHostUrl(scheme: string, host: string)
    requires |host| > 0
    ensures var url := scheme + "://" + host; url[|url| - 1] == host[|host| - 1]
  {
  }

  /**
   * The default build is the lenient one, a trailing slash does not matter,
   * and a build without leniency differs (testEquals).
   */
  lemma EqualsCase(scheme: string, host: string)
    requires IsScheme(scheme) && |host| > 0 && forall i :: 0 <= i < |host| ==> !EndsAuthority(host[i])
    ensures var url := scheme + "://" + host;
            && BuildDefault(url).Ok?
            && BuildDefault(url) == Build(url, true)
            && HashCode(BuildDefault(url).value) == HashCode(Build(url, true).value)
            && Build(url + "/", true) == BuildDefault(url)
            && HashCode(Build(url + "/", true).value) == HashCode(BuildDefault(url).value)
            && Build(url, false).Ok? && Build(url, false) != BuildDefault(url)
  {
    var url := scheme + "://" + host;
    SchemeHostUrl(scheme, host);
    assert url == scheme + "://" + host + "";
    BuildParts(scheme, host, "", true);
    BuildParts(scheme, host, "", false);
    TrailingSlashIgnored(url, true);
  }

  // The concrete URLs of SharePointUrlTest, written as the pieces the lemmas above take.

  lemma BrowserLeniencyExample()
    ensures var r := Build("http" + "://" + "sp.com" + ("/shared" + " " + "documents") + "?" + "param=value", true);
            && r.Ok?
            && r.value.Uri() == "http" + "://" + "sp.com" + ("/shared" + "%20" + "documents") + ("?" + "param=value")
            && r.value.url == "http" + "://" + "sp.com" + ("/shared" + " " + "documents") + "?" + "param=value"
            && r.value.RootUrl() == "http" + "://" + "sp.com"
  {
    LenientSpaceAndQuery("http", "sp.com", "/shared", "documents", "param=value");
  }

  lemma NonBrowserLeniencyExample()
    ensures var r := Build("http" + "://" + "sp.com" + ("/shared" + " " + "documents"), false);
            r.Ok? && r.value.Uri() == "http" + "://" + "sp.com" + ("/shared" + "%20" + "documents") + ""
  {
    SpaceWithoutQuery("http", "sp.com", "/shared", "documents", false);
  }

  lemma NonBrowserLeniencyQueryExample()
    ensures var r := Build("http" + "://" + "sp.com" + ("/shared" + " " + "documents" + "?" + "param=value"), false);
            r.Ok? && r.value.Uri() == "http" + "://" + "sp.com" + ("/shared" + "%20" + "documents" + "%3F" + "param=value") + ""
  {
    StrictSpaceAndQuery("http", "sp.com", "/shared", "documents", "param=value");
  }

  lemma InvalidUrlExample()
    ensures Escape("abc").Err? && Escape("abc").error.IllegalArgumentException?
  {
  }

  /** testBuilderBrowserLeniencyNoParam. */
  lemma NoParamExample()
    ensures var r := Build("https" + "://" + "sp.google.com" + ("/shared" + " " + "documents/folder"), true);
            && r.Ok?
            && r.value.Uri() == "https" + "://" + "sp.google.com" + ("/shared" + "%20" + "documents/folder") + ""
            && r.value.RootUrl() == "https" + "://" + "sp.google.com"
  {
    SpaceWithoutQuery("https", "sp.google.com", "/shared", "documents/folder", true);
  }

  lemma TrailingSlashExample()
    ensures var url := "https" + "://" + "sp.google.com" + ("/shared" + " " + "documents/folder");
            var r := Build(url + "/", true);
            && r.Ok?
            && r.value.Uri() == "https" + "://" + "sp.google.com" + ("/shared" + "%20" + "documents/folder") + ""
            && r.value.RootUrl() == "https" + "://" + "sp.google.com"
            && r.value.url == url
  {
    SpaceWithoutQuery("https", "sp.google.com", "/shared", "documents/folder", true);
  }

  lemma EqualsExample()
    ensures var url := "http" + "://" + "abc.com";
            && BuildDefault(url).Ok?
            && Build(url + "/", true) == BuildDefault(url)
            && Build(url, false) != BuildDefault(url)
  {
    EqualsCase("http", "abc.com");
  }
}
