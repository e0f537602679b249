/**
 * The URL helpers of utils/helper_functions.py: `extract_domain` (a regular
 * expression search, written out as the leftmost match with the regex
 * engine's backtracking), `build_url` and `generate_css_selector`.
 * A query-string dictionary is a sequence of pairs in insertion order;
 * `params=None` and `{}` are both the empty sequence.
 */
module HelperUrls {
  import opened Wrappers
  import opened Text
  import opened Splitting

  // ---- extract_domain --------------------------------------------------------------------

  /** Length of the longest prefix of `s` free of '/': the greedy `[^/]+`. */
  function NonSlashLen(s: string): (n: nat)
    ensures n <= |s|
    ensures forall i :: 0 <= i < n ==> s[i] != '/'
    ensures n < |s| ==> s[n] == '/'
  {
    if |s| == 0 || s[0] == '/' then 0 else 1 + NonSlashLen(s[1..])
  }

  /** Where `https?://` ends when it matches at position `i`. */
  function SchemeEnd(url: string, i: nat): (p: Option<nat>)
    requires i <= |url|
    ensures p.Some? ==> i + 7 <= p.value <= |url|
  {
    if StartsWith(url[i..], "https://") then Some(i + 8)
    else if StartsWith(url[i..], "http://") then Some(i + 7)
    else None
  }

  /**
   * `(?:www\.)?([^/]+)` at the start of `rest`: the optional "www." is taken
   * when a non-empty host still follows it, otherwise the engine backtracks
   * and the group starts at the 'w'.
   */
  function HostAt(rest: string): (h: Option<string>)
    ensures h.Some? ==> 0 < |h.value| && '/' !in h.value
    ensures h.None? <==> |rest| == 0 || rest[0] == '/'
  {
    if StartsWith(rest, "www.") && NonSlashLen(rest[4..]) > 0 then
      Some(rest[4..][..NonSlashLen(rest[4..])])
    else if NonSlashLen(rest) > 0 then Some(rest[..NonSlashLen(rest)])
    else None
  }

  /** The group of a match of the whole pattern starting at position `i`, if there is one. */
  function MatchAt(url: string, i: nat): Option<string>
    requires i <= |url|
  {
    match SchemeEnd(url, i)
    case None => None
    case Some(p) => HostAt(url[p..])
  }

  /** The leftmost position at or after `i` where the pattern matches, or |url| + 1 when there is none. */
  function LeftmostFrom(url: string, i: nat): (j: nat)
    requires i <= |url|
    ensures i <= j <= |url| + 1
    ensures forall k :: i <= k < j && k <= |url| ==> MatchAt(url, k).None?
    ensures j <= |url| ==> MatchAt(url, j).Some?
    decreases |url| - i
  {
    if MatchAt(url, i).Some? then i
    else if i == |url| then |url| + 1
    else LeftmostFrom(url, i + 1)
  }

  /**
   * `extract_domain(url)`: the group of the leftmost match, or None. The
   * match position is unique, since no earlier position matches.
   */
  function ExtractDomain(url: string): (r: Option<string>)
    ensures r.Some? ==> 0 < |r.value| && '/' !in r.value
    ensures r.None? <==> forall j :: 0 <= j <= |url| ==> MatchAt(url, j).None?
    ensures r.Some? ==> exists j :: 0 <= j <= |url| && MatchAt(url, j) == r
                                    && forall k :: 0 <= k < j ==> MatchAt(url, k).None?
  {
    var j := LeftmostFrom(url, 0);
    if j <= |url| then MatchAt(url, j) else None
  }

  // ---- build_url ---------------------------------------------------------------------------

  function PairStrings(params: seq<(string, string)>): (ps: seq<string>)
    ensures |ps| == |params|
  {
    seq(|params|, k requires 0 <= k < |params| => params[k].0 + "=" + params[k].1)
  }

  /** The query string: `&`-joined `k=v` pairs in insertion order, without encoding. */
  function QueryBody(params: seq<(string, string)>): string {
    Join(PairStrings(params), "&")
  }

  /** The base with its trailing slashes removed, one '/', and the path with its leading slashes removed. */
  function JoinPath(base: string, path: string): string {
    RStripChar(base, '/') + "/" + LStripChar(path, '/')
  }

  /** `build_url(base_url, path, params)` */
  function BuildUrl(base: string, path: string, params: seq<(string, string)>): (r: string)
    ensures |params| == 0 ==> r == JoinPath(base, path)
    ensures |params| > 0 ==> r == JoinPath(base, path) + "?" + QueryBody(params)
  {
    JoinPath(base, path) + (if |params| > 0 then "?" + QueryBody(params) else "")
  }

  /**
   * Exactly one '/' sits at the seam: the kept base does not end in '/', the
   * next character is '/', and the one after it (path, '?' or nothing) is
   * not. The kept base is `base` without its trailing slashes.
   */
  lemma BuildUrlSeam(base: string, path: string, params: seq<(string, string)>)
    ensures var b := RStripChar(base, '/');
            var r := BuildUrl(base, path, params);
            && |r| > |b|
            && |b| <= |base| && r[..|b|] == b && base == b + base[|b|..]
            && (forall i :: |b| <= i < |base| ==> base[i] == '/')
            && (|b| == 0 || r[|b| - 1] != '/')
            && r[|b|] == '/'
            && (|r| > |b| + 1 ==> r[|b| + 1] != '/')
  {
    RStripCharSpec(base, '/');
    LStripCharSpec(path, '/');
    var b := RStripChar(base, '/');
    assert base == b + base[|b|..];
  }

  /** The path part is `path` without its leading slashes; a query follows iff there are parameters. */
  lemma BuildUrlPath(base: string, path: string, params: seq<(string, string)>)
    ensures var b := RStripChar(base, '/');
            var p := LStripChar(path, '/');
            var r := BuildUrl(base, path, params);
            && |p| <= |path| && path == path[..|path| - |p|] + p
            && (forall i :: 0 <= i < |path| - |p| ==> path[i] == '/')
            && r[|b| + 1..|b| + 1 + |p|] == p
            && (|params| > 0 <==> |r| > |b| + 1 + |p|)
            && (|params| > 0 ==> r[|b| + 1 + |p|] == '?')
  {
    LStripCharSpec(path, '/');
    var p := LStripChar(path, '/');
    assert path == path[..|path| - |p|] + p;
  }

  /** `k=v` back into a pair: the text before the first '=' and the rest rejoined. */
  function ParsePair(part: string): (kv: (string, string)) {
    var fields := Split(part, '=');
    (fields[0], Join(fields[1..], "="))
  }

  /** Reads a query string back into its pairs. */
  function ParseQuery(q: string): (params: seq<(string, string)>)
    ensures |params| == |Split(q, '&')|
  {
    var parts := Split(q, '&');
    seq(|parts|, k requires 0 <= k < |parts| => ParsePair(parts[k]))
  }

  predicate PlainQueryText(s: string) {
    '&' !in s && '=' !in s
  }

  /** With no '&' or '=' in any key or value, the query string reads back to the parameters. */
  lemma QueryRoundTrip(params: seq<(string, string)>)
    requires |params| > 0
    requires forall k :: 0 <= k < |params| ==> PlainQueryText(params[k].0) && PlainQueryText(params[k].1)
    ensures ParseQuery(QueryBody(params)) == params
  {
    var ps := PairStrings(params);
    forall k | 0 <= k < |ps|
      ensures '&' !in ps[k]
      ensures ParsePair(ps[k]) == params[k]
    {
      var key := params[k].0;
      var value := params[k].1;
      assert ps[k] == key + ['='] + value;
      SplitAfterPart(key, '=', value);
      SplitOfFree(value, '=');
      assert Split(ps[k], '=') == [key, value];
    }
    SplitJoin(ps, '&');
  }

  /**
   * Keys and values are not percent-encoded as section 2.1 of RFC 3986
   * requires, so different parameters can build the same URL: a value
   * holding "&b=2" reads as a second pair.
   */
  lemma QueryAmbiguous(one: seq<(string, string)>, two: seq<(string, string)>)
    requires one == [("a", "1&b=2")] && two == [("a", "1"), ("b", "2")]
    ensures one != two
    ensures BuildUrl("https://x.com", "p", one) == BuildUrl("https://x.com", "p", two)
  {
    var p1 := PairStrings(one);
    var p2 := PairStrings(two);
    assert "a" + "=" + "1&b=2" == "a=1&b=2";
    assert "a" + "=" + "1" == "a=1" && "b" + "=" + "2" == "b=2";
    assert p1[0] == "a=1&b=2";
    assert p1 == ["a=1&b=2"];
    assert p2[0] == "a=1" && p2[1] == "b=2";
    assert p2 == ["a=1", "b=2"];
    assert Join(["a=1", "b=2"], "&") == "a=1" + "&" + Join(["b=2"], "&");
  }

  /** A URL built on an `https://` origin whose host has no "www." yields that host. */
  lemma ExtractDomainOfBuiltUrl(host: string, path: string, params: seq<(string, string)>)
    requires 0 < |host| && '/' !in host && !StartsWith(host, "www.")
    ensures ExtractDomain(BuildUrl("https://" + host, path, params)) == Some(host)
  {
    var origin := "https://" + host;
    assert RStripChar(origin, '/') == origin by {
      assert origin[|origin| - 1] == host[|host| - 1];
    }
    var url := BuildUrl(origin, path, params);
    var rest := url[8..];
    assert url == "https://" + rest;
    SchemeOf("https://", rest);
    assert url[8..] == rest;
    assert rest[..|host|] == host && rest[|host|] == '/';
    NotWwwPrefix(host, rest);
    NonSlashPrefix(rest, host);
    assert HostAt(rest) == Some(host);
  }

  lemma NotWwwPrefix(host: string, rest: string)
    requires |host| < |rest| && rest[..|host|] == host && rest[|host|] == '/'
    requires !StartsWith(host, "www.")
    ensures !StartsWith(rest, "www.")
  {
    if |host| >= 4 {
      assert rest[..4] == host[..4];
    } else {
      assert "www."[|host|] != '/';
    }
  }

  /** A leading "www." is dropped from the extracted host. */
  lemma ExtractDomainDropsWww(scheme: string, host: string, tail: string)
    requires scheme == "https://" || scheme == "http://"
    requires 0 < |host| && '/' !in host
    requires |tail| == 0 || tail[0] == '/'
    ensures ExtractDomain(scheme + "www." + host + tail) == Some(host)
  {
    var url := scheme + "www." + host + tail;
    var rest := "www." + host + tail;
    assert url == scheme + rest;
    SchemeOf(scheme, rest);
    assert url[|scheme|..] == rest;
    assert StartsWith(rest, "www.");
    assert rest[4..] == host + tail;
    NonSlashPrefix(host + tail, host);
    assert HostAt(rest) == Some(host);
  }

  lemma SchemeOf(scheme: string, rest: string)
    requires scheme == "https://" || scheme == "http://"
    ensures SchemeEnd(scheme + rest, 0) == Some(|scheme|)
  {
    var url := scheme + rest;
    assert url[0..] == url;
    assert url[..|scheme|] == scheme;
    if scheme == "http://" {
      assert url[4] == ':';
    }
  }

  lemma NonSlashPrefix(s: string, w: string)
    requires '/' !in w && |w| <= |s| && s[..|w|] == w
    requires |w| == |s| || s[|w|] == '/'
    ensures NonSlashLen(s) == |w|
  {
  }

  // ---- generate_css_selector ---------------------------------------------------------------

  /** The parts of a parsed element the selector uses: `id` and `class` are optional attributes. */
  datatype Element = Element(name: string, id: Option<string>, classes: Option<seq<string>>)

  /** `generate_css_selector(element)`: "#id", else "name.c1.c2", else "name". */
  function CssSelector(e: Element): (sel: string)
    ensures Truthy(e.id) ==> sel == "#" + e.id.value
    ensures !Truthy(e.id) && e.classes.Some? && |e.classes.value| > 0 ==> StartsWith(sel, e.name + ".")
    ensures !Truthy(e.id) && (e.classes.None? || |e.classes.value| == 0) ==> sel == e.name
  {
    if Truthy(e.id) then "#" + e.id.value
    else if e.classes.Some? && |e.classes.value| > 0 then e.name + "." + Join(e.classes.value, ".")
    else e.name
  }

  /** Without an id, the selector splits on '.' into the tag name and the classes. */
  lemma CssSelectorParts(e: Element)
    requires !Truthy(e.id) && e.classes.Some? && |e.classes.value| > 0
    requires '.' !in e.name && forall k :: 0 <= k < |e.classes.value| ==> '.' !in e.classes.value[k]
    ensures Split(CssSelector(e), '.') == [e.name] + e.classes.value
  {
    var cs := e.classes.value;
    SplitJoin([e.name] + cs, '.');
    assert ([e.name] + cs)[1..] == cs;
  }
}
