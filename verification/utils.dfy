/**
 * The shared helpers: reading the query out of a search results URL,
 * building the URL of a search, recognising a search results page, and
 * listing the enabled engines.
 */
module Utils {
  import opened Wrappers
  import opened Strings
  import opened OrderedDict
  import opened UriCodec
  import opened Url
  import opened Constants

  // ---------------------------------------------------------------- extractQueryFromURL

  /**
   * The search query of `url` for `engine`: the first value of the engine's
   * query parameter, decoded a second time by `decodeURIComponent`. `None`
   * (the function's `null`) when the URL does not parse, the parameter is
   * missing or empty, or the second decoding throws.
   */
  function ExtractQueryFromURL(url: string, engine: Engine): (r: Option<string>)
    ensures r.Some? ==> r.value != [] && UrlQuery(url).Some?
    ensures r.Some? ==> SearchParamsGet(FormParse(UrlQuery(url).value), engine.queryParam).Some?
  {
    match UrlQuery(url)
    case None => None
    case Some(query) =>
      match SearchParamsGet(FormParse(query), engine.queryParam)
      case None => None
      case Some(value) => if value == "" then None else DecodeURIComponent(value)
  }

  /** Every way extraction fails ends in `None`, never in an exception. */
  lemma ExtractFailures(url: string, engine: Engine)
    ensures UrlQuery(url).None? ==> ExtractQueryFromURL(url, engine).None?
    ensures UrlQuery(url).Some? && SearchParamsGet(FormParse(UrlQuery(url).value), engine.queryParam) in {None, Some("")}
            ==> ExtractQueryFromURL(url, engine).None?
  {
  }

  /**
   * The value read from the query string is decoded once more: it comes
   * back unchanged exactly when it holds no `%`; with a `%` it either fails
   * or comes back different.
   */
  lemma ExtractDecodesTwice(url: string, engine: Engine, query: string, value: string)
    requires UrlQuery(url) == Some(query)
    requires SearchParamsGet(FormParse(query), engine.queryParam) == Some(value) && value != ""
    ensures ExtractQueryFromURL(url, engine) == DecodeURIComponent(value)
    ensures ExtractQueryFromURL(url, engine) == Some(value) <==> '%' !in value
  {
    DecodeIdentityIff(value);
  }

  // ---------------------------------------------------------------- buildSearchURL

  /**
   * The engine's template with its first `{query}` replaced by the encoded
   * query; a template without a placeholder comes back as it is.
   */
  function BuildSearchURL(query: string, engine: Engine): (r: string)
    ensures !Contains(engine.searchUrl, Placeholder) ==> r == engine.searchUrl
    ensures Contains(engine.searchUrl, Placeholder) ==>
      exists k | 0 <= k <= |engine.searchUrl| - |Placeholder| ::
        && OccursAt(engine.searchUrl, Placeholder, k)
        && (forall j | 0 <= j < k :: !OccursAt(engine.searchUrl, Placeholder, j))
        && r == engine.searchUrl[..k] + EncodeURIComponent(query) + engine.searchUrl[k + |Placeholder|..]
  {
    var encoded := EncodeURIComponent(query);
    EncodedTextOnly(query);
    EncodedTextExcludes(encoded);
    ReplaceFirst(engine.searchUrl, Placeholder, encoded)
  }

  /**
   * A template whose only braces are those of one `{query}` gives a URL
   * without a placeholder: the encoded query holds no brace.
   */
  lemma BuildLeavesNoPlaceholder(query: string, engine: Engine, pre: string, post: string)
    requires engine.searchUrl == pre + Placeholder + post
    requires '{' !in pre && '{' !in post
    ensures BuildSearchURL(query, engine) == pre + EncodeURIComponent(query) + post
    ensures '{' !in BuildSearchURL(query, engine)
    ensures !Contains(BuildSearchURL(query, engine), Placeholder)
  {
    var encoded := EncodeURIComponent(query);
    EncodedTextOnly(query);
    EncodedTextExcludes(encoded);
    ReplaceFirstAfter(pre, Placeholder, post, encoded);
    var r := pre + encoded + post;
    assert '{' !in r;
    NoBraceNoPlaceholder(r);
  }

  /** Text without `{` holds no placeholder. */
  lemma NoBraceNoPlaceholder(r: string)
    requires '{' !in r
    ensures !Contains(r, Placeholder)
  {
    forall k | 0 <= k <= |r| - |Placeholder|
      ensures !OccursAt(r, Placeholder, k)
    {
      assert r[k..k + |Placeholder|][0] == r[k];
    }
  }

  /**
   * With a placeholder that is not the template's only brace, the output can
   * still read `{query}`: the template `{{query}ery}` holds one placeholder,
   * and the query `qu` turns it into `{query}`.
   */
  lemma BuildCanRecreatePlaceholder(engine: Engine)
    requires engine.searchUrl == "{{query}ery}"
    ensures forall k :: OccursAt(engine.searchUrl, Placeholder, k) <==> k == 1
    ensures BuildSearchURL("qu", engine) == Placeholder
  {
    var t := engine.searchUrl;
    NestedPlaceholder(t);
    EncodeQu();
    assert OccursAt(t, Placeholder, 1);
    assert BuildSearchURL("qu", engine) == t[..1] + "qu" + t[1 + |Placeholder|..];
    assert t[..1] + "qu" + t[8..] == Placeholder;
  }

  /** `{{query}ery}` holds `{query}` at position 1 only. */
  lemma NestedPlaceholder(t: string)
    requires t == "{{query}ery}"
    ensures forall k :: OccursAt(t, Placeholder, k) <==> k == 1
    ensures t[..1] == "{" && t[8..] == "ery}"
  {
    assert t == "{" + Placeholder + "ery}";
    forall k | OccursAt(t, Placeholder, k)
      ensures k == 1
    {
      assert t[k..k + 7][0] == t[k] == '{' && t[k..k + 7][1] == t[k + 1] == 'q';
    }
    assert t[1..8] == Placeholder;
  }

  lemma EncodeQu()
    ensures EncodeURIComponent("qu") == "qu"
  {
  }

  // ---------------------------------------------------------------- built-in templates

  /** Printable ASCII other than the characters the URL and form parsers give a meaning to, braces and `%`. */
  predicate IsPlainChar(c: char)
  {
    && 0x20 < c as int < 0x7F
    && c != '?' && c != '#' && c != '&' && c != '=' && c != '{' && c != '}' && c != '%' && c != '+'
  }

  predicate IsPlainText(s: string)
  {
    forall i | 0 <= i < |s| :: IsPlainChar(s[i])
  }

  /** A template `base?param={query}` whose base has a scheme and whose base and parameter are plain text. */
  predicate IsParamTemplate(t: string, base: string, param: string)
  {
    && t == base + "?" + param + "=" + Placeholder
    && HasScheme(base) && IsPlainText(base)
    && param != "" && IsPlainText(param)
  }

  /** The base of a template `base?param={query}`: all before `?param={query}`. */
  function TemplateBase(e: Engine): string
  {
    var n := |e.queryParam| + 2 + |Placeholder|;
    if |e.searchUrl| >= n then e.searchUrl[..|e.searchUrl| - n] else ""
  }

  lemma HttpsScheme(rest: string)
    ensures HasScheme("https:" + rest)
  {
    assert SchemeEnd("https:", 1) == Some(5);
    SchemeEndExtend("https:", rest, 1);
  }

  lemma TemplateBaseOf(e: Engine, base: string)
    requires e.searchUrl == base + "?" + e.queryParam + "=" + Placeholder
    ensures TemplateBase(e) == base
  {
    assert e.searchUrl[..|base|] == base;
  }

  lemma ParamTemplate(e: Engine, base: string)
    requires |base| >= 6 && base[..6] == "https:" && IsPlainText(base)
    requires e.queryParam != "" && IsPlainText(e.queryParam)
    requires e.searchUrl == base + "?" + e.queryParam + "=" + Placeholder
    ensures TemplateBase(e) == base
    ensures IsParamTemplate(e.searchUrl, TemplateBase(e), e.queryParam)
  {
    assert base == "https:" + base[6..];
    HttpsScheme(base[6..]);
    TemplateBaseOf(e, base);
  }

  /**
   * Every built-in template is `base?param={query}` with the engine's own
   * query parameter: the placeholder follows `<queryParam>=` and is the
   * template's only brace.
   */
  lemma BuiltinTemplate(n: nat)
    requires n < |BuiltinEngines|
    ensures IsParamTemplate(BuiltinEngines[n].1.searchUrl, TemplateBase(BuiltinEngines[n].1),
                            BuiltinEngines[n].1.queryParam)
  {
    if n == 0 {
      GoogleTemplate();
    } else if n == 1 {
      BaiduTemplate();
    } else if n == 2 {
      BingTemplate();
    } else if n == 3 {
      YahooTemplate();
    } else {
      DuckDuckGoTemplate();
    }
  }

  lemma GoogleTemplate()
    ensures TemplateBase(Google) == "https://www.google.com/search"
    ensures IsParamTemplate(Google.searchUrl, TemplateBase(Google), Google.queryParam)
  {
    GoogleUrl();
    GooglePlain();
    ParamTemplate(Google, "https://www.google.com/search");
  }

  lemma GoogleUrl()
    ensures Google.searchUrl == "https://www.google.com/search" + "?" + Google.queryParam + "=" + Placeholder
  {
  }

  lemma GooglePlain()
    ensures "https://www.google.com/search"[..6] == "https:" && IsPlainText("https://www.google.com/search")
    ensures Google.queryParam != "" && IsPlainText(Google.queryParam)
  {
  }

  lemma BaiduTemplate()
    ensures TemplateBase(Baidu) == "https://www.baidu.com/s"
    ensures IsParamTemplate(Baidu.searchUrl, TemplateBase(Baidu), Baidu.queryParam)
  {
    BaiduUrl();
    BaiduPlain();
    ParamTemplate(Baidu, "https://www.baidu.com/s");
  }

  lemma BaiduUrl()
    ensures Baidu.searchUrl == "https://www.baidu.com/s" + "?" + Baidu.queryParam + "=" + Placeholder
  {
  }

  lemma BaiduPlain()
    ensures "https://www.baidu.com/s"[..6] == "https:" && IsPlainText("https://www.baidu.com/s")
    ensures Baidu.queryParam != "" && IsPlainText(Baidu.queryParam)
  {
  }

  lemma BingTemplate()
    ensures TemplateBase(Bing) == "https://www.bing.com/search"
    ensures IsParamTemplate(Bing.searchUrl, TemplateBase(Bing), Bing.queryParam)
  {
    BingUrl();
    BingPlain();
    ParamTemplate(Bing, "https://www.bing.com/search");
  }

  lemma BingUrl()
    ensures Bing.searchUrl == "https://www.bing.com/search" + "?" + Bing.queryParam + "=" + Placeholder
  {
  }

  lemma BingPlain()
    ensures "https://www.bing.com/search"[..6] == "https:" && IsPlainText("https://www.bing.com/search")
    ensures Bing.queryParam != "" && IsPlainText(Bing.queryParam)
  {
  }

  lemma YahooTemplate()
    ensures TemplateBase(Yahoo) == "https://search.yahoo.com/search"
    ensures IsParamTemplate(Yahoo.searchUrl, TemplateBase(Yahoo), Yahoo.queryParam)
  {
    YahooUrl();
    YahooPlain();
    ParamTemplate(Yahoo, "https://search.yahoo.com/search");
  }

  lemma YahooUrl()
    ensures Yahoo.searchUrl == "https://search.yahoo.com/search" + "?" + Yahoo.queryParam + "=" + Placeholder
  {
  }

  lemma YahooPlain()
    ensures "https://search.yahoo.com/search"[..6] == "https:" && IsPlainText("https://search.yahoo.com/search")
    ensures Yahoo.queryParam != "" && IsPlainText(Yahoo.queryParam)
  {
  }

  lemma DuckDuckGoTemplate()
    ensures TemplateBase(DuckDuckGo) == "https://duckduckgo.com/"
    ensures IsParamTemplate(DuckDuckGo.searchUrl, TemplateBase(DuckDuckGo), DuckDuckGo.queryParam)
  {
    DuckDuckGoUrl();
    DuckDuckGoPlain();
    ParamTemplate(DuckDuckGo, "https://duckduckgo.com/");
  }

  lemma DuckDuckGoUrl()
    ensures DuckDuckGo.searchUrl == "https://duckduckgo.com/" + "?" + DuckDuckGo.queryParam + "=" + Placeholder
  {
  }

  lemma DuckDuckGoPlain()
    ensures "https://duckduckgo.com/"[..6] == "https:" && IsPlainText("https://duckduckgo.com/")
    ensures DuckDuckGo.queryParam != "" && IsPlainText(DuckDuckGo.queryParam)
  {
  }

  // ---------------------------------------------------------------- round trip

  /** The characters plain text leaves out. */
  lemma PlainFacts(s: string)
    requires IsPlainText(s)
    ensures '{' !in s && '}' !in s && '?' !in s && '#' !in s && '&' !in s && '=' !in s && '%' !in s && '+' !in s
    ensures forall i | 0 <= i < |s| :: !IsC0OrSpace(s[i])
  {
  }

  /** Building from a `base?param={query}` template puts the encoded query after `param=`. */
  lemma BuiltUrl(query: string, e: Engine, base: string)
    requires e.searchUrl == base + "?" + e.queryParam + "=" + Placeholder
    requires '{' !in base && '{' !in e.queryParam
    ensures BuildSearchURL(query, e) == base + "?" + (e.queryParam + "=" + EncodeURIComponent(query))
  {
    var pre := base + "?" + e.queryParam + "=";
    assert e.searchUrl == pre + Placeholder + "";
    BuildLeavesNoPlaceholder(query, e, pre, "");
    Regroup(base, e.queryParam, EncodeURIComponent(query));
  }

  lemma Regroup(base: string, param: string, value: string)
    ensures base + "?" + param + "=" + value + "" == base + "?" + (param + "=" + value)
  {
  }

  /**
   * Extraction after building, for a `base?param={query}` template: the
   * form parser undoes the encoding, then the second decoding runs on the
   * query itself, so an empty query gives `None` and any other gives
   * `decodeURIComponent(query)`.
   */
  lemma ExtractBuilt(query: string, e: Engine, base: string)
    requires IsParamTemplate(e.searchUrl, base, e.queryParam)
    ensures ExtractQueryFromURL(BuildSearchURL(query, e), e)
         == if query == "" then None else DecodeURIComponent(query)
  {
    var enc := EncodeURIComponent(query);
    PlainFacts(base);
    PlainFacts(e.queryParam);
    BuiltUrl(query, e, base);
    EncodedTextOnly(query);
    ExtractParamUrl(base, e, enc);
    FormDecodeEncoded(query);
  }

  /** Extraction from `base?param=value` for encoded text `value` reads the form decoding of `value`. */
  lemma ExtractParamUrl(base: string, e: Engine, enc: string)
    requires HasScheme(base) && IsPlainText(base) && e.queryParam != "" && IsPlainText(e.queryParam)
    requires IsEncodedText(enc)
    ensures ExtractQueryFromURL(base + "?" + (e.queryParam + "=" + enc), e)
         == if FormDecode(enc) == "" then None else DecodeURIComponent(FormDecode(enc))
  {
    var param := e.queryParam;
    PlainFacts(base);
    PlainFacts(param);
    EncodedTextExcludes(enc);
    var q := param + "=" + enc;
    assert '#' !in q;
    assert forall i | 0 <= i < |q| :: !IsC0OrSpace(q[i]) by {
      forall i | 0 <= i < |q| ensures !IsC0OrSpace(q[i]) {
        if i < |param| {
          assert q[i] == param[i];
        } else if i > |param| {
          assert q[i] == enc[i - |param| - 1];
        }
      }
    }
    UrlQueryOf(base, q);
    FormParseSingle(param, enc);
    FormDecodePlain(param);
  }

  /**
   * The round trip through a built-in engine: a non-empty query without `%`
   * comes back as it was; a query with `%` never does, because the value
   * is decoded twice.
   */
  lemma BuiltinRoundTrip(query: string, n: nat)
    requires n < |BuiltinEngines|
    ensures var e := BuiltinEngines[n].1;
      && (query != "" && '%' !in query ==> ExtractQueryFromURL(BuildSearchURL(query, e), e) == Some(query))
      && ('%' in query ==> ExtractQueryFromURL(BuildSearchURL(query, e), e) != Some(query))
  {
    var e := BuiltinEngines[n].1;
    BuiltinTemplate(n);
    ExtractBuilt(query, e, TemplateBase(e));
    DecodeIdentityIff(query);
  }

  // ---------------------------------------------------------------- detection patterns

  /** The characters `.` in a regular expression does not match. */
  predicate IsLineTerminator(c: char)
  {
    c == '\n' || c == '\r' || c == '\U{2028}' || c == '\U{2029}'
  }

  /**
   * `/H.*[?&]P=/` matches `url` with `H` at `i` and the `?` or `&` at `j`:
   * nothing between the host text and `j` ends a line, and `P=` follows `j`.
   */
  ghost predicate MatchAt(url: string, host: string, param: string, i: int, j: int)
  {
    && OccursAt(url, host, i)
    && i + |host| <= j < |url|
    && (url[j] == '?' || url[j] == '&')
    && OccursAt(url, param + "=", j + 1)
    && forall k | i + |host| <= k < j :: !IsLineTerminator(url[k])
  }

  ghost predicate RegexMatches(url: string, host: string, param: string)
  {
    exists i, j :: MatchAt(url, host, param, i, j)
  }

  /** Some `?` or `&` at or after `k`, on the same line, is followed by `P=`. */
  function ParamAfter(url: string, param: string, k: nat): bool
    decreases |url| - k
  {
    if k >= |url| then false
    else if (url[k] == '?' || url[k] == '&') && OccursAt(url, param + "=", k + 1) then true
    else if IsLineTerminator(url[k]) then false
    else ParamAfter(url, param, k + 1)
  }

  lemma {:induction false} ParamAfterSpec(url: string, param: string, k: nat)
    decreases |url| - k
    ensures ParamAfter(url, param, k) <==> exists j | k <= j < |url| ::
      && (url[j] == '?' || url[j] == '&')
      && OccursAt(url, param + "=", j + 1)
      && forall m | k <= m < j :: !IsLineTerminator(url[m])
  {
    if k < |url| {
      ParamAfterSpec(url, param, k + 1);
    }
  }

  /** Some occurrence of the host text at or after `i` is followed by a match of `[?&]P=`. */
  function HostFrom(url: string, host: string, param: string, i: nat): bool
    decreases |url| - i
  {
    if i > |url| then false
    else (OccursAt(url, host, i) && ParamAfter(url, param, i + |host|)) || HostFrom(url, host, param, i + 1)
  }

  lemma {:induction false} HostFromSpec(url: string, host: string, param: string, i: nat)
    decreases |url| - i
    ensures HostFrom(url, host, param, i) <==>
      exists i' | i <= i' <= |url| :: OccursAt(url, host, i') && ParamAfter(url, param, i' + |host|)
  {
    if i <= |url| {
      HostFromSpec(url, host, param, i + 1);
    }
  }

  /** `pattern.test(url)` for a built-in pattern. */
  function PatternTest(url: string, host: string, param: string): bool
  {
    HostFrom(url, host, param, 0)
  }

  /** The search agrees with the regular expression's meaning. */
  lemma PatternTestMatches(url: string, host: string, param: string)
    ensures PatternTest(url, host, param) <==> RegexMatches(url, host, param)
  {
    if PatternTest(url, host, param) {
      PatternTestSound(url, host, param);
    }
    if RegexMatches(url, host, param) {
      var i, j :| MatchAt(url, host, param, i, j);
      PatternTestComplete(url, host, param, i, j);
    }
  }

  lemma PatternTestSound(url: string, host: string, param: string)
    requires PatternTest(url, host, param)
    ensures RegexMatches(url, host, param)
  {
    var i := HostFromWitness(url, host, param, 0);
    var j := ParamAfterWitness(url, param, i + |host|);
    assert MatchAt(url, host, param, i, j);
  }

  /** The position of the `?` or `&` that `ParamAfter` finds. */
  lemma {:induction false} ParamAfterWitness(url: string, param: string, k: nat) returns (j: nat)
    requires ParamAfter(url, param, k)
    decreases |url| - k
    ensures k <= j < |url| && (url[j] == '?' || url[j] == '&') && OccursAt(url, param + "=", j + 1)
    ensures forall m | k <= m < j :: !IsLineTerminator(url[m])
  {
    if (url[k] == '?' || url[k] == '&') && OccursAt(url, param + "=", k + 1) {
      j := k;
    } else {
      j := ParamAfterWitness(url, param, k + 1);
    }
  }

  /** The position of the host text that `HostFrom` finds. */
  lemma {:induction false} HostFromWitness(url: string, host: string, param: string, i: nat) returns (h: nat)
    requires HostFrom(url, host, param, i)
    decreases |url| - i
    ensures i <= h && OccursAt(url, host, h) && ParamAfter(url, param, h + |host|)
  {
    if OccursAt(url, host, i) && ParamAfter(url, param, i + |host|) {
      h := i;
    } else {
      h := HostFromWitness(url, host, param, i + 1);
    }
  }

  lemma PatternTestComplete(url: string, host: string, param: string, i: int, j: int)
    requires MatchAt(url, host, param, i, j)
    ensures PatternTest(url, host, param)
  {
    ParamAfterSpec(url, param, i + |host|);
    assert ParamAfter(url, param, i + |host|);
    HostFromSpec(url, host, param, 0);
  }

  /** A pattern as detection applies it; detection only ever sees built-in patterns. */
  predicate PatternMatches(p: Pattern, url: string)
  {
    match p
    case HostParam(host, param) => PatternTest(url, host, param)
    case CustomRegExp(_) => false
  }

  predicate EngineMatches(e: Engine, url: string)
  {
    exists k | 0 <= k < |e.patterns| :: PatternMatches(e.patterns[k], url)
  }

  /** Some pattern of the engine matches, in the regular expressions' own terms. */
  ghost predicate EngineRegexMatches(e: Engine, url: string)
  {
    exists k | 0 <= k < |e.patterns| ::
      e.patterns[k].HostParam? && RegexMatches(url, e.patterns[k].host, e.patterns[k].param)
  }

  lemma EngineMatchesRegex(e: Engine, url: string)
    requires forall k | 0 <= k < |e.patterns| :: e.patterns[k].HostParam?
    ensures EngineMatches(e, url) <==> EngineRegexMatches(e, url)
  {
    forall k | 0 <= k < |e.patterns|
      ensures PatternMatches(e.patterns[k], url) <==> RegexMatches(url, e.patterns[k].host, e.patterns[k].param)
    {
      PatternTestMatches(url, e.patterns[k].host, e.patterns[k].param);
    }
  }

  // ---------------------------------------------------------------- detectSearchEngine

  /** The first built-in engine at index `n` or later with a matching pattern. */
  function DetectFrom(url: string, n: nat): (r: Option<Engine>)
    requires n <= |BuiltinEngines|
    decreases |BuiltinEngines| - n
    ensures r.None? <==> forall m | n <= m < |BuiltinEngines| :: !EngineMatches(BuiltinEngines[m].1, url)
    ensures r.Some? ==> exists m | n <= m < |BuiltinEngines| ::
      && r.value == BuiltinEngines[m].1 && EngineMatches(BuiltinEngines[m].1, url)
      && forall l | n <= l < m :: !EngineMatches(BuiltinEngines[l].1, url)
  {
    if n == |BuiltinEngines| then None
    else if EngineMatches(BuiltinEngines[n].1, url) then Some(BuiltinEngines[n].1)
    else DetectFrom(url, n + 1)
  }

  /** The engine `detectSearchEngine(url)` returns, `None` for `null`. */
  function Detect(url: string): Option<Engine>
  {
    DetectFrom(url, 0)
  }

  /** `detectSearchEngine`: the built-in engines in table order, each engine's patterns in order, first match wins. */
  method DetectSearchEngine(url: string) returns (r: Option<Engine>)
    ensures r == Detect(url)
  {
    var i := 0;
    while i < |BuiltinEngines|
      invariant 0 <= i <= |BuiltinEngines|
      invariant DetectFrom(url, i) == Detect(url)
    {
      var engine := BuiltinEngines[i].1;
      DetectFromStep(url, i);
      var hit := AnyPatternMatches(engine, url);
      if hit {
        return Some(engine);
      }
      i := i + 1;
    }
    return None;
  }

  /** The inner loop of `detectSearchEngine`: the engine's patterns in order, stopping at the first that matches. */
  method AnyPatternMatches(engine: Engine, url: string) returns (b: bool)
    ensures b == EngineMatches(engine, url)
  {
    var k := 0;
    while k < |engine.patterns|
      invariant 0 <= k <= |engine.patterns|
      invariant !MatchesBefore(engine, url, k)
    {
      if PatternMatches(engine.patterns[k], url) {
        MatchesBeforeSpec(engine, url, k + 1);
        return true;
      }
      k := k + 1;
    }
    MatchesBeforeSpec(engine, url, k);
    return false;
  }

  /** One of the first `k` patterns of `e` matches `url`. */
  function MatchesBefore(e: Engine, url: string, k: nat): bool
    requires k <= |e.patterns|
  {
    k > 0 && (MatchesBefore(e, url, k - 1) || PatternMatches(e.patterns[k - 1], url))
  }

  lemma {:induction false} MatchesBeforeSpec(e: Engine, url: string, k: nat)
    requires k <= |e.patterns|
    ensures MatchesBefore(e, url, k) <==> exists l | 0 <= l < k :: PatternMatches(e.patterns[l], url)
  {
    if k > 0 {
      MatchesBeforeSpec(e, url, k - 1);
    }
  }

  lemma DetectFromStep(url: string, n: nat)
    requires n < |BuiltinEngines|
    ensures DetectFrom(url, n) == if EngineMatches(BuiltinEngines[n].1, url) then Some(BuiltinEngines[n].1)
                                  else DetectFrom(url, n + 1)
  {
  }

  /** `isSearchResultsPage`: detection finds an engine. */
  method IsSearchResultsPage(url: string) returns (b: bool)
    ensures b <==> Detect(url).Some?
    ensures b <==> exists n | 0 <= n < |BuiltinEngines| :: EngineRegexMatches(BuiltinEngines[n].1, url)
  {
    var engine := DetectSearchEngine(url);
    b := engine.Some?;
    DetectNoneIff(url);
  }

  lemma DetectNoneIff(url: string)
    ensures Detect(url).None? <==> forall n | 0 <= n < |BuiltinEngines| :: !EngineRegexMatches(BuiltinEngines[n].1, url)
  {
    forall n | 0 <= n < |BuiltinEngines|
      ensures EngineMatches(BuiltinEngines[n].1, url) <==> EngineRegexMatches(BuiltinEngines[n].1, url)
    {
      BuiltinIds(n);
      EngineMatchesRegex(BuiltinEngines[n].1, url);
    }
  }

  /**
   * Detection answers the built-in at index `n` exactly when one of its
   * patterns matches and none of an earlier engine's does; custom engines
   * are never consulted.
   */
  lemma DetectFirstMatch(url: string, n: nat)
    requires n < |BuiltinEngines|
    ensures Detect(url) == Some(BuiltinEngines[n].1) <==>
      && EngineRegexMatches(BuiltinEngines[n].1, url)
      && forall m | 0 <= m < n :: !EngineRegexMatches(BuiltinEngines[m].1, url)
  {
    forall m | 0 <= m < |BuiltinEngines|
      ensures EngineMatches(BuiltinEngines[m].1, url) <==> EngineRegexMatches(BuiltinEngines[m].1, url)
    {
      BuiltinIds(m);
      EngineMatchesRegex(BuiltinEngines[m].1, url);
    }
    BuiltinDistinct();
  }

  /** No two built-in records are equal. */
  lemma BuiltinDistinct()
    ensures forall m, l | 0 <= m < l < |BuiltinEngines| :: BuiltinEngines[m].1 != BuiltinEngines[l].1
  {
    forall m, l | 0 <= m < l < |BuiltinEngines|
      ensures BuiltinEngines[m].1 != BuiltinEngines[l].1
    {
      BuiltinIds(m);
      BuiltinIds(l);
      BuiltinOrder();
    }
  }

  // ---------------------------------------------------------------- getEnabledEngines

  /** `engines[id]?.enabled !== false`: an engine without a stored flag is enabled. */
  predicate IsEnabled(flags: map<string, bool>, id: string)
  {
    !(id in flags && !flags[id])
  }

  /** `{ ...engine, id }`: the record with its key as `id`. */
  function Tag(id: string, e: Engine): Engine
  {
    e.(id := Some(id))
  }

  /** The keys of `ks` whose engines are enabled, in order. */
  function EnabledKeys(ks: seq<string>, flags: map<string, bool>): seq<string>
  {
    if ks == [] then []
    else (if IsEnabled(flags, ks[0]) then [ks[0]] else []) + EnabledKeys(ks[1..], flags)
  }

  /** The enabled entries of `entries`, each tagged with its key, in entry order. */
  function EnabledOf(entries: Dict<Engine>, flags: map<string, bool>): seq<Engine>
  {
    if entries == [] then []
    else (if IsEnabled(flags, entries[0].0) then [Tag(entries[0].0, entries[0].1)] else [])
         + EnabledOf(entries[1..], flags)
  }

  /** The list `getEnabledEngines` returns for the stored flags and custom engines. */
  function EnabledEngines(flags: map<string, bool>, custom: Dict<Engine>): seq<Engine>
  {
    EnabledOf(Spread(BuiltinEngines, custom), flags)
  }

  /**
   * `getEnabledEngines`: walks the entries of `{ ...BUILTIN_ENGINES,
   * ...customEngines }` and pushes each enabled one, tagged with its key.
   * Missing storage keys read as `{}`.
   */
  method GetEnabledEngines(stored: SyncStorage) returns (r: seq<Engine>)
    ensures r == EnabledEngines(stored.engines.GetOr(map[]), stored.customEngines.GetOr([]))
  {
    var flags := stored.engines.GetOr(map[]);
    var all := Spread(BuiltinEngines, stored.customEngines.GetOr([]));
    r := [];
    var i := 0;
    while i < |all|
      invariant 0 <= i <= |all|
      invariant r == EnabledOf(all[..i], flags)
    {
      var id := all[i].0;
      var engine := all[i].1;
      assert all[..i + 1] == all[..i] + [all[i]];
      EnabledOfConcat(all[..i], [all[i]], flags);
      if IsEnabled(flags, id) {
        r := r + [Tag(id, engine)];
      }
      i := i + 1;
    }
    assert all[..|all|] == all;
  }

  lemma {:induction false} EnabledOfConcat(a: Dict<Engine>, b: Dict<Engine>, flags: map<string, bool>)
    ensures EnabledOf(a + b, flags) == EnabledOf(a, flags) + EnabledOf(b, flags)
  {
    if a != [] {
      assert (a + b)[1..] == a[1..] + b;
      EnabledOfConcat(a[1..], b, flags);
    } else {
      assert a + b == b;
    }
  }

  /** A key is kept exactly when it is among the keys and its engine is enabled. */
  lemma {:induction false} EnabledKeysIn(ks: seq<string>, flags: map<string, bool>, k: string)
    ensures k in EnabledKeys(ks, flags) <==> k in ks && IsEnabled(flags, k)
  {
    if ks != [] {
      EnabledKeysIn(ks[1..], flags, k);
      assert ks == [ks[0]] + ks[1..];
    }
  }

  /**
   * The enabled entries of a dictionary are, in key order, the enabled keys,
   * each with its own value and that key as `id`.
   */
  lemma {:induction false} EnabledOfKeys(d: Dict<Engine>, flags: map<string, bool>)
    requires DistinctKeys(d)
    ensures var r := EnabledOf(d, flags);
      var ks := EnabledKeys(Keys(d), flags);
      && |r| == |ks|
      && forall i | 0 <= i < |r| :: ks[i] in ToMap(d) && r[i] == Tag(ks[i], ToMap(d)[ks[i]])
  {
    if d != [] {
      var k0, v0 := d[0].0, d[0].1;
      DistinctTail(d);
      EnabledOfKeys(d[1..], flags);
      assert Keys(d) == [k0] + Keys(d[1..]);
      var r, ks := EnabledOf(d, flags), EnabledKeys(Keys(d), flags);
      var r', ks' := EnabledOf(d[1..], flags), EnabledKeys(Keys(d[1..]), flags);
      var m, m' := ToMap(d), ToMap(d[1..]);
      assert m == m'[k0 := v0];
      forall k | k in ks'
        ensures k in m' && k != k0
      {
        EnabledKeysIn(Keys(d[1..]), flags, k);
        HasKeyOfKeys(d[1..], k);
      }
      var h := if IsEnabled(flags, k0) then 1 else 0;
      assert r == r[..h] + r' && ks == ks[..h] + ks';
      forall i | 0 <= i < |r|
        ensures ks[i] in m && r[i] == Tag(ks[i], m[ks[i]])
      {
        if i < h {
          assert ks[i] == k0 && r[i] == Tag(k0, v0);
        } else {
          assert ks[i] == ks'[i - h] && r[i] == r'[i - h];
        }
      }
    }
  }

  /**
   * What `getEnabledEngines` lists: the keys of the built-in table in its
   * order, then the custom keys it lacks, keeping each key whose flag is not
   * `false`; each listed record is the custom one when a custom engine
   * shares the key, the built-in otherwise, with `id` set to the key.
   */
  lemma EnabledEnginesSpec(flags: map<string, bool>, custom: Dict<Engine>)
    requires DistinctKeys(custom)
    ensures var r := EnabledEngines(flags, custom);
      var ks := EnabledKeys(Keys(BuiltinEngines) + NewKeys(BuiltinEngines, custom), flags);
      var m := ToMap(BuiltinEngines) + ToMap(custom);
      && |r| == |ks|
      && forall i | 0 <= i < |r| :: ks[i] in m && r[i] == Tag(ks[i], m[ks[i]])
  {
    BuiltinOrder();
    SpreadDistinct(BuiltinEngines, custom);
    SpreadKeys(BuiltinEngines, custom);
    SpreadToMap(BuiltinEngines, custom);
    EnabledOfKeys(Spread(BuiltinEngines, custom), flags);
  }

  /** Every key of the merged table whose flag is not `false` is listed; no other is. */
  lemma EnabledEnginesListed(flags: map<string, bool>, custom: Dict<Engine>, id: string)
    requires DistinctKeys(custom)
    ensures (exists i | 0 <= i < |EnabledEngines(flags, custom)| :: EnabledEngines(flags, custom)[i].id == Some(id))
        <==> (id in ToMap(BuiltinEngines) + ToMap(custom) && IsEnabled(flags, id))
  {
    var r := EnabledEngines(flags, custom);
    var all := Keys(BuiltinEngines) + NewKeys(BuiltinEngines, custom);
    var ks := EnabledKeys(all, flags);
    EnabledEnginesSpec(flags, custom);
    EnabledKeysIn(all, flags, id);
    BuiltinOrder();
    SpreadKeys(BuiltinEngines, custom);
    SpreadToMap(BuiltinEngines, custom);
    HasKeyOfKeys(Spread(BuiltinEngines, custom), id);
    if id in ks {
      var i :| 0 <= i < |ks| && ks[i] == id;
      assert r[i].id == Some(id);
    }
  }

  // ---------------------------------------------------------------- detecting a built URL

  /**
   * On a URL built from a `base?param={query}` template, `/H.*[?&]P=/`
   * matches exactly when the host text lies in the base and `P` is the
   * template's parameter: the only `?` or `&` is the one ending the base,
   * and the encoded query adds none.
   */
  lemma BuiltMatches(base: string, param: string, enc: string, h: string, p: string)
    requires IsPlainText(base) && IsPlainText(param) && IsEncodedText(enc) && '=' !in p
    ensures RegexMatches(base + "?" + (param + "=" + enc), h, p) <==> Contains(base, h) && p == param
  {
    var url := base + "?" + (param + "=" + enc);
    if RegexMatches(url, h, p) {
      var i, j :| MatchAt(url, h, p, i, j);
      BuiltMatchAt(base, param, enc, h, p, i, j);
    }
    if Contains(base, h) && p == param {
      var i :| 0 <= i <= |base| - |h| && OccursAt(base, h, i);
      BuiltMatchFrom(base, param, enc, h, i);
    }
  }

  lemma BuiltMatchAt(base: string, param: string, enc: string, h: string, p: string, i: int, j: int)
    requires IsPlainText(base) && IsPlainText(param) && IsEncodedText(enc) && '=' !in p
    requires MatchAt(base + "?" + (param + "=" + enc), h, p, i, j)
    ensures j == |base| && p == param && OccursAt(base, h, i)
  {
    var rest := param + "=" + enc;
    var url := base + "?" + rest;
    PlainFacts(base);
    PlainFacts(param);
    EncodedTextExcludes(enc);
    forall m | 0 <= m < |url| && m != |base|
      ensures url[m] != '?' && url[m] != '&'
    {
      if m < |base| {
        assert url[m] == base[m];
      } else if m <= |base| + |param| {
        assert url[m] == param[m - |base| - 1];
      } else if m > |base| + |param| + 1 {
        assert url[m] == enc[m - |base| - |param| - 2];
      }
    }
    assert j == |base|;
    var x := url[j + |p| + 2..];
    assert url[j + 1..] == rest;
    assert url[j + 1..] == url[j + 1..j + 1 + |p + "="|] + x;
    FirstEqualsUnique(p, x, param, enc);
    assert base[i..i + |h|] == url[i..i + |h|];
  }

  lemma BuiltMatchFrom(base: string, param: string, enc: string, h: string, i: int)
    requires IsPlainText(base) && OccursAt(base, h, i)
    ensures MatchAt(base + "?" + (param + "=" + enc), h, param, i, |base|)
  {
    var url := base + "?" + (param + "=" + enc);
    assert url[i..i + |h|] == base[i..i + |h|];
    assert url[|base| + 1..|base| + 1 + |param + "="|] == param + "=";
    forall m | i + |h| <= m < |base|
      ensures !IsLineTerminator(url[m])
    {
      assert url[m] == base[m];
    }
  }

  /** A text with a character the string lacks does not occur in it. */
  lemma NotContainsByChar(s: string, pat: string, c: char)
    requires c in pat && c !in s
    ensures !Contains(s, pat)
  {
    var t :| 0 <= t < |pat| && pat[t] == c;
    forall i | 0 <= i <= |s| - |pat|
      ensures !OccursAt(s, pat, i)
    {
      assert s[i..i + |pat|][t] == s[i + t];
    }
  }

  /**
   * An engine whose patterns are all host-and-parameter patterns matches a
   * built URL exactly when one of its patterns names the template's
   * parameter and a host text found in the base.
   */
  lemma EngineBuilt(e: Engine, base: string, param: string, enc: string)
    requires IsPlainText(base) && IsPlainText(param) && IsEncodedText(enc)
    requires forall k | 0 <= k < |e.patterns| :: e.patterns[k].HostParam? && '=' !in e.patterns[k].param
    ensures EngineRegexMatches(e, base + "?" + (param + "=" + enc)) <==>
      exists k | 0 <= k < |e.patterns| :: Contains(base, e.patterns[k].host) && e.patterns[k].param == param
  {
    forall k | 0 <= k < |e.patterns|
      ensures RegexMatches(base + "?" + (param + "=" + enc), e.patterns[k].host, e.patterns[k].param)
          <==> Contains(base, e.patterns[k].host) && e.patterns[k].param == param
    {
      BuiltMatches(base, param, enc, e.patterns[k].host, e.patterns[k].param);
    }
  }

  /**
   * A URL built for a built-in engine is matched by that engine's patterns
   * and by no other engine's: every other engine either names another
   * parameter or has host text with a character the base lacks.
   */
  lemma BuiltMatchTable(query: string, n: nat, m: nat)
    requires n < |BuiltinEngines| && m < |BuiltinEngines|
    ensures EngineRegexMatches(BuiltinEngines[m].1, BuildSearchURL(query, BuiltinEngines[n].1)) <==> m == n
  {
    if n == 0 {
      GoogleBuilt(query);
    } else if n == 1 {
      BaiduBuilt(query);
    } else if n == 2 {
      BingBuilt(query);
    } else if n == 3 {
      YahooBuilt(query);
    } else {
      DuckDuckGoBuilt(query);
    }
    BuiltinEntries();
    if m == 0 {
    } else if m == 1 {
    } else if m == 2 {
    } else if m == 3 {
    } else {
    }
  }

  lemma BuiltinEntries()
    ensures |BuiltinEngines| == 5
    ensures BuiltinEngines[0].1 == Google && BuiltinEngines[1].1 == Baidu && BuiltinEngines[2].1 == Bing
    ensures BuiltinEngines[3].1 == Yahoo && BuiltinEngines[4].1 == DuckDuckGo
  {
  }

  lemma GoogleBuilt(query: string)
    ensures var url := BuildSearchURL(query, Google);
      && EngineRegexMatches(Google, url)
      && !EngineRegexMatches(Baidu, url)
      && !EngineRegexMatches(Bing, url)
      && !EngineRegexMatches(Yahoo, url)
      && !EngineRegexMatches(DuckDuckGo, url)
  {
    var enc := EncodeURIComponent(query);
    EncodedTextOnly(query);
    GoogleTemplate();
    PlainFacts("https://www.google.com/search");
    BuiltUrl(query, Google, "https://www.google.com/search");
    GoogleUrlMatches(enc);
  }

  lemma BaiduBuilt(query: string)
    ensures var url := BuildSearchURL(query, Baidu);
      && !EngineRegexMatches(Google, url)
      && EngineRegexMatches(Baidu, url)
      && !EngineRegexMatches(Bing, url)
      && !EngineRegexMatches(Yahoo, url)
      && !EngineRegexMatches(DuckDuckGo, url)
  {
    var enc := EncodeURIComponent(query);
    EncodedTextOnly(query);
    BaiduTemplate();
    PlainFacts("https://www.baidu.com/s");
    BuiltUrl(query, Baidu, "https://www.baidu.com/s");
    BaiduUrlMatches(enc);
  }

  lemma BingBuilt(query: string)
    ensures var url := BuildSearchURL(query, Bing);
      && !EngineRegexMatches(Google, url)
      && !EngineRegexMatches(Baidu, url)
      && EngineRegexMatches(Bing, url)
      && !EngineRegexMatches(Yahoo, url)
      && !EngineRegexMatches(DuckDuckGo, url)
  {
    var enc := EncodeURIComponent(query);
    EncodedTextOnly(query);
    BingTemplate();
    PlainFacts("https://www.bing.com/search");
    BuiltUrl(query, Bing, "https://www.bing.com/search");
    BingUrlMatches(enc);
  }

  lemma YahooBuilt(query: string)
    ensures var url := BuildSearchURL(query, Yahoo);
      && !EngineRegexMatches(Google, url)
      && !EngineRegexMatches(Baidu, url)
      && !EngineRegexMatches(Bing, url)
      && EngineRegexMatches(Yahoo, url)
      && !EngineRegexMatches(DuckDuckGo, url)
  {
    var enc := EncodeURIComponent(query);
    EncodedTextOnly(query);
    YahooTemplate();
    PlainFacts("https://search.yahoo.com/search");
    BuiltUrl(query, Yahoo, "https://search.yahoo.com/search");
    YahooUrlMatches(enc);
  }

  lemma DuckDuckGoBuilt(query: string)
    ensures var url := BuildSearchURL(query, DuckDuckGo);
      && !EngineRegexMatches(Google, url)
      && !EngineRegexMatches(Baidu, url)
      && !EngineRegexMatches(Bing, url)
      && !EngineRegexMatches(Yahoo, url)
      && EngineRegexMatches(DuckDuckGo, url)
  {
    var enc := EncodeURIComponent(query);
    EncodedTextOnly(query);
    DuckDuckGoTemplate();
    PlainFacts("https://duckduckgo.com/");
    BuiltUrl(query, DuckDuckGo, "https://duckduckgo.com/");
    DuckDuckGoUrlMatches(enc);
  }

  /** Detection on a URL built for a built-in engine answers that engine, whatever the query. */
  lemma BuiltinDetected(query: string, n: nat)
    requires n < |BuiltinEngines|
    ensures Detect(BuildSearchURL(query, BuiltinEngines[n].1)) == Some(BuiltinEngines[n].1)
  {
    forall m | 0 <= m < |BuiltinEngines|
      ensures EngineRegexMatches(BuiltinEngines[m].1, BuildSearchURL(query, BuiltinEngines[n].1)) <==> m == n
    {
      BuiltMatchTable(query, n, m);
    }
    DetectFirstMatch(BuildSearchURL(query, BuiltinEngines[n].1), n);
  }

  lemma HostIn(pre: string, host: string, post: string)
    ensures OccursAt(pre + host + post, host, |pre|)
  {
    assert (pre + host + post)[|pre|..|pre| + |host|] == host;
  }

  /** Where each built-in engine's first host text sits in its own base URL. */
  lemma BaseHosts()
    ensures OccursAt("https://www.google.com/search", "google.com", 12)
    ensures OccursAt("https://www.baidu.com/s", "baidu.com", 12)
    ensures OccursAt("https://www.bing.com/search", "bing.com", 12)
    ensures OccursAt("https://search.yahoo.com/search", "yahoo.com", 15)
    ensures OccursAt("https://duckduckgo.com/", "duckduckgo.com", 8)
  {
    HostIn("https://www.", "google.com", "/search");
    HostIn("https://www.", "baidu.com", "/s");
    HostIn("https://www.", "bing.com", "/search");
    HostIn("https://search.", "yahoo.com", "/search");
    HostIn("https://", "duckduckgo.com", "/");
  }

  /** An engine whose patterns all name another parameter does not match a built URL. */
  lemma OtherParamNoMatch(e: Engine, base: string, param: string, enc: string)
    requires IsPlainText(base) && IsPlainText(param) && IsEncodedText(enc)
    requires forall k | 0 <= k < |e.patterns| ::
      e.patterns[k].HostParam? && '=' !in e.patterns[k].param && e.patterns[k].param != param
    ensures !EngineRegexMatches(e, base + "?" + (param + "=" + enc))
  {
    EngineBuilt(e, base, param, enc);
  }

  /** An engine whose every host text holds a character the base lacks does not match a built URL. */
  lemma MissingHostNoMatch(e: Engine, base: string, param: string, enc: string, c: char)
    requires IsPlainText(base) && IsPlainText(param) && IsEncodedText(enc) && c !in base
    requires forall k | 0 <= k < |e.patterns| ::
      e.patterns[k].HostParam? && '=' !in e.patterns[k].param && c in e.patterns[k].host
    ensures !EngineRegexMatches(e, base + "?" + (param + "=" + enc))
  {
    EngineBuilt(e, base, param, enc);
    forall k | 0 <= k < |e.patterns|
      ensures !Contains(base, e.patterns[k].host)
    {
      NotContainsByChar(base, e.patterns[k].host, c);
    }
  }

  /** An engine with a pattern naming the parameter and a host text found in the base matches a built URL. */
  lemma OwnHostMatch(e: Engine, base: string, param: string, enc: string, k: nat, i: nat)
    requires IsPlainText(base) && IsPlainText(param) && IsEncodedText(enc)
    requires k < |e.patterns| && e.patterns[k].HostParam? && e.patterns[k].param == param
    requires OccursAt(base, e.patterns[k].host, i)
    ensures EngineRegexMatches(e, base + "?" + (param + "=" + enc))
  {
    BuiltMatches(base, param, enc, e.patterns[k].host, param);
  }

  lemma GoogleUrlMatches(enc: string)
    requires IsEncodedText(enc) && IsPlainText("https://www.google.com/search")
    ensures var url := "https://www.google.com/search" + "?" + ("q" + "=" + enc);
      && EngineRegexMatches(Google, url)
      && !EngineRegexMatches(Baidu, url)
      && !EngineRegexMatches(Bing, url)
      && !EngineRegexMatches(Yahoo, url)
      && !EngineRegexMatches(DuckDuckGo, url)
  {
    var base := "https://www.google.com/search";
    assert IsPlainText("q");
    BaseHosts();
    OwnHostMatch(Google, base, "q", enc, 0, 12);
    OtherParamNoMatch(Baidu, base, "q", enc);
    GoogleUrlNotBing(enc);
    OtherParamNoMatch(Yahoo, base, "q", enc);
    GoogleUrlNotDuckDuckGo(enc);
  }

  lemma BaiduUrlMatches(enc: string)
    requires IsEncodedText(enc) && IsPlainText("https://www.baidu.com/s")
    ensures var url := "https://www.baidu.com/s" + "?" + ("wd" + "=" + enc);
      && !EngineRegexMatches(Google, url)
      && EngineRegexMatches(Baidu, url)
      && !EngineRegexMatches(Bing, url)
      && !EngineRegexMatches(Yahoo, url)
      && !EngineRegexMatches(DuckDuckGo, url)
  {
    var base := "https://www.baidu.com/s";
    assert IsPlainText("wd");
    OtherParamNoMatch(Google, base, "wd", enc);
    BaseHosts();
    OwnHostMatch(Baidu, base, "wd", enc, 0, 12);
    OtherParamNoMatch(Bing, base, "wd", enc);
    OtherParamNoMatch(Yahoo, base, "wd", enc);
    OtherParamNoMatch(DuckDuckGo, base, "wd", enc);
  }

  lemma BingUrlMatches(enc: string)
    requires IsEncodedText(enc) && IsPlainText("https://www.bing.com/search")
    ensures var url := "https://www.bing.com/search" + "?" + ("q" + "=" + enc);
      && !EngineRegexMatches(Google, url)
      && !EngineRegexMatches(Baidu, url)
      && EngineRegexMatches(Bing, url)
      && !EngineRegexMatches(Yahoo, url)
      && !EngineRegexMatches(DuckDuckGo, url)
  {
    var base := "https://www.bing.com/search";
    assert IsPlainText("q");
    BingUrlNotGoogle(enc);
    OtherParamNoMatch(Baidu, base, "q", enc);
    BaseHosts();
    OwnHostMatch(Bing, base, "q", enc, 0, 12);
    OtherParamNoMatch(Yahoo, base, "q", enc);
    BingUrlNotDuckDuckGo(enc);
  }

  lemma YahooUrlMatches(enc: string)
    requires IsEncodedText(enc) && IsPlainText("https://search.yahoo.com/search")
    ensures var url := "https://search.yahoo.com/search" + "?" + ("p" + "=" + enc);
      && !EngineRegexMatches(Google, url)
      && !EngineRegexMatches(Baidu, url)
      && !EngineRegexMatches(Bing, url)
      && EngineRegexMatches(Yahoo, url)
      && !EngineRegexMatches(DuckDuckGo, url)
  {
    var base := "https://search.yahoo.com/search";
    assert IsPlainText("p");
    OtherParamNoMatch(Google, base, "p", enc);
    OtherParamNoMatch(Baidu, base, "p", enc);
    OtherParamNoMatch(Bing, base, "p", enc);
    BaseHosts();
    OwnHostMatch(Yahoo, base, "p", enc, 0, 15);
    OtherParamNoMatch(DuckDuckGo, base, "p", enc);
  }

  lemma DuckDuckGoUrlMatches(enc: string)
    requires IsEncodedText(enc) && IsPlainText("https://duckduckgo.com/")
    ensures var url := "https://duckduckgo.com/" + "?" + ("q" + "=" + enc);
      && !EngineRegexMatches(Google, url)
      && !EngineRegexMatches(Baidu, url)
      && !EngineRegexMatches(Bing, url)
      && !EngineRegexMatches(Yahoo, url)
      && EngineRegexMatches(DuckDuckGo, url)
  {
    var base := "https://duckduckgo.com/";
    assert IsPlainText("q");
    DuckDuckGoUrlNotGoogle(enc);
    OtherParamNoMatch(Baidu, base, "q", enc);
    DuckDuckGoUrlNotBing(enc);
    OtherParamNoMatch(Yahoo, base, "q", enc);
    BaseHosts();
    assert DuckDuckGo.patterns[0].host == "duckduckgo.com";
    OwnHostMatch(DuckDuckGo, base, "q", enc, 0, 8);
  }

  lemma GoogleUrlNotBing(enc: string)
    requires IsEncodedText(enc) && IsPlainText("https://www.google.com/search")
    ensures !EngineRegexMatches(Bing, "https://www.google.com/search" + "?" + ("q" + "=" + enc))
  {
    assert IsPlainText("q");
    MissingHostNoMatch(Bing, "https://www.google.com/search", "q", enc, 'b');
  }

  lemma GoogleUrlNotDuckDuckGo(enc: string)
    requires IsEncodedText(enc) && IsPlainText("https://www.google.com/search")
    ensures !EngineRegexMatches(DuckDuckGo, "https://www.google.com/search" + "?" + ("q" + "=" + enc))
  {
    assert IsPlainText("q");
    MissingHostNoMatch(DuckDuckGo, "https://www.google.com/search", "q", enc, 'k');
  }

  lemma BingUrlNotGoogle(enc: string)
    requires IsEncodedText(enc) && IsPlainText("https://www.bing.com/search")
    ensures !EngineRegexMatches(Google, "https://www.bing.com/search" + "?" + ("q" + "=" + enc))
  {
    assert IsPlainText("q");
    MissingHostNoMatch(Google, "https://www.bing.com/search", "q", enc, 'l');
  }

  lemma BingUrlNotDuckDuckGo(enc: string)
    requires IsEncodedText(enc) && IsPlainText("https://www.bing.com/search")
    ensures !EngineRegexMatches(DuckDuckGo, "https://www.bing.com/search" + "?" + ("q" + "=" + enc))
  {
    assert IsPlainText("q");
    MissingHostNoMatch(DuckDuckGo, "https://www.bing.com/search", "q", enc, 'd');
  }

  lemma DuckDuckGoUrlNotGoogle(enc: string)
    requires IsEncodedText(enc) && IsPlainText("https://duckduckgo.com/")
    ensures !EngineRegexMatches(Google, "https://duckduckgo.com/" + "?" + ("q" + "=" + enc))
  {
    assert IsPlainText("q");
    MissingHostNoMatch(Google, "https://duckduckgo.com/", "q", enc, 'l');
  }

  lemma DuckDuckGoUrlNotBing(enc: string)
    requires IsEncodedText(enc) && IsPlainText("https://duckduckgo.com/")
    ensures !EngineRegexMatches(Bing, "https://duckduckgo.com/" + "?" + ("q" + "=" + enc))
  {
    assert IsPlainText("q");
    MissingHostNoMatch(Bing, "https://duckduckgo.com/", "q", enc, 'b');
  }

  // ---------------------------------------------------------------- pattern quirks

  /** A URL without `?` and `&` is never a search results page. */
  lemma DetectNoQueryMark(url: string)
    requires '?' !in url && '&' !in url
    ensures Detect(url) == None
  {
    forall n, k, i, j | 0 <= n < |BuiltinEngines| && 0 <= k < |BuiltinEngines[n].1.patterns|
      ensures !MatchAt(url, BuiltinEngines[n].1.patterns[k].host, BuiltinEngines[n].1.patterns[k].param, i, j)
    {
    }
    DetectNoneIff(url);
  }

  /**
   * Removing leading text from a pattern's host keeps it matching: any URL
   * that `/search.yahoo.com.*[?&]p=/` matches, `/yahoo.com.*[?&]p=/` matches
   * too, so Yahoo's second pattern never decides anything.
   */
  lemma HostSuffixMatches(url: string, pre: string, host: string, param: string)
    requires RegexMatches(url, pre + host, param)
    ensures RegexMatches(url, host, param)
  {
    var i, j :| MatchAt(url, pre + host, param, i, j);
    assert url[i + |pre|..i + |pre| + |host|] == url[i..i + |pre + host|][|pre|..];
    assert MatchAt(url, host, param, i + |pre|, j);
  }

  lemma YahooSecondRedundant(url: string)
    ensures PatternMatches(Yahoo.patterns[1], url) ==> PatternMatches(Yahoo.patterns[0], url)
  {
    if PatternMatches(Yahoo.patterns[1], url) {
      PatternTestMatches(url, "search.yahoo.com", "p");
      assert "search.yahoo.com" == "search." + "yahoo.com";
      HostSuffixMatches(url, "search.", "yahoo.com", "p");
      PatternTestMatches(url, "yahoo.com", "p");
    }
  }

  /**
   * Google's second pattern recognises `query=`, but its query is read from
   * `q`: such a page is a Google results page from which no query comes.
   */
  lemma GoogleQueryParamPage(v: string)
    requires IsPlainText(v) && IsEncodedText(v)
    ensures Detect("https://www.google.com/search" + "?" + ("query" + "=" + v)) == Some(Google)
    ensures ExtractQueryFromURL("https://www.google.com/search" + "?" + ("query" + "=" + v), Google) == None
  {
    GoogleQueryMatches(v);
    GoogleDetected("https://www.google.com/search" + "?" + ("query" + "=" + v));
    GoogleQueryNotExtracted(v);
  }

  lemma GoogleQueryNotExtracted(v: string)
    requires IsPlainText(v)
    ensures ExtractQueryFromURL("https://www.google.com/search" + "?" + ("query" + "=" + v), Google) == None
  {
    GoogleTemplate();
    assert IsPlainText("query");
    PlainQuery("https://www.google.com/search", "query", v);
  }

  lemma GoogleQueryMatches(v: string)
    requires IsPlainText(v) && IsEncodedText(v)
    ensures EngineRegexMatches(Google, "https://www.google.com/search" + "?" + ("query" + "=" + v))
  {
    var base := "https://www.google.com/search";
    GooglePlain();
    assert IsPlainText("query");
    BaseHosts();
    assert Google.patterns[1] == HostParam("google.com", "query");
    OwnHostMatch(Google, base, "query", v, 1, 12);
  }

  lemma GoogleDetected(url: string)
    requires EngineRegexMatches(Google, url)
    ensures Detect(url) == Some(Google)
  {
    DetectFirstMatch(url, 0);
  }

  /** Baidu's second pattern recognises `word=`, but its query is read from `wd`. */
  lemma BaiduWordParamPage(v: string)
    requires IsPlainText(v) && IsEncodedText(v)
    ensures Detect("https://www.baidu.com/s" + "?" + ("word" + "=" + v)) == Some(Baidu)
    ensures ExtractQueryFromURL("https://www.baidu.com/s" + "?" + ("word" + "=" + v), Baidu) == None
  {
    BaiduWordMatches(v);
    BaiduDetected("https://www.baidu.com/s" + "?" + ("word" + "=" + v));
    BaiduWordNotExtracted(v);
  }

  lemma BaiduWordNotExtracted(v: string)
    requires IsPlainText(v)
    ensures ExtractQueryFromURL("https://www.baidu.com/s" + "?" + ("word" + "=" + v), Baidu) == None
  {
    BaiduTemplate();
    assert IsPlainText("word");
    PlainQuery("https://www.baidu.com/s", "word", v);
  }

  lemma BaiduWordMatches(v: string)
    requires IsPlainText(v) && IsEncodedText(v)
    ensures var url := "https://www.baidu.com/s" + "?" + ("word" + "=" + v);
      EngineRegexMatches(Baidu, url) && !EngineRegexMatches(Google, url)
  {
    var base := "https://www.baidu.com/s";
    BaiduPlain();
    assert IsPlainText("word");
    BaseHosts();
    assert Baidu.patterns[1] == HostParam("baidu.com", "word");
    OwnHostMatch(Baidu, base, "word", v, 1, 12);
    OtherParamNoMatch(Google, base, "word", v);
  }

  lemma BaiduDetected(url: string)
    requires EngineRegexMatches(Baidu, url) && !EngineRegexMatches(Google, url)
    ensures Detect(url) == Some(Baidu)
  {
    DetectFirstMatch(url, 1);
  }

  /** A URL `base?name=value` built from plain text holds the one pair `(name, value)`. */
  lemma PlainQuery(base: string, name: string, value: string)
    requires HasScheme(base) && IsPlainText(base) && name != "" && IsPlainText(name) && IsPlainText(value)
    ensures UrlQuery(base + "?" + (name + "=" + value)) == Some(name + "=" + value)
    ensures FormParse(name + "=" + value) == [(name, value)]
  {
    PlainFacts(base);
    PlainFacts(name);
    PlainFacts(value);
    var q := name + "=" + value;
    PlainChars(name, value);
    UrlQueryOf(base, q);
    FormParseSingle(name, value);
    FormDecodePlain(name);
    FormDecodePlain(value);
  }

  lemma PlainChars(name: string, value: string)
    requires IsPlainText(name) && IsPlainText(value)
    ensures forall i | 0 <= i < |name + "=" + value| :: !IsC0OrSpace((name + "=" + value)[i])
  {
    var q := name + "=" + value;
    forall i | 0 <= i < |q| ensures !IsC0OrSpace(q[i]) {
      if i < |name| {
        assert q[i] == name[i];
      } else if i > |name| {
        assert q[i] == value[i - |name| - 1];
      }
    }
  }
}
