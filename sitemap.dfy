/** plugins/sitemap.js: sitemaps in the format of the Sitemap protocol 0.9 of
    sitemaps.org, built from the configured routes. Without a language the
    plugin serves a sitemap index (one entry per language) when language
    prefixes are on, and otherwise one urlset in which every route carries
    `xhtml:link` alternates for its translations; with a language it serves
    that language's urlset and records when it was generated. Documents are
    built as records and rendered to the exact text the code produces. */
module Sitemap {

  import opened Values
  import opened Text
  import opened Http

  // ---------------------------------------------------------------------
  // Options

  /** A route of the configuration. `lastModified` is the text it renders as
      (a date renders as its ISO string); `priority` is the number's text. */
  datatype BaseRoute = BaseRoute(
    path: string,
    language: Option<string>,
    lastModified: Option<string>,
    changeFrequency: Option<string>,
    priority: Option<string>)

  /** A configured route and its optional translations. */
  datatype SitemapRoute = SitemapRoute(route: BaseRoute, translations: Option<seq<BaseRoute>>)

  datatype I18n = I18n(prefix: bool, prefixFormat: Option<string>)

  /** The plugin options; `dynamicRoutes` says whether the callback is given. */
  datatype Options = Options(
    routes: seq<SitemapRoute>,
    baseUrl: string,
    cache: Option<int>,
    i18n: Option<I18n>,
    dynamicRoutes: bool)

  /** The TypeErrors and the thrown error of the plugin. */
  datatype SitemapError =
    | OptionsMissing                  // "Options must be provided"
    | TranslationsMissing(path: string)   // `x.translations` is undefined
    | DynamicRoutesNotIterable        // spreading the `undefined` of a missing callback
    | UntranslatedRoute(path: string)     // the selected route is `undefined`

  const LanguagePlaceholder: string := "{{language}}"
  const DefaultPrefixFormat: string := "/{{language}}"
  const DefaultCache: int := 3600000

  predicate PrefixOn(o: Options)
  {
    o.i18n.Some? && o.i18n.value.prefix
  }

  /** After the plugin's defaulting: with prefixes on, a format is present. */
  predicate Normalized(o: Options)
  {
    PrefixOn(o) ==> Present(o.i18n.value.prefixFormat)
  }

  /** The option defaulting in `sitemapPlugin`: with prefixes on and no
      format, the format becomes `/{{language}}`. */
  function Normalize(o: Options): (r: Options)
    ensures Normalized(r)
    ensures r.routes == o.routes && r.baseUrl == o.baseUrl && r.cache == o.cache
    ensures r.dynamicRoutes == o.dynamicRoutes && PrefixOn(r) == PrefixOn(o)
    ensures Normalized(o) ==> r == o
    ensures !Normalized(o) ==> r.i18n == Some(I18n(true, Some(DefaultPrefixFormat)))
  {
    if PrefixOn(o) && !Present(o.i18n.value.prefixFormat) then
      o.(i18n := Some(o.i18n.value.(prefixFormat := Some(DefaultPrefixFormat))))
    else o
  }

  /** `options.cache ?? 3600000`. */
  function CacheDuration(o: Options): (ms: int)
    ensures o.cache.None? ==> ms == DefaultCache
    ensures o.cache.Some? ==> ms == o.cache.value
  {
    if o.cache.Some? then o.cache.value else DefaultCache
  }

  // ---------------------------------------------------------------------
  // Records and their text

  datatype Field = LastMod(date: string) | ChangeFreq(frequency: string) | Priority(value: string)

  datatype AltLink = AltLink(hreflang: string, href: string)

  datatype UrlRecord = UrlRecord(loc: string, fields: seq<Field>, links: seq<AltLink>)

  datatype IndexRecord = IndexRecord(loc: string, lastmod: Option<string>)

  datatype Document =
    | UrlSet(xhtml: bool, urls: seq<UrlRecord>)
    | SitemapIndex(sitemaps: seq<IndexRecord>)

  function RenderField(f: Field): string
  {
    match f
    case LastMod(d) => "<lastmod>" + d + "</lastmod>"
    case ChangeFreq(c) => "<changefreq>" + c + "</changefreq>"
    case Priority(p) => "<priority>" + p + "</priority>"
  }

  function RenderFields(fs: seq<Field>): string
  {
    if |fs| == 0 then "" else RenderField(fs[0]) + RenderFields(fs[1..])
  }

  function RenderLink(l: AltLink): string
  {
    "<xhtml:link rel=\"alternate\" hreflang=\"" + l.hreflang + "\" href=\"" + l.href + "\" />"
  }

  function RenderLinks(ls: seq<AltLink>): string
  {
    if |ls| == 0 then "" else RenderLink(ls[0]) + RenderLinks(ls[1..])
  }

  function RenderUrl(u: UrlRecord): string
  {
    "<url><loc>" + u.loc + "</loc>" + RenderFields(u.fields) + RenderLinks(u.links) + "</url>"
  }

  function RenderUrls(us: seq<UrlRecord>): string
  {
    if |us| == 0 then "" else RenderUrl(us[0]) + RenderUrls(us[1..])
  }

  function RenderIndexRecord(s: IndexRecord): string
  {
    "<sitemap><loc>" + s.loc + "</loc>" +
    (if s.lastmod.Some? then "<lastmod>" + s.lastmod.value + "</lastmod>" else "") +
    "</sitemap>"
  }

  function RenderIndexRecords(ss: seq<IndexRecord>): string
  {
    if |ss| == 0 then "" else RenderIndexRecord(ss[0]) + RenderIndexRecords(ss[1..])
  }

  const XmlDeclaration: string := "<?xml version=\"1.0\" encoding=\"UTF-8\"?>"
  const SitemapNamespace: string := "http://www.sitemaps.org/schemas/sitemap/0.9"
  const XhtmlNamespace: string := "http://www.w3.org/1999/xhtml"

  function Render(d: Document): string
  {
    match d
    case UrlSet(xhtml, urls) =>
      XmlDeclaration + "<urlset xmlns=\"" + SitemapNamespace + "\"" +
      (if xhtml then " xmlns:xhtml=\"" + XhtmlNamespace + "\"" else "") + ">" +
      RenderUrls(urls) + "</urlset>"
    case SitemapIndex(sitemaps) =>
      XmlDeclaration + "<sitemapindex xmlns=\"" + SitemapNamespace + "\">" +
      RenderIndexRecords(sitemaps) + "</sitemapindex>"
  }

  // ---------------------------------------------------------------------
  // One url entry

  /** A priority in a JavaScript condition: 0 and NaN are falsy. */
  predicate PriorityTruthy(p: Option<string>)
  {
    p.Some? && p.value != "0" && p.value != "NaN"
  }

  /** The position of a field kind in the fixed emission order. */
  function Rank(f: Field): nat
  {
    match f
    case LastMod(_) => 0
    case ChangeFreq(_) => 1
    case Priority(_) => 2
  }

  /** `getBaseUrlOptionalFields` (and the same fields in the language urlset):
      `<lastmod>` when a date is set and the frequency is not `always`,
      `<changefreq>` when a frequency is set, `<priority>` when the priority
      is truthy, in that order. */
  function OptionalFields(r: BaseRoute): (fs: seq<Field>)
    ensures forall i, j :: 0 <= i < j < |fs| ==> Rank(fs[i]) < Rank(fs[j])
    ensures forall d :: LastMod(d) in fs <==>
      Present(r.lastModified) && r.changeFrequency != Some("always") && r.lastModified == Some(d)
    ensures forall c :: ChangeFreq(c) in fs <==> Present(r.changeFrequency) && r.changeFrequency == Some(c)
    ensures forall p :: Priority(p) in fs <==> PriorityTruthy(r.priority) && r.priority == Some(p)
  {
    var lastmod := if Present(r.lastModified) && r.changeFrequency != Some("always") then [LastMod(r.lastModified.value)] else [];
    var changefreq := if Present(r.changeFrequency) then [ChangeFreq(r.changeFrequency.value)] else [];
    var priority := if PriorityTruthy(r.priority) then [Priority(r.priority.value)] else [];
    lastmod + changefreq + priority
  }

  /** `getBaseUrlOptionalFields(route)` as the code writes it: the text is
      accumulated field by field, and it is the rendering of `OptionalFields`. */
  method BaseUrlOptionalFields(r: BaseRoute) returns (text: string)
    ensures text == RenderFields(OptionalFields(r))
  {
    var fields: seq<Field> := [];
    text := "";
    if Present(r.lastModified) && r.changeFrequency != Some("always") {
      var f := LastMod(r.lastModified.value);
      RenderFieldsAppend(fields, f);
      text := text + RenderField(f);
      fields := fields + [f];
    }
    if Present(r.changeFrequency) {
      var f := ChangeFreq(r.changeFrequency.value);
      RenderFieldsAppend(fields, f);
      text := text + RenderField(f);
      fields := fields + [f];
    }
    if PriorityTruthy(r.priority) {
      var f := Priority(r.priority.value);
      RenderFieldsAppend(fields, f);
      text := text + RenderField(f);
      fields := fields + [f];
    }
    assert fields == OptionalFields(r);
  }

  lemma {:induction false} RenderFieldsAppend(fs: seq<Field>, f: Field)
    ensures RenderFields(fs + [f]) == RenderFields(fs) + RenderField(f)
  {
    if |fs| == 0 {
      assert [f][1..] == [];
    } else {
      var head, rest := RenderField(fs[0]), RenderFields(fs[1..]);
      assert (fs + [f])[0] == fs[0];
      assert (fs + [f])[1..] == fs[1..] + [f];
      RenderFieldsAppend(fs[1..], f);
      calc {
        RenderFields(fs + [f]);
        head + RenderFields(fs[1..] + [f]);
        head + (rest + RenderField(f));
        (head + rest) + RenderField(f);
      }
    }
  }

  /** A priority of 0 is left out, whatever else is set. */
  lemma ZeroPriorityOmitted(r: BaseRoute, p: string)
    requires r.priority == Some("0")
    ensures Priority(p) !in OptionalFields(r)
  {
  }

  /** A route whose frequency is `always` renders without its date, and a
      route whose priority is 0 without its priority. */
  lemma FieldVectors(path: string, date: string, frequency: string, priority: string)
    requires date != "" && priority != "0" && priority != "NaN"
    ensures RenderFields(OptionalFields(BaseRoute(path, None, Some(date), Some("always"), Some(priority)))) ==
      "<changefreq>" + "always" + "</changefreq>" + "<priority>" + priority + "</priority>"
    ensures RenderFields(OptionalFields(BaseRoute(path, None, Some(date), None, Some("0")))) ==
      "<lastmod>" + date + "</lastmod>"
  {
    var always := BaseRoute(path, None, Some(date), Some("always"), Some(priority));
    var fs := [ChangeFreq("always"), Priority(priority)];
    assert OptionalFields(always) == fs;
    assert fs[1..] == [Priority(priority)];
    assert RenderFields([Priority(priority)]) == RenderField(Priority(priority)) + RenderFields([]);
    var zero := BaseRoute(path, None, Some(date), None, Some("0"));
    assert OptionalFields(zero) == [LastMod(date)];
  }

  /** `getRouteXHtmlLink(route, overrideLanguage)`. */
  function XHtmlLink(r: BaseRoute, overrideLanguage: Option<string>, baseUrl: string): (l: AltLink)
    ensures Present(overrideLanguage) ==> l.hreflang == overrideLanguage.value
    ensures !Present(overrideLanguage) ==> l.hreflang == Show(r.language)
    ensures l.href == baseUrl + r.path
  {
    AltLink(if Present(overrideLanguage) then overrideLanguage.value else Show(r.language), baseUrl + r.path)
  }

  function TranslationCount(r: SitemapRoute): nat
  {
    if r.translations.Some? then |r.translations.value| else 0
  }

  /** The alternates shared by a route and its translations: the route itself,
      the route as `x-default`, then every translation in order. */
  function Alternates(r: SitemapRoute, baseUrl: string): (ls: seq<AltLink>)
    requires r.translations.Some?
    ensures |ls| == |r.translations.value| + 2
    ensures ls[0] == XHtmlLink(r.route, None, baseUrl)
    ensures ls[1] == XHtmlLink(r.route, Some("x-default"), baseUrl)
    ensures forall i :: 0 <= i < |r.translations.value| ==> ls[i + 2] == XHtmlLink(r.translations.value[i], None, baseUrl)
  {
    var ts := r.translations.value;
    [XHtmlLink(r.route, None, baseUrl), XHtmlLink(r.route, Some("x-default"), baseUrl)] +
    seq(|ts|, i requires 0 <= i < |ts| => XHtmlLink(ts[i], None, baseUrl))
  }

  /** `getUrlEntry(route)`: one `<url>` for a route without translations;
      otherwise the route then each translation, all sharing the alternates. */
  function UrlEntry(r: SitemapRoute, baseUrl: string): (us: seq<UrlRecord>)
    ensures |us| == 1 + TranslationCount(r)
    ensures us[0].loc == baseUrl + r.route.path && us[0].fields == OptionalFields(r.route)
    ensures TranslationCount(r) == 0 ==> us[0].links == []
    ensures TranslationCount(r) > 0 ==> forall i :: 0 <= i < |us| ==> us[i].links == Alternates(r, baseUrl)
    ensures forall i :: 0 <= i < TranslationCount(r) ==>
      us[i + 1].loc == baseUrl + r.translations.value[i].path &&
      us[i + 1].fields == OptionalFields(r.translations.value[i])
  {
    if TranslationCount(r) == 0 then [UrlRecord(baseUrl + r.route.path, OptionalFields(r.route), [])]
    else
      var ts := r.translations.value;
      var links := Alternates(r, baseUrl);
      var first := [UrlRecord(baseUrl + r.route.path, OptionalFields(r.route), links)];
      var rest := seq(|ts|, i requires 0 <= i < |ts| => UrlRecord(baseUrl + ts[i].path, OptionalFields(ts[i]), links));
      assert forall i :: 0 <= i < |ts| ==> (first + rest)[i + 1] == rest[i];
      first + rest
  }

  /** Within one entry with translations, every `<url>` lists every page of
      the entry (itself included) among its alternates. */
  lemma AlternatesAreMutual(r: SitemapRoute, baseUrl: string, us: seq<UrlRecord>, i: nat, j: nat)
    requires TranslationCount(r) > 0 && us == UrlEntry(r, baseUrl)
    requires i < |us| && j < |us|
    ensures exists k :: 0 <= k < |us[j].links| && us[j].links[k].href == us[i].loc
  {
    var links := Alternates(r, baseUrl);
    assert us[j].links == links;
    var k := if i == 0 then 0 else i + 1;
    if i == 0 {
      assert links[0] == XHtmlLink(r.route, None, baseUrl);
      assert us[0].loc == baseUrl + r.route.path;
    } else {
      var t := r.translations.value[i - 1];
      assert links[i + 1] == XHtmlLink(t, None, baseUrl);
      assert us[i].loc == baseUrl + t.path;
    }
    assert links[k].href == us[i].loc;
  }

  // ---------------------------------------------------------------------
  // The global urlset

  /** `options.routes.map(getUrlEntry)`, flattened by the `join`. */
  function Entries(routes: seq<SitemapRoute>, baseUrl: string): (us: seq<UrlRecord>)
  {
    if |routes| == 0 then [] else UrlEntry(routes[0], baseUrl) + Entries(routes[1..], baseUrl)
  }

  /** The global urlset holds exactly the `<url>` entries of the configured
      routes, so every route's own page is listed. */
  lemma {:induction false} EntriesMembership(routes: seq<SitemapRoute>, baseUrl: string, u: UrlRecord)
    ensures u in Entries(routes, baseUrl) <==> exists i :: 0 <= i < |routes| && u in UrlEntry(routes[i], baseUrl)
  {
    if |routes| > 0 {
      EntriesMembership(routes[1..], baseUrl, u);
      if u in Entries(routes[1..], baseUrl) {
        var i :| 0 <= i < |routes[1..]| && u in UrlEntry(routes[1..][i], baseUrl);
        assert routes[i + 1] == routes[1..][i];
      }
      if exists i :: 0 <= i < |routes| && u in UrlEntry(routes[i], baseUrl) {
        var i :| 0 <= i < |routes| && u in UrlEntry(routes[i], baseUrl);
        if i > 0 {
          assert routes[1..][i - 1] == routes[i];
        }
      }
    }
  }

  /** Every configured route's own page is in the global urlset. */
  lemma EveryRouteListed(routes: seq<SitemapRoute>, baseUrl: string, i: nat)
    requires i < |routes|
    ensures UrlEntry(routes[i], baseUrl)[0] in Entries(routes, baseUrl)
  {
    EntriesMembership(routes, baseUrl, UrlEntry(routes[i], baseUrl)[0]);
  }

  /** `generateGlobalUrlSet`: fails when there is no `dynamicRoutes` callback
      (its `undefined` result is spread); otherwise the entries of the static
      routes only — what the callback returned is collected and not used. */
  function GlobalUrlSet(o: Options, dynamic: Option<seq<BaseRoute>>): (r: Result<Document, SitemapError>)
    ensures r.Ok? <==> o.dynamicRoutes
    ensures !o.dynamicRoutes <==> r == Err(DynamicRoutesNotIterable)
    ensures r.Ok? ==> r.value == UrlSet(true, Entries(o.routes, o.baseUrl))
  {
    if !o.dynamicRoutes then Err(DynamicRoutesNotIterable)
    else Ok(UrlSet(true, Entries(o.routes, o.baseUrl)))
  }

  /** What the callback returns does not change the global urlset. */
  lemma GlobalIgnoresDynamic(o: Options, d1: Option<seq<BaseRoute>>, d2: Option<seq<BaseRoute>>)
    ensures GlobalUrlSet(o, d1) == GlobalUrlSet(o, d2)
  {
  }

  // ---------------------------------------------------------------------
  // The sitemap index

  /** Position of the first occurrence of `x`. */
  function Position<T(==)>(xs: seq<T>, x: T): (p: nat)
    requires x in xs
    ensures p < |xs| && xs[p] == x && x !in xs[..p]
  {
    if xs[0] == x then 0
    else
      var p := Position(xs[1..], x);
      assert xs[..p + 1] == [xs[0]] + xs[1..][..p];
      p + 1
  }

  /** The first occurrence is the one with no earlier copy. */
  lemma PositionAt<T>(xs: seq<T>, x: T, k: nat)
    requires k < |xs| && xs[k] == x && x !in xs[..k]
    ensures Position(xs, x) == k
  {
    var p := Position(xs, x);
    assert forall m :: 0 <= m < k ==> xs[..k][m] == xs[m];
    assert forall m :: 0 <= m < p ==> xs[..p][m] == xs[m];
  }

  /** Dropping the last element keeps the first positions of what remains. */
  lemma PositionInPrefix<T>(xs: seq<T>, x: T)
    requires |xs| > 0 && x in xs[..|xs| - 1]
    ensures Position(xs, x) == Position(xs[..|xs| - 1], x)
  {
    var init := xs[..|xs| - 1];
    var q := Position(init, x);
    assert xs[..q] == init[..q];
    PositionAt(xs, x, q);
  }

  /** `[...new Set(xs)]`: each value once, in order of first occurrence. */
  function Unique<T(==,!new)>(xs: seq<T>): (r: seq<T>)
    ensures forall x :: x in r <==> x in xs
    ensures forall i, j :: 0 <= i < j < |r| ==> r[i] != r[j]
    ensures forall i, j :: 0 <= i < j < |r| ==> Position(xs, r[i]) < Position(xs, r[j])
  {
    if |xs| == 0 then []
    else
      var init := xs[..|xs| - 1];
      var last := xs[|xs| - 1];
      var u := Unique(init);
      assert xs == init + [last];
      forall x | x in u ensures Position(xs, x) == Position(init, x) {
        PositionInPrefix(xs, x);
      }
      if last in u then u
      else
        assert Position(xs, last) == |xs| - 1;
        u + [last]
  }

  /** The languages of every route and its translations, in order; fails at
      the first route without a translations array. */
  function Languages(routes: seq<SitemapRoute>): (r: Result<seq<Option<string>>, SitemapError>)
    ensures r.Err? <==> exists i :: 0 <= i < |routes| && routes[i].translations.None?
    ensures r.Err? ==> exists i :: (0 <= i < |routes| && routes[i].translations.None? &&
      r.error == TranslationsMissing(routes[i].route.path) &&
      forall k :: 0 <= k < i ==> routes[k].translations.Some?)
    ensures r.Ok? ==> forall l :: l in r.value <==>
      exists i :: 0 <= i < |routes| && (l == routes[i].route.language ||
        exists t :: t in routes[i].translations.value && l == t.language)
  {
    if |routes| == 0 then Ok([])
    else if routes[0].translations.None? then Err(TranslationsMissing(routes[0].route.path))
    else
      var ts := routes[0].translations.value;
      var own := [routes[0].route.language] + seq(|ts|, i requires 0 <= i < |ts| => ts[i].language);
      assert forall i :: 1 <= i < |routes| ==> routes[i] == routes[1..][i - 1];
      assert forall l :: l in own <==> l == routes[0].route.language || exists t :: t in ts && l == t.language by {
        forall l | l in own ensures l == routes[0].route.language || exists t :: t in ts && l == t.language {
          var k :| 0 <= k < |own| && own[k] == l;
          if k > 0 { assert ts[k - 1] in ts; }
        }
        forall l | l == routes[0].route.language || exists t :: t in ts && l == t.language ensures l in own {
          if l != routes[0].route.language {
            var t :| t in ts && l == t.language;
            var k :| 0 <= k < |ts| && ts[k] == t;
            assert own[k + 1] == l;
          }
        }
      }
      match Languages(routes[1..])
      case Err(e) => Err(e)
      case Ok(rest) => Ok(own + rest)
  }

  /** The key of `sitemapModifications[language]`. */
  function LanguageKey(language: Option<string>): string
  {
    Show(language)
  }

  /** The `<loc>` of a language's sitemap in the index. */
  function IndexLoc(o: Options, language: Option<string>): string
    requires PrefixOn(o) && Normalized(o)
  {
    o.baseUrl + ReplaceFirst(o.i18n.value.prefixFormat.value, LanguagePlaceholder, Show(language)) + "/sitemap.xml"
  }

  /** `generateSitemapIndex`: one `<sitemap>` per distinct language, in order
      of first occurrence, with a `<lastmod>` exactly when that language's
      urlset was generated before. */
  function Index(o: Options, modifications: map<string, string>): (r: Result<Document, SitemapError>)
    requires PrefixOn(o) && Normalized(o)
    ensures r.Err? <==> Languages(o.routes).Err?
    ensures r.Err? ==> r.error == Languages(o.routes).error
    ensures r.Ok? ==> (r.value.SitemapIndex? &&
      var langs := Unique(Languages(o.routes).value);
      |r.value.sitemaps| == |langs| &&
      forall i :: 0 <= i < |langs| ==>
        r.value.sitemaps[i].loc == IndexLoc(o, langs[i]) &&
        (r.value.sitemaps[i].lastmod.Some? <==> LanguageKey(langs[i]) in modifications) &&
        (r.value.sitemaps[i].lastmod.Some? ==> r.value.sitemaps[i].lastmod.value == modifications[LanguageKey(langs[i])]))
  {
    match Languages(o.routes)
    case Err(e) => Err(e)
    case Ok(all) =>
      var langs := Unique(all);
      Ok(SitemapIndex(seq(|langs|, i requires 0 <= i < |langs| =>
        IndexRecord(IndexLoc(o, langs[i]),
          if LanguageKey(langs[i]) in modifications then Some(modifications[LanguageKey(langs[i])]) else None))))
  }

  /** Every language appears in the index exactly once. */
  lemma IndexListsEachLanguageOnce(o: Options, modifications: map<string, string>, language: Option<string>)
    requires PrefixOn(o) && Normalized(o) && Index(o, modifications).Ok?
    requires language in Languages(o.routes).value
    ensures exists i :: (0 <= i < |Index(o, modifications).value.sitemaps| &&
      Index(o, modifications).value.sitemaps[i].loc == IndexLoc(o, language))
    ensures forall i, j :: 0 <= i < j < |Index(o, modifications).value.sitemaps| ==>
      Unique(Languages(o.routes).value)[i] != Unique(Languages(o.routes).value)[j]
  {
    var langs := Unique(Languages(o.routes).value);
    var i :| 0 <= i < |langs| && langs[i] == language;
    assert Index(o, modifications).value.sitemaps[i].loc == IndexLoc(o, language);
  }

  /** With the default format the placeholder becomes the language: the
      index points at `<baseUrl>/<language>/sitemap.xml`. */
  lemma DefaultFormatLoc(language: string)
    ensures ReplaceFirst(DefaultPrefixFormat, LanguagePlaceholder, language) == "/" + language
  {
    var empty: string := [];
    assert DefaultPrefixFormat == "/" + LanguagePlaceholder + empty;
    assert !OccursAt(DefaultPrefixFormat, LanguagePlaceholder, 0) by {
      assert DefaultPrefixFormat[0] != LanguagePlaceholder[0];
    }
    ReplaceAt("/", LanguagePlaceholder, empty, language);
    assert "/" + language + empty == "/" + language;
  }

  /** Only the first placeholder of a format is filled in: with the format
      `/{{language}}/{{language}}` the second one stays in the `<loc>`. */
  lemma OnlyFirstPlaceholderFilled(language: string)
    ensures ReplaceFirst("/" + LanguagePlaceholder + "/" + LanguagePlaceholder, LanguagePlaceholder, language) ==
      "/" + language + "/" + LanguagePlaceholder
  {
    var format := "/" + LanguagePlaceholder + ("/" + LanguagePlaceholder);
    assert format == "/" + LanguagePlaceholder + "/" + LanguagePlaceholder;
    assert !OccursAt(format, LanguagePlaceholder, 0) by {
      assert format[0] != LanguagePlaceholder[0];
    }
    ReplaceAt("/", LanguagePlaceholder, "/" + LanguagePlaceholder, language);
  }

  // ---------------------------------------------------------------------
  // A language's urlset

  /** `translations.find(y => y.language === language)`. */
  function FindLanguage(ts: seq<BaseRoute>, language: string): (r: Option<BaseRoute>)
    ensures r.Some? ==> r.value in ts && r.value.language == Some(language)
    ensures r.Some? ==> exists k :: (0 <= k < |ts| && ts[k] == r.value &&
      forall m :: 0 <= m < k ==> ts[m].language != Some(language))
    ensures r.None? <==> forall k :: 0 <= k < |ts| ==> ts[k].language != Some(language)
  {
    if |ts| == 0 then None
    else if ts[0].language == Some(language) then Some(ts[0])
    else
      var r := FindLanguage(ts[1..], language);
      assert forall k :: 1 <= k < |ts| ==> ts[k] == ts[1..][k - 1];
      if r.Some? then
        var k :| 0 <= k < |ts[1..]| && ts[1..][k] == r.value &&
          forall m :: 0 <= m < k ==> ts[1..][m].language != Some(language);
        assert ts[k + 1] == r.value;
        r
      else r
  }

  /** The route the language urlset takes from one configured route: the
      route itself when its language matches, else its translation in that
      language (`undefined` when it has none); a route without translations
      whose language differs raises. */
  function Pick(x: SitemapRoute, language: string): Result<Option<BaseRoute>, SitemapError>
  {
    if x.route.language == Some(language) then Ok(Some(x.route))
    else if x.translations.None? then Err(TranslationsMissing(x.route.path))
    else Ok(FindLanguage(x.translations.value, language))
  }

  /** `options.routes.map(...)` for a language: fails at the first route Pick rejects. */
  function PickAll(routes: seq<SitemapRoute>, language: string): (r: Result<seq<Option<BaseRoute>>, SitemapError>)
    ensures r.Ok? <==> forall i :: 0 <= i < |routes| ==> Pick(routes[i], language).Ok?
    ensures r.Ok? ==> (|r.value| == |routes| &&
      forall i :: 0 <= i < |routes| ==> r.value[i] == Pick(routes[i], language).value)
    ensures r.Err? ==> exists i :: (0 <= i < |routes| && Pick(routes[i], language) == Err(r.error) &&
      forall k :: 0 <= k < i ==> Pick(routes[k], language).Ok?)
  {
    if |routes| == 0 then Ok([])
    else
      assert forall i :: 1 <= i < |routes| ==> routes[i] == routes[1..][i - 1];
      match Pick(routes[0], language)
      case Err(e) => Err(e)
      case Ok(first) =>
        match PickAll(routes[1..], language)
        case Err(e) =>
          var i :| 0 <= i < |routes[1..]| && Pick(routes[1..][i], language) == Err(e) &&
            forall k :: 0 <= k < i ==> Pick(routes[1..][k], language).Ok?;
          assert Pick(routes[i + 1], language) == Err(e);
          Err(e)
        case Ok(rest) => Ok([first] + rest)
  }

  /** The routes a urlset of one language is built from, or the first
      configured route whose translation is missing. */
  function Selected(picked: seq<Option<BaseRoute>>, routes: seq<SitemapRoute>): (r: Result<seq<BaseRoute>, SitemapError>)
    requires |picked| == |routes|
    ensures r.Ok? <==> forall i :: 0 <= i < |picked| ==> picked[i].Some?
    ensures r.Ok? ==> |r.value| == |picked| && forall i :: 0 <= i < |picked| ==> r.value[i] == picked[i].value
    ensures r.Err? ==> exists i :: (0 <= i < |picked| && picked[i].None? &&
      r.error == UntranslatedRoute(routes[i].route.path) && forall k :: 0 <= k < i ==> picked[k].Some?)
  {
    if |picked| == 0 then Ok([])
    else if picked[0].None? then Err(UntranslatedRoute(routes[0].route.path))
    else
      assert forall i :: 1 <= i < |picked| ==> picked[i] == picked[1..][i - 1] && routes[i] == routes[1..][i - 1];
      match Selected(picked[1..], routes[1..])
      case Err(e) =>
        var i :| 0 <= i < |picked[1..]| && picked[1..][i].None? &&
          e == UntranslatedRoute(routes[1..][i].route.path) && forall k :: 0 <= k < i ==> picked[1..][k].Some?;
        assert picked[i + 1].None?;
        Err(e)
      case Ok(rest) => Ok([picked[0].value] + rest)
  }

  /** The base url of a language's urlset: the language prefix is added only
      when prefixes are on. */
  function LanguageBase(o: Options, language: string): string
    requires Normalized(o)
  {
    if PrefixOn(o) then o.baseUrl + ReplaceFirst(o.i18n.value.prefixFormat.value, LanguagePlaceholder, language)
    else o.baseUrl
  }

  /** A `<url>` of a language's urlset: no alternates. */
  function PlainUrl(r: BaseRoute, base: string): (u: UrlRecord)
    ensures RenderUrl(u) == UrlTemplate(r, base)
  {
    var u := UrlRecord(base + r.path, OptionalFields(r), []);
    assert RenderLinks(u.links) == [];
    TemplateParts("<url><loc>", base, r.path, "</loc>", RenderFields(OptionalFields(r)), "</url>");
    u
  }

  /** `resolveDynamicRoutes` once a callback is set: what the callback's
      promise resolved to when that has a positive length, otherwise nothing
      (null and undefined are None). */
  function DynamicList(result: Option<seq<BaseRoute>>): (rs: seq<BaseRoute>)
    ensures result.Some? ==> rs == result.value
    ensures result.None? ==> rs == []
  {
    if result.Some? && |result.value| > 0 then result.value else []
  }

  /** The `<url>` entries of a language urlset: one per route, no alternates.
      The ensures spells out the comprehension for the proofs that index it. */
  function PlainUrls(rs: seq<BaseRoute>, base: string): (us: seq<UrlRecord>)
    ensures |us| == |rs| && forall i :: 0 <= i < |rs| ==> us[i] == PlainUrl(rs[i], base)
  {
    seq(|rs|, i requires 0 <= i < |rs| => PlainUrl(rs[i], base))
  }

  /** The template literal a language urlset builds for one route. */
  function UrlTemplate(x: BaseRoute, base: string): string
  {
    "<url><loc>" + base + x.path + "</loc>" + RenderFields(OptionalFields(x)) + "</url>"
  }

  /** `routes.map(x => ...).join('')`. */
  function JoinTemplates(xs: seq<BaseRoute>, base: string): string
  {
    if |xs| == 0 then "" else UrlTemplate(xs[0], base) + JoinTemplates(xs[1..], base)
  }

  /** The `<url>` records of a language urlset render as the code's mapped
      and joined template: one `<url>` per route, in order, with its
      optional fields and no `xhtml:link`. */
  lemma {:induction false} PlainUrlsRender(xs: seq<BaseRoute>, base: string)
    ensures RenderUrls(PlainUrls(xs, base)) == JoinTemplates(xs, base)
  {
    if |xs| > 0 {
      var us := PlainUrls(xs, base);
      assert us[1..] == PlainUrls(xs[1..], base);
      PlainUrlsRender(xs[1..], base);
      assert us[0] == PlainUrl(xs[0], base);
    }
  }

  lemma TemplateParts(a: string, base: string, path: string, b: string, fields: string, c: string)
    ensures a + (base + path) + b + fields + [] + c == a + base + path + b + fields + c
  {
  }

  /** `generateLanguageUrlSet(language)` without its timestamp write. The
      errors come in the code's order: a route without translations while
      mapping, then a missing callback, then a route with no translation in
      that language when its `<url>` is built. */
  function LanguageUrlSet(o: Options, language: string, dynamic: Option<seq<BaseRoute>>): (r: Result<Document, SitemapError>)
    requires Normalized(o)
    ensures PickAll(o.routes, language).Err? ==> r == Err(PickAll(o.routes, language).error)
    ensures PickAll(o.routes, language).Ok? && !o.dynamicRoutes ==> r == Err(DynamicRoutesNotIterable)
    ensures r.Err? && r.error.UntranslatedRoute? ==>
      exists i :: 0 <= i < |o.routes| && Pick(o.routes[i], language) == Ok(None)
    ensures PickAll(o.routes, language).Ok? && o.dynamicRoutes && r.Err? ==> r.error.UntranslatedRoute?
    ensures r.Ok? <==>
      o.dynamicRoutes &&
      forall i :: 0 <= i < |o.routes| ==> (Pick(o.routes[i], language).Ok? && Pick(o.routes[i], language).value.Some?)
    ensures r.Ok? ==> (o.dynamicRoutes && r.value.UrlSet? && !r.value.xhtml &&
      |r.value.urls| == |o.routes| + |DynamicList(dynamic)|)
    ensures r.Ok? ==> forall j :: 0 <= j < |DynamicList(dynamic)| ==>
      r.value.urls[|o.routes| + j] == PlainUrl(DynamicList(dynamic)[j], LanguageBase(o, language))
  {
    match PickAll(o.routes, language)
    case Err(e) => Err(e)
    case Ok(picked) =>
      if !o.dynamicRoutes then Err(DynamicRoutesNotIterable)
      else
        match Selected(picked, o.routes)
        case Err(e) => Err(e)
        case Ok(selected) =>
          var all := selected + DynamicList(dynamic);
          assert forall j :: 0 <= j < |DynamicList(dynamic)| ==> all[|o.routes| + j] == DynamicList(dynamic)[j];
          Ok(UrlSet(false, PlainUrls(all, LanguageBase(o, language))))
  }

  /** Every static `<url>` of a language urlset is a page in that language:
      the configured route itself when its language matches, otherwise its
      first translation into that language. */
  lemma LanguageUrlSetInLanguage(o: Options, language: string, dynamic: Option<seq<BaseRoute>>, d: Document, i: nat)
    requires Normalized(o) && LanguageUrlSet(o, language, dynamic) == Ok(d) && i < |o.routes|
    ensures d.UrlSet? && i < |d.urls|
    ensures var x := o.routes[i];
      exists page: BaseRoute :: page.language == Some(language) &&
        (page == x.route || (x.translations.Some? && FindLanguage(x.translations.value, language) == Some(page))) &&
        d.urls[i] == PlainUrl(page, LanguageBase(o, language))
    ensures o.routes[i].route.language == Some(language) ==>
      d.urls[i] == PlainUrl(o.routes[i].route, LanguageBase(o, language))
    ensures o.routes[i].route.language != Some(language) ==>
      o.routes[i].translations.Some? && FindLanguage(o.routes[i].translations.value, language).Some? &&
      d.urls[i] == PlainUrl(FindLanguage(o.routes[i].translations.value, language).value, LanguageBase(o, language))
  {
    var picked := PickAll(o.routes, language).value;
    var selected := Selected(picked, o.routes).value;
    var x := o.routes[i];
    assert picked[i] == Pick(x, language).value;
    var page := selected[i];
    var all := selected + DynamicList(dynamic);
    assert all[i] == page;
    assert (selected + DynamicList(dynamic))[i] == selected[i];
    assert d.urls == PlainUrls(all, LanguageBase(o, language));
    if x.route.language != Some(language) {
      assert page == FindLanguage(x.translations.value, language).value;
    }
  }

  // ---------------------------------------------------------------------
  // Dispatch and the plugin

  datatype Target = LanguageTarget(language: string) | IndexTarget | GlobalTarget

  /** `generateSitemap(language)`: a language selects its urlset; otherwise
      prefixes on select the index, and off the global urlset. */
  function Dispatch(o: Options, language: Option<string>): (t: Target)
    ensures Present(language) <==> t.LanguageTarget?
    ensures t.LanguageTarget? ==> t.language == language.value
    ensures t == IndexTarget <==> !Present(language) && PrefixOn(o)
    ensures t == GlobalTarget <==> !Present(language) && !PrefixOn(o)
  {
    if Present(language) then LanguageTarget(language.value)
    else if PrefixOn(o) then IndexTarget
    else GlobalTarget
  }

  /** The plugin's module state: the options it was given and, per language,
      when that language's urlset was last generated. */
  class SitemapService {
    var options: Option<Options>
    var modifications: map<string, string>

    constructor ()
      ensures options == None && modifications == map[]
    {
      options := None;
      modifications := map[];
    }

    /** `sitemapPlugin(fastify, options)`: throws without options; otherwise
        keeps the defaulted options and registers `GET /sitemap.xml`, plus
        `GET /:language/sitemap.xml` when prefixes are on. */
    method Register(server: Server, given: Option<Options>) returns (r: Result<(), SitemapError>)
      modifies this, server
      ensures given.None? ==> r == Err(OptionsMissing) && options == old(options) && server.routes == old(server.routes)
      ensures given.Some? ==> r.Ok? && options == Some(Normalize(given.value))
      ensures given.Some? ==> |server.routes| == |old(server.routes)| + (if PrefixOn(given.value) then 2 else 1)
      ensures given.Some? ==> server.routes[..|old(server.routes)|] == old(server.routes)
      ensures given.Some? ==> server.routes[|old(server.routes)|].url == "/sitemap.xml"
      ensures given.Some? && PrefixOn(given.value) ==> server.routes[|old(server.routes)| + 1].url == "/:language/sitemap.xml"
      ensures forall i :: |old(server.routes)| <= i < |server.routes| ==>
        fresh(server.routes[i]) && server.routes[i].verb == "GET"
      ensures modifications == old(modifications) && server.hooks == old(server.hooks)
      ensures server.requestDecorators == old(server.requestDecorators)
      ensures server.replyDecorators == old(server.replyDecorators)
    {
      if given.None? {
        return Err(OptionsMissing);
      }
      options := Some(Normalize(given.value));
      var index := new Route("GET", "/sitemap.xml", Undefined, NoPreHandler);
      server.AddRoute(index);
      if PrefixOn(given.value) {
        var perLanguage := new Route("GET", "/:language/sitemap.xml", Undefined, NoPreHandler);
        server.AddRoute(perLanguage);
      }
      r := Ok(());
    }

    /** `generateSitemap(language)`, given what the `dynamicRoutes` callback
        returns and the current time as an ISO string. Only a successful
        language urlset records its time. */
    method GenerateSitemap(language: Option<string>, dynamic: Option<seq<BaseRoute>>, now: string)
      returns (r: Result<string, SitemapError>)
      requires options.Some? && Normalized(options.value)
      modifies this
      ensures options == old(options)
      ensures match Dispatch(options.value, language)
        case LanguageTarget(l) =>
          var d := LanguageUrlSet(options.value, l, dynamic);
          (d.Ok? ==> r == Ok(Render(d.value)) && modifications == old(modifications)[l := now]) &&
          (d.Err? ==> r == Err(d.error) && modifications == old(modifications))
        case IndexTarget =>
          var d := Index(options.value, old(modifications));
          modifications == old(modifications) &&
          (d.Ok? ==> r == Ok(Render(d.value))) && (d.Err? ==> r == Err(d.error))
        case GlobalTarget =>
          var d := GlobalUrlSet(options.value, dynamic);
          modifications == old(modifications) &&
          (d.Ok? ==> r == Ok(Render(d.value))) && (d.Err? ==> r == Err(d.error))
    {
      var o := options.value;
      match Dispatch(o, language)
      case LanguageTarget(l) => {
        var d := LanguageUrlSet(o, l, dynamic);
        if d.Err? {
          return Err(d.error);
        }
        modifications := modifications[l := now];
        r := Ok(Render(d.value));
      }
      case IndexTarget => {
        var d := Index(o, modifications);
        r := if d.Ok? then Ok(Render(d.value)) else Err(d.error);
      }
      case GlobalTarget => {
        var d := GlobalUrlSet(o, dynamic);
        r := if d.Ok? then Ok(Render(d.value)) else Err(d.error);
      }
    }

    /** A route handler: sets the XML content type and sends the document;
        a failure propagates as a thrown error. */
    method Serve(reply: Reply, language: Option<string>, dynamic: Option<seq<BaseRoute>>, now: string)
      returns (r: Result<string, SitemapError>)
      requires options.Some? && Normalized(options.value)
      modifies this, reply
      ensures options == old(options)
      ensures match Dispatch(options.value, language)
        case LanguageTarget(l) =>
          var d := LanguageUrlSet(options.value, l, dynamic);
          (d.Ok? ==> r == Ok(Render(d.value)) && modifications == old(modifications)[l := now]) &&
          (d.Err? ==> r == Err(d.error) && modifications == old(modifications))
        case IndexTarget =>
          var d := Index(options.value, old(modifications));
          modifications == old(modifications) &&
          (d.Ok? ==> r == Ok(Render(d.value))) && (d.Err? ==> r == Err(d.error))
        case GlobalTarget =>
          var d := GlobalUrlSet(options.value, dynamic);
          modifications == old(modifications) &&
          (d.Ok? ==> r == Ok(Render(d.value))) && (d.Err? ==> r == Err(d.error))
      ensures reply.headers == old(reply.headers)["Content-Type" := "application/xml"]
      ensures r.Ok? ==> reply.payload == SentText(r.value)
      ensures r.Err? ==> reply.payload == old(reply.payload)
      ensures reply.statusCode == old(reply.statusCode) && reply.helpers == old(reply.helpers)
    {
      reply.Header("Content-Type", "application/xml");
      r := GenerateSitemap(language, dynamic, now);
      if r.Ok? {
        reply.SendText(r.value);
      }
    }
  }

  /** Once a language's urlset has been generated, the index gives that
      language a `<lastmod>` with the time it was generated. */
  lemma GeneratedLanguageGetsLastmod(o: Options, modifications: map<string, string>, language: string, now: string,
                                     updated: map<string, string>)
    requires PrefixOn(o) && Normalized(o)
    requires updated == modifications[language := now]
    requires Index(o, updated).Ok?
    requires Some(language) in Languages(o.routes).value
    ensures exists i :: (0 <= i < |Index(o, updated).value.sitemaps| &&
      Index(o, updated).value.sitemaps[i] == IndexRecord(IndexLoc(o, Some(language)), Some(now)))
  {
    var langs := Unique(Languages(o.routes).value);
    var i :| 0 <= i < |langs| && langs[i] == Some(language);
    assert LanguageKey(langs[i]) == language;
  }
}
