/**
 * The XML sitemaps (the sitemaps.org 0.9 protocol): the serialiser shared by
 * the content and directory routes, a reader for its output, and the URL lists
 * the two routes build from the case-type and injury tables.
 *
 * Priorities are numbers in the source; here they are tenths (8 for 0.8,
 * 10 for 1.0), printed the way a template literal prints the number.
 */
module Sitemap {
  import opened Common

  // ---------------------------------------------------------------------
  // Serialiser
  // ---------------------------------------------------------------------

  datatype SitemapUrl = SitemapUrl(loc: string, lastmod: Option<string>, changefreq: Option<string>, priority: Option<nat>)

  /** `${priority}` for a priority of `tenths / 10`: "1" for 1.0, "0.8" for 0.8. */
  function PriorityText(tenths: nat): (r: string)
    ensures |r| >= 1 && NoLt(r)
  {
    if tenths % 10 == 0 then NatToString(tenths / 10)
    else NatToString(tenths / 10) + "." + NatToString(tenths % 10)
  }

  /** The priority as printed, or None when it is missing or 0 (both falsy). */
  function PriorityField(p: Option<nat>): (r: Option<string>)
    ensures r.Some? <==> p.Some? && p.value != 0
    ensures r.Some? ==> r.value != "" && NoLt(r.value)
  {
    if p.Some? && p.value != 0 then Some(PriorityText(p.value)) else None
  }

  predicate NoLt(s: string) {
    forall i :: 0 <= i < |s| ==> s[i] != '<'
  }

  /** `<tag>value</tag>` when the value is truthy, else nothing. */
  function Field(tag: string, v: Option<string>): string {
    if OptTruthy(v) then "<" + tag + ">" + v.value + "</" + tag + ">" else ""
  }

  const OpenUrl: string := "\n  <url>\n    <loc>"
  const CloseLoc: string := "</loc>\n    "
  const FieldSep: string := "\n    "
  const CloseUrl: string := "\n  </url>"
  const XmlHead: string :=
    "<?xml version=\"1.0\" encoding=\"UTF-8\"?>\n<urlset xmlns=\"http://www.sitemaps.org/schemas/sitemap/0.9\">\n  "
  const XmlTail: string := "\n</urlset>"

  /** One `<url>` element; the location is inserted as it is, without escaping. */
  function Entry(u: SitemapUrl): (r: string)
    ensures StartsWith(r, OpenUrl + u.loc + CloseLoc) && EndsWith(r, CloseUrl)
  {
    var x := Field("lastmod", u.lastmod) + (FieldSep + (Field("changefreq", u.changefreq)
      + (FieldSep + (Field("priority", PriorityField(u.priority)) + CloseUrl))));
    AppendAssoc(u.loc, CloseLoc, x);
    AppendAssoc(OpenUrl, u.loc + CloseLoc, x);
    AppendAssoc(OpenUrl, u.loc, CloseLoc);
    PrefixOfAppend(OpenUrl + u.loc + CloseLoc, x);
    SuffixOfAppend(Field("priority", PriorityField(u.priority)), CloseUrl, CloseUrl);
    SuffixOfAppend(FieldSep, Field("priority", PriorityField(u.priority)) + CloseUrl, CloseUrl);
    SuffixOfAppend(Field("changefreq", u.changefreq), FieldSep + (Field("priority", PriorityField(u.priority)) + CloseUrl), CloseUrl);
    SuffixOfAppend(FieldSep, Field("changefreq", u.changefreq)
      + (FieldSep + (Field("priority", PriorityField(u.priority)) + CloseUrl)), CloseUrl);
    SuffixOfAppend(Field("lastmod", u.lastmod), FieldSep + (Field("changefreq", u.changefreq)
      + (FieldSep + (Field("priority", PriorityField(u.priority)) + CloseUrl))), CloseUrl);
    SuffixOfAppend(CloseLoc, x, CloseUrl);
    SuffixOfAppend(u.loc, CloseLoc + x, CloseUrl);
    SuffixOfAppend(OpenUrl, u.loc + (CloseLoc + x), CloseUrl);
    OpenUrl + (u.loc + (CloseLoc + x))
  }

  lemma PrefixOfAppend(a: string, b: string)
    ensures StartsWith(a + b, a)
  {
    assert (a + b)[..|a|] == a;
  }

  lemma SuffixOfAppend(a: string, b: string, c: string)
    requires EndsWith(b, c) || b == c
    ensures EndsWith(a + b, c)
  {
    assert (a + b)[|a + b| - |c|..] == b[|b| - |c|..];
  }

  /** `urls.map(...).join('')`. */
  function Entries(urls: seq<SitemapUrl>): string {
    if |urls| == 0 then "" else Entry(urls[0]) + Entries(urls[1..])
  }

  /** `generateSitemapXML`: the declaration, the urlset and one entry per URL. */
  function GenerateSitemapXml(urls: seq<SitemapUrl>): (r: string)
    ensures StartsWith(r, XmlHead) && EndsWith(r, XmlTail)
  {
    XmlHead + Entries(urls) + XmlTail
  }

  // ---------------------------------------------------------------------
  // Reader
  // ---------------------------------------------------------------------

  /** What a reader recovers from one entry: the fields that were written. */
  datatype ParsedUrl = ParsedUrl(loc: string, lastmod: Option<string>, changefreq: Option<string>, priority: Option<string>)

  /** The text up to the first '<'. */
  function TakeUntilLt(s: string): (r: string)
    ensures |r| <= |s| && r == s[..|r|] && NoLt(r)
    ensures |r| < |s| ==> s[|r|] == '<'
  {
    if |s| == 0 || s[0] == '<' then "" else [s[0]] + TakeUntilLt(s[1..])
  }

  /** An optional `<tag>value</tag>` at the head of `s`, and what follows it. */
  function ParseField(tag: string, s: string): (r: Option<(Option<string>, string)>)
    ensures r.Some? ==> |r.value.1| <= |s|
  {
    var open := "<" + tag + ">";
    if StartsWith(s, open) then
      var body := s[|open|..];
      var v := TakeUntilLt(body);
      var after := body[|v|..];
      var close := "</" + tag + ">";
      if StartsWith(after, close) then Some((Some(v), after[|close|..])) else None
    else Some((None, s))
  }

  /** `<loc>value</loc>` after the opening of an entry, and what follows it. */
  function ParseLoc(s: string): (r: Option<(string, string)>)
    ensures r.Some? ==> |r.value.1| < |s|
  {
    if !StartsWith(s, OpenUrl) then None
    else
      var s1 := s[|OpenUrl|..];
      var loc := TakeUntilLt(s1);
      var s2 := s1[|loc|..];
      if StartsWith(s2, CloseLoc) then Some((loc, s2[|CloseLoc|..])) else None
  }

  /** A field preceded by the line break and indentation that separate fields. */
  function ParseNextField(tag: string, s: string): (r: Option<(Option<string>, string)>)
    ensures r.Some? ==> |r.value.1| <= |s|
  {
    if StartsWith(s, FieldSep) then ParseField(tag, s[|FieldSep|..]) else None
  }

  /** The closing of an entry, and what follows it. */
  function ParseClose(s: string): (r: Option<string>)
    ensures r.Some? ==> |r.value| <= |s|
  {
    if StartsWith(s, CloseUrl) then Some(s[|CloseUrl|..]) else None
  }

  /** One `<url>` element at the head of `s`, and what follows it. */
  function ParseEntry(s: string): (r: Option<(ParsedUrl, string)>)
    ensures r.Some? ==> |r.value.1| < |s|
  {
    match ParseLoc(s)
    case None => None
    case Some((loc, s1)) =>
      match ParseField("lastmod", s1)
      case None => None
      case Some((lastmod, s2)) =>
        match ParseNextField("changefreq", s2)
        case None => None
        case Some((changefreq, s3)) =>
          match ParseNextField("priority", s3)
          case None => None
          case Some((priority, s4)) =>
            match ParseClose(s4)
            case None => None
            case Some(rest) => Some((ParsedUrl(loc, lastmod, changefreq, priority), rest))
  }

  /** The `<url>` elements at the head of `s`, and what follows them. */
  function ParseEntries(s: string): Option<(seq<ParsedUrl>, string)>
    decreases |s|
  {
    if !StartsWith(s, OpenUrl) then Some(([], s))
    else
      match ParseEntry(s)
      case None => None
      case Some((u, rest)) =>
        match ParseEntries(rest)
        case None => None
        case Some((us, tail)) => Some(([u] + us, tail))
  }

  /** A whole sitemap document. */
  function ParseSitemap(s: string): Option<seq<ParsedUrl>> {
    if !StartsWith(s, XmlHead) then None
    else
      match ParseEntries(s[|XmlHead|..])
      case None => None
      case Some((us, rest)) => if rest == XmlTail then Some(us) else None
  }

  /** Values a reader can find the end of: none holds a '<'. */
  predicate Readable(u: SitemapUrl) {
    && NoLt(u.loc)
    && (u.lastmod.Some? ==> NoLt(u.lastmod.value))
    && (u.changefreq.Some? ==> NoLt(u.changefreq.value))
  }

  /** What the document says about `u`: falsy fields, priority 0 included, are not written. */
  function Written(u: SitemapUrl): (r: ParsedUrl)
    ensures r.loc == u.loc
    ensures r.lastmod.Some? <==> OptTruthy(u.lastmod)
    ensures r.changefreq.Some? <==> OptTruthy(u.changefreq)
    ensures r.priority.Some? <==> u.priority.Some? && u.priority.value != 0
  {
    ParsedUrl(u.loc, if OptTruthy(u.lastmod) then u.lastmod else None,
              if OptTruthy(u.changefreq) then u.changefreq else None, PriorityField(u.priority))
  }

  lemma {:induction false} TakeUntilLtOf(v: string, rest: string)
    requires NoLt(v) && |rest| > 0 && rest[0] == '<'
    ensures TakeUntilLt(v + rest) == v
  {
    if |v| == 0 {
      assert v + rest == rest;
    } else {
      assert (v + rest)[0] == v[0];
      assert (v + rest)[1..] == v[1..] + rest;
      TakeUntilLtOf(v[1..], rest);
      assert [v[0]] + v[1..] == v;
    }
  }

  lemma ParseFieldOf(tag: string, v: Option<string>, rest: string)
    requires v.Some? ==> NoLt(v.value)
    requires |rest| > 0 && rest[0] == '\n'
    ensures ParseField(tag, Field(tag, v) + rest) == Some((if OptTruthy(v) then v else None, rest))
  {
    var open := "<" + tag + ">";
    var close := "</" + tag + ">";
    if OptTruthy(v) {
      var s := Field(tag, v) + rest;
      assert s == open + (v.value + (close + rest));
      assert StartsWith(s, open);
      assert s[|open|..] == v.value + (close + rest);
      TakeUntilLtOf(v.value, close + rest);
      assert (v.value + (close + rest))[|v.value|..] == close + rest;
      assert (close + rest)[|close|..] == rest;
    } else {
      assert Field(tag, v) + rest == rest;
      assert !StartsWith(rest, open) by {
        assert open[0] == '<';
      }
    }
  }

  lemma ParseLocOf(loc: string, rest: string)
    requires NoLt(loc)
    ensures ParseLoc(OpenUrl + loc + CloseLoc + rest) == Some((loc, rest))
  {
    var t := loc + (CloseLoc + rest);
    var s := OpenUrl + loc + CloseLoc + rest;
    assert s == OpenUrl + t;
    assert s[|OpenUrl|..] == t;
    TakeUntilLtOf(loc, CloseLoc + rest);
    assert t[|loc|..] == CloseLoc + rest;
    assert (CloseLoc + rest)[|CloseLoc|..] == rest;
  }

  lemma ParseNextFieldOf(tag: string, v: Option<string>, rest: string)
    requires v.Some? ==> NoLt(v.value)
    requires |rest| > 0 && rest[0] == '\n'
    ensures ParseNextField(tag, FieldSep + Field(tag, v) + rest) == Some((if OptTruthy(v) then v else None, rest))
  {
    var s := FieldSep + Field(tag, v) + rest;
    assert s == FieldSep + (Field(tag, v) + rest);
    assert s[|FieldSep|..] == Field(tag, v) + rest;
    ParseFieldOf(tag, v, rest);
  }

  lemma ParseCloseOf(rest: string)
    ensures ParseClose(CloseUrl + rest) == Some(rest)
  {
    assert (CloseUrl + rest)[|CloseUrl|..] == rest;
  }

  lemma Regroup(a: string, b: string, c: string, d: string, sep: string, f: string, h: string, i: string, rest: string)
    ensures (a + (b + (c + (d + (sep + (f + (sep + (h + i)))))))) + rest
            == a + b + c + (d + (sep + f + (sep + h + (i + rest))))
  {
  }

  /** Reading an entry back gives the fields that were written, and stops right after it. */
  lemma EntryRoundTrip(u: SitemapUrl, rest: string)
    requires Readable(u)
    ensures ParseEntry(Entry(u) + rest) == Some((Written(u), rest))
  {
    var lm := Field("lastmod", u.lastmod);
    var cf := Field("changefreq", u.changefreq);
    var pr := Field("priority", PriorityField(u.priority));
    var s4 := CloseUrl + rest;
    var s3 := FieldSep + pr + s4;
    var s2 := FieldSep + cf + s3;
    var s1 := lm + s2;
    Regroup(OpenUrl, u.loc, CloseLoc, lm, FieldSep, cf, pr, CloseUrl, rest);
    ParseLocOf(u.loc, s1);
    ParseFieldOf("lastmod", u.lastmod, s2);
    ParseNextFieldOf("changefreq", u.changefreq, s3);
    ParseNextFieldOf("priority", PriorityField(u.priority), s4);
    ParseCloseOf(rest);
  }

  /** The reading of each URL, in order. */
  function AllWritten(urls: seq<SitemapUrl>): (r: seq<ParsedUrl>)
    ensures |r| == |urls|
    ensures forall i :: 0 <= i < |urls| ==> r[i] == Written(urls[i])
  {
    seq(|urls|, i requires 0 <= i < |urls| => Written(urls[i]))
  }

  lemma EntryStartsWithOpen(u: SitemapUrl, tail: string)
    ensures StartsWith(Entry(u) + tail, OpenUrl)
  {
    var body := u.loc + (CloseLoc + (Field("lastmod", u.lastmod) + (FieldSep + (Field("changefreq", u.changefreq)
      + (FieldSep + (Field("priority", PriorityField(u.priority)) + CloseUrl))))));
    assert Entry(u) + tail == OpenUrl + (body + tail);
  }

  /** An entry at the head followed by the entries of the rest. */
  lemma ParseEntriesCons(s: string, u: ParsedUrl, rest: string, us: seq<ParsedUrl>, tail: string)
    requires StartsWith(s, OpenUrl)
    requires ParseEntry(s) == Some((u, rest))
    requires ParseEntries(rest) == Some((us, tail))
    ensures ParseEntries(s) == Some(([u] + us, tail))
  {
  }

  lemma AllWrittenCons(urls: seq<SitemapUrl>)
    requires |urls| > 0
    ensures AllWritten(urls) == [Written(urls[0])] + AllWritten(urls[1..])
  {
    var a, b := AllWritten(urls), [Written(urls[0])] + AllWritten(urls[1..]);
    assert |a| == |b|;
    forall i | 0 <= i < |a| ensures a[i] == b[i] {
      if i > 0 {
        assert b[i] == AllWritten(urls[1..])[i - 1] == Written(urls[1..][i - 1]);
      }
    }
  }

  lemma {:induction false} EntriesRoundTrip(urls: seq<SitemapUrl>, rest: string)
    requires forall i :: 0 <= i < |urls| ==> Readable(urls[i])
    requires !StartsWith(rest, OpenUrl)
    ensures ParseEntries(Entries(urls) + rest) == Some((AllWritten(urls), rest))
  {
    if |urls| == 0 {
      assert Entries(urls) + rest == rest;
    } else {
      var tail := Entries(urls[1..]) + rest;
      assert Entries(urls) + rest == Entry(urls[0]) + tail;
      EntryRoundTrip(urls[0], tail);
      EntryStartsWithOpen(urls[0], tail);
      assert forall i :: 0 <= i < |urls[1..]| ==> Readable(urls[1..][i]);
      EntriesRoundTrip(urls[1..], rest);
      ParseEntriesCons(Entry(urls[0]) + tail, Written(urls[0]), tail, AllWritten(urls[1..]), rest);
      AllWrittenCons(urls);
    }
  }

  /**
   * The partner of `GenerateSitemapXml`: reading the document back gives one
   * entry per URL, in order, with the location as given and every falsy
   * field (priority 0 included) left out.
   */
  lemma SitemapRoundTrip(urls: seq<SitemapUrl>)
    requires forall i :: 0 <= i < |urls| ==> Readable(urls[i])
    ensures ParseSitemap(GenerateSitemapXml(urls)) == Some(AllWritten(urls))
  {
    var body := Entries(urls) + XmlTail;
    TailIsNoEntry();
    EntriesRoundTrip(urls, XmlTail);
    ParseSitemapOf(body, AllWritten(urls));
    AppendAssoc(XmlHead, Entries(urls), XmlTail);
  }

  lemma AppendAssoc(a: string, b: string, c: string)
    ensures a + b + c == a + (b + c)
  {
  }

  /** A declaration followed by entries and the closing tag reads as those entries. */
  lemma ParseSitemapOf(body: string, us: seq<ParsedUrl>)
    requires ParseEntries(body) == Some((us, XmlTail))
    ensures ParseSitemap(XmlHead + body) == Some(us)
  {
    assert (XmlHead + body)[..|XmlHead|] == XmlHead;
    assert (XmlHead + body)[|XmlHead|..] == body;
  }

  lemma TailIsNoEntry()
    ensures !StartsWith(XmlTail, OpenUrl)
  {
    NotStartsWithAt(XmlTail, OpenUrl, 1);
  }

  /** Priority 1.0 prints as "1" and 0.8 as "0.8". */
  lemma PriorityTexts()
    ensures PriorityText(10) == "1" && PriorityText(8) == "0.8" && PriorityText(7) == "0.7" && PriorityText(6) == "0.6"
  {
  }

  // ---------------------------------------------------------------------
  // Route building blocks
  // ---------------------------------------------------------------------

  /** `${x}` for a nullable column: null prints as "null". */
  function Interpolated(o: Option<string>): string {
    if o.Some? then o.value else "null"
  }

  /** `process.env.NEXT_PUBLIC_SITE_URL || 'https://peoplesjustice.com'`. */
  function BaseUrl(env: Option<string>): string {
    OrElse(env, "https://peoplesjustice.com")
  }

  /** Two nested `forEach` loops: for each outer item, one URL per inner item. */
  function Product<A, B>(xs: seq<A>, ys: seq<B>, f: (A, B) -> SitemapUrl): (r: seq<SitemapUrl>)
    ensures |r| == |xs| * |ys|
  {
    if |xs| == 0 then []
    else Product(xs[..|xs| - 1], ys, f) + seq(|ys|, j requires 0 <= j < |ys| => f(xs[|xs| - 1], ys[j]))
  }

  /** Entry `i * |ys| + j` is built from outer item `i` and inner item `j`: outer-major order. */
  lemma {:induction false} ProductAt<A, B>(xs: seq<A>, ys: seq<B>, f: (A, B) -> SitemapUrl, i: nat, j: nat)
    requires i < |xs| && j < |ys|
    ensures i * |ys| + j < |Product(xs, ys, f)|
    ensures Product(xs, ys, f)[i * |ys| + j] == f(xs[i], ys[j])
  {
    var n := |xs|;
    var m := |ys|;
    var init := xs[..n - 1];
    var front := Product(init, ys, f);
    assert |front| == (n - 1) * m;
    IndexBelow(i, j, n, m);
    if i < n - 1 {
      IndexBelow(i, j, n - 1, m);
      ProductAt(init, ys, f, i, j);
      assert init[i] == xs[i];
      assert Product(xs, ys, f)[i * m + j] == front[i * m + j];
    } else {
      assert i * m + j - (n - 1) * m == j;
    }
  }

  /** Row-major positions of an `k`-by-`m` grid lie below `k * m`. */
  lemma IndexBelow(i: nat, j: nat, k: nat, m: nat)
    requires i < k && j < m
    ensures i * m + j < k * m
  {
    assert (i + 1) * m == i * m + m;
    assert (i + 1) * m <= k * m;
  }

  /** The nested loops, written as the route writes them. */
  method AppendProduct<A, B>(urls: seq<SitemapUrl>, xs: seq<A>, ys: seq<B>, f: (A, B) -> SitemapUrl)
    returns (out: seq<SitemapUrl>)
    ensures out == urls + Product(xs, ys, f)
  {
    out := urls;
    var i := 0;
    while i < |xs|
      invariant 0 <= i <= |xs|
      invariant out == urls + Product(xs[..i], ys, f)
    {
      ghost var before := out;
      var j := 0;
      while j < |ys|
        invariant 0 <= j <= |ys|
        invariant out == before + seq(j, k requires 0 <= k < j => f(xs[i], ys[k]))
      {
        out := out + [f(xs[i], ys[j])];
        j := j + 1;
      }
      assert xs[..i + 1][..i] == xs[..i];
      assert xs[..i + 1][i] == xs[i];
      i := i + 1;
    }
    assert xs[..i] == xs;
  }

  datatype Response = Response(status: nat, body: string, headers: map<string, string>)

  const XmlHeaders: map<string, string> :=
    map["Content-Type" := "application/xml", "Cache-Control" := "public, max-age=3600, s-maxage=3600"]

  /**
   * What a database query resolves to: its `data` (None for a query the
   * database rejects), or a thrown error.
   */
  datatype Fetch<T> = Rows(data: Option<seq<T>>) | Thrown

  // ---------------------------------------------------------------------
  // /sitemap-find.xml: directory listings
  // ---------------------------------------------------------------------

  const FindStates: seq<string> := [
    "california", "texas", "florida", "new-york", "pennsylvania",
    "illinois", "ohio", "georgia", "north-carolina", "michigan"
  ]

  const FindCities: seq<(string, string)> := [
    ("california", "los-angeles"), ("california", "san-diego"), ("california", "san-francisco"),
    ("texas", "houston"), ("texas", "dallas"), ("texas", "austin"),
    ("florida", "miami"), ("florida", "tampa"), ("florida", "orlando"),
    ("new-york", "new-york")
  ]

  function StateListing(base: string): (Option<string>, string) -> SitemapUrl {
    (slug: Option<string>, state: string) =>
      SitemapUrl(base + "/find/" + Interpolated(slug) + "/" + state + "/", None, Some("daily"), Some(8))
  }

  function CityListing(base: string): (Option<string>, (string, string)) -> SitemapUrl {
    (slug: Option<string>, place: (string, string)) =>
      SitemapUrl(base + "/find/" + Interpolated(slug) + "/" + place.0 + "/" + place.1 + "/", None, Some("weekly"), Some(7))
  }

  /** The directory URLs: every state listing of every pillar, then every city listing; none without pillars. */
  function FindUrls(base: string, pillars: Option<seq<Option<string>>>): (r: seq<SitemapUrl>)
    ensures pillars.None? ==> r == []
    ensures pillars.Some? ==> |r| == 20 * |pillars.value|
  {
    if pillars.None? then []
    else Product(pillars.value, FindStates, StateListing(base)) + Product(pillars.value, FindCities, CityListing(base))
  }

  /** `GET` of the directory sitemap; `pillars` is the `pillar_slug` of each active case type. */
  method GenerateFindSitemap(env: Option<string>, pillars: Fetch<Option<string>>) returns (resp: Response)
    ensures pillars.Thrown? ==> resp == Response(500, "Error generating directory sitemap", map[])
    ensures pillars.Rows? ==> resp == Response(200, GenerateSitemapXml(FindUrls(BaseUrl(env), pillars.data)), XmlHeaders)
  {
    var baseUrl := BaseUrl(env);
    if pillars.Thrown? {
      return Response(500, "Error generating directory sitemap", map[]);
    }
    var urls: seq<SitemapUrl> := [];
    if pillars.data.Some? {
      urls := AppendProduct(urls, pillars.data.value, FindStates, StateListing(baseUrl));
      urls := AppendProduct(urls, pillars.data.value, FindCities, CityListing(baseUrl));
    }
    assert urls == FindUrls(baseUrl, pillars.data);
    resp := Response(200, GenerateSitemapXml(urls), XmlHeaders);
  }

  /**
   * For p pillars: 10·p state listings (daily, 0.8), pillar-major, then
   * 10·p city listings (weekly, 0.7), pillar-major.
   */
  lemma FindUrlsLayout(base: string, pillars: seq<Option<string>>, i: nat, j: nat)
    requires i < |pillars| && j < 10
    ensures |FindUrls(base, Some(pillars))| == 20 * |pillars|
    ensures FindUrls(base, Some(pillars))[10 * i + j]
            == SitemapUrl(base + "/find/" + Interpolated(pillars[i]) + "/" + FindStates[j] + "/", None, Some("daily"), Some(8))
    ensures FindUrls(base, Some(pillars))[10 * |pillars| + 10 * i + j]
            == SitemapUrl(base + "/find/" + Interpolated(pillars[i]) + "/" + FindCities[j].0 + "/" + FindCities[j].1 + "/",
                          None, Some("weekly"), Some(7))
  {
    var states := Product(pillars, FindStates, StateListing(base));
    var cities := Product(pillars, FindCities, CityListing(base));
    ProductAt(pillars, FindStates, StateListing(base), i, j);
    ProductAt(pillars, FindCities, CityListing(base), i, j);
    assert |states| == 10 * |pillars|;
    assert (states + cities)[10 * |pillars| + 10 * i + j] == cities[10 * i + j];
  }

  /** Without case types the directory sitemap is an empty urlset. */
  lemma FindWithoutPillarsIsEmpty(env: Option<string>)
    ensures ParseSitemap(GenerateSitemapXml(FindUrls(BaseUrl(env), None))) == Some([])
  {
    var urls := FindUrls(BaseUrl(env), None);
    assert urls == [];
    SitemapRoundTrip(urls);
    assert AllWritten(urls) == [];
  }

  // ---------------------------------------------------------------------
  // /sitemap-content.xml: pillars, injuries, state hubs, cities, resources
  // ---------------------------------------------------------------------

  /** An active case type as selected: `pillar_slug, updated_at`. */
  datatype PillarRow = PillarRow(pillarSlug: Option<string>, updatedAt: string)

  /** An injury with the `pillar_slug` of its joined case type and its timestamp. */
  datatype InjuryRow = InjuryRow(slug: string, casePillarSlug: Option<string>, timestamp: string)

  /** `a || new Date().toISOString()` for a non-null column. */
  function OrNow(a: string, now: string): string {
    if a != "" then a else now
  }

  function PillarUrl(base: string, now: string, p: PillarRow): SitemapUrl {
    SitemapUrl(base + "/cases/" + Interpolated(p.pillarSlug) + "/", Some(OrNow(p.updatedAt, now)), Some("daily"), Some(10))
  }

  /** One URL per active case type, daily, priority 1.0, in row order. */
  function PillarUrls(base: string, now: string, rows: seq<PillarRow>): (r: seq<SitemapUrl>)
    ensures |r| == |rows|
    ensures forall i :: 0 <= i < |rows| ==> r[i] == PillarUrl(base, now, rows[i])
  {
    seq(|rows|, i requires 0 <= i < |rows| => PillarUrl(base, now, rows[i]))
  }

  function InjuryUrl(base: string, now: string, caseSlug: string, injury: InjuryRow): SitemapUrl {
    SitemapUrl(base + "/cases/" + caseSlug + "/" + injury.slug + "/", Some(OrNow(injury.timestamp, now)), Some("weekly"), Some(8))
  }

  /** A URL for each injury whose case type has a truthy pillar slug, in row order. */
  function InjuryUrls(base: string, now: string, rows: seq<InjuryRow>): (r: seq<SitemapUrl>)
    ensures |r| <= |rows|
  {
    if |rows| == 0 then []
    else
      var last := rows[|rows| - 1];
      InjuryUrls(base, now, rows[..|rows| - 1])
      + (if OptTruthy(last.casePillarSlug) then [InjuryUrl(base, now, last.casePillarSlug.value, last)] else [])
  }

  const HubStates: seq<string> := ["california", "texas", "florida", "new-york", "pennsylvania"]

  function StateHub(base: string): (string, PillarRow) -> SitemapUrl {
    (state: string, p: PillarRow) =>
      SitemapUrl(base + "/state/" + state + "/" + Interpolated(p.pillarSlug) + "-lawsuit/", None, Some("weekly"), Some(7))
  }

  const ContentCities: seq<(string, string)> := [
    ("california", "los-angeles"), ("california", "san-francisco"), ("texas", "houston"),
    ("texas", "dallas"), ("florida", "miami"), ("new-york", "new-york")
  ]

  function CityPage(base: string, place: (string, string)): SitemapUrl {
    SitemapUrl(base + "/state/" + place.0 + "/" + place.1 + "/car-accident-lawyer/", None, Some("monthly"), Some(6))
  }

  /** The six city pages, whatever the database holds. */
  function CityUrls(base: string): (r: seq<SitemapUrl>)
    ensures |r| == 6
    ensures forall i :: 0 <= i < 6 ==> r[i] == CityPage(base, ContentCities[i])
  {
    seq(6, i requires 0 <= i < 6 => CityPage(base, ContentCities[i]))
  }

  function ResourceUrls(base: string): seq<SitemapUrl> {
    [SitemapUrl(base + "/resources/roundup-verdicts/", None, Some("monthly"), Some(8)),
     SitemapUrl(base + "/resources/statute-of-limitations/", None, Some("monthly"), Some(8))]
  }

  /** A hub page for each of the five states and each pillar, state-major (see ProductAt). */
  function HubUrls(base: string, pillars: seq<PillarRow>): (r: seq<SitemapUrl>)
    ensures |r| == 5 * |pillars|
  {
    Product(HubStates, pillars, StateHub(base))
  }

  /** The sections in order: pillars, injuries, state hubs (state-major), cities, resources. */
  function ContentUrls(base: string, now: string, pillars: Option<seq<PillarRow>>, injuries: Option<seq<InjuryRow>>)
    : (r: seq<SitemapUrl>)
    ensures |r| >= 8 && r[|r| - 8..] == CityUrls(base) + ResourceUrls(base)
  {
    var head := (if pillars.Some? then PillarUrls(base, now, pillars.value) else [])
      + (if injuries.Some? then InjuryUrls(base, now, injuries.value) else [])
      + (if pillars.Some? then HubUrls(base, pillars.value) else []);
    var r := head + CityUrls(base) + ResourceUrls(base);
    assert r == head + (CityUrls(base) + ResourceUrls(base));
    assert |CityUrls(base) + ResourceUrls(base)| == 8;
    r
  }

  /** The `casePillars.forEach` loop of the first section. */
  method AppendPillarUrls(urls: seq<SitemapUrl>, base: string, now: string, rows: seq<PillarRow>)
    returns (out: seq<SitemapUrl>)
    ensures out == urls + PillarUrls(base, now, rows)
  {
    out := urls;
    var i := 0;
    while i < |rows|
      invariant 0 <= i <= |rows|
      invariant out == urls + PillarUrls(base, now, rows[..i])
    {
      var caseType := rows[i];
      out := out + [SitemapUrl(base + "/cases/" + Interpolated(caseType.pillarSlug) + "/",
                               Some(OrNow(caseType.updatedAt, now)), Some("daily"), Some(10))];
      i := i + 1;
    }
    assert rows[..i] == rows;
  }

  /** The `injuries.forEach` loop: injuries without a truthy pillar slug are skipped. */
  method AppendInjuryUrls(urls: seq<SitemapUrl>, base: string, now: string, rows: seq<InjuryRow>)
    returns (out: seq<SitemapUrl>)
    ensures out == urls + InjuryUrls(base, now, rows)
  {
    out := urls;
    var i := 0;
    while i < |rows|
      invariant 0 <= i <= |rows|
      invariant out == urls + InjuryUrls(base, now, rows[..i])
    {
      var injury := rows[i];
      var caseSlug := injury.casePillarSlug;
      if OptTruthy(caseSlug) {
        out := out + [SitemapUrl(base + "/cases/" + caseSlug.value + "/" + injury.slug + "/",
                                 Some(OrNow(injury.timestamp, now)), Some("weekly"), Some(8))];
      }
      assert rows[..i + 1][..i] == rows[..i];
      i := i + 1;
    }
    assert rows[..i] == rows;
  }

  /** The city `forEach` loop over the fixed list. */
  method AppendCityUrls(urls: seq<SitemapUrl>, base: string) returns (out: seq<SitemapUrl>)
    ensures out == urls + CityUrls(base)
  {
    out := urls;
    var cities := ContentCities;
    var i := 0;
    while i < |cities|
      invariant 0 <= i <= |cities|
      invariant out == urls + CityUrls(base)[..i]
    {
      var place := cities[i];
      out := out + [SitemapUrl(base + "/state/" + place.0 + "/" + place.1 + "/car-accident-lawyer/",
                               None, Some("monthly"), Some(6))];
      assert CityUrls(base)[..i + 1] == CityUrls(base)[..i] + [CityUrls(base)[i]];
      i := i + 1;
    }
  }

  /**
   * `GET` of the content sitemap, given what the two queries resolve to. A
   * thrown error in either query gives the 500 response; a rejected query
   * (data null) only drops its sections.
   */
  method GenerateContentSitemap(env: Option<string>, now: string, pillars: Fetch<PillarRow>, injuries: Fetch<InjuryRow>)
    returns (resp: Response)
    ensures pillars.Thrown? || injuries.Thrown? ==> resp == Response(500, "Error generating sitemap", map[])
    ensures pillars.Rows? && injuries.Rows? ==>
              resp == Response(200, GenerateSitemapXml(ContentUrls(BaseUrl(env), now, pillars.data, injuries.data)), XmlHeaders)
  {
    var baseUrl := BaseUrl(env);
    var urls: seq<SitemapUrl> := [];
    if pillars.Thrown? {
      return Response(500, "Error generating sitemap", map[]);
    }
    var casePillars := pillars.data;
    ghost var a := if casePillars.Some? then PillarUrls(baseUrl, now, casePillars.value) else [];
    if casePillars.Some? {
      urls := AppendPillarUrls(urls, baseUrl, now, casePillars.value);
    }
    assert urls == a;
    if injuries.Thrown? {
      return Response(500, "Error generating sitemap", map[]);
    }
    ghost var b := if injuries.data.Some? then InjuryUrls(baseUrl, now, injuries.data.value) else [];
    if injuries.data.Some? {
      urls := AppendInjuryUrls(urls, baseUrl, now, injuries.data.value);
    }
    assert urls == a + b;
    ghost var c := if casePillars.Some? then HubUrls(baseUrl, casePillars.value) else [];
    if casePillars.Some? {
      urls := AppendHubUrls(urls, baseUrl, casePillars.value);
    }
    assert urls == a + b + c;
    urls := AppendCityUrls(urls, baseUrl);
    urls := AppendResourceUrls(urls, baseUrl);
    assert urls == ContentUrls(baseUrl, now, casePillars, injuries.data);
    resp := Response(200, GenerateSitemapXml(urls), XmlHeaders);
  }

  /** The nested state-hub `forEach` loops. */
  method AppendHubUrls(urls: seq<SitemapUrl>, base: string, pillars: seq<PillarRow>) returns (out: seq<SitemapUrl>)
    ensures out == urls + HubUrls(base, pillars)
  {
    out := AppendProduct(urls, HubStates, pillars, StateHub(base));
  }

  /** The two resource pages pushed last. */
  method AppendResourceUrls(urls: seq<SitemapUrl>, base: string) returns (out: seq<SitemapUrl>)
    ensures out == urls + ResourceUrls(base)
  {
    out := urls + [SitemapUrl(base + "/resources/roundup-verdicts/", None, Some("monthly"), Some(8)),
                   SitemapUrl(base + "/resources/statute-of-limitations/", None, Some("monthly"), Some(8))];
  }

  /** An injury is listed exactly when its case type's pillar slug is truthy, under that slug. */
  lemma {:induction false} InjuryListedExactly(base: string, now: string, rows: seq<InjuryRow>, u: SitemapUrl)
    ensures u in InjuryUrls(base, now, rows)
            <==> exists i :: 0 <= i < |rows| && OptTruthy(rows[i].casePillarSlug)
                             && u == InjuryUrl(base, now, rows[i].casePillarSlug.value, rows[i])
  {
    if |rows| > 0 {
      var init := rows[..|rows| - 1];
      InjuryListedExactly(base, now, init, u);
      if exists i :: 0 <= i < |rows| && OptTruthy(rows[i].casePillarSlug)
                     && u == InjuryUrl(base, now, rows[i].casePillarSlug.value, rows[i]) {
        var i :| 0 <= i < |rows| && OptTruthy(rows[i].casePillarSlug)
                 && u == InjuryUrl(base, now, rows[i].casePillarSlug.value, rows[i]);
        if i < |init| {
          assert init[i] == rows[i];
        }
      }
      if exists i :: 0 <= i < |init| && OptTruthy(init[i].casePillarSlug)
                     && u == InjuryUrl(base, now, init[i].casePillarSlug.value, init[i]) {
        var i :| 0 <= i < |init| && OptTruthy(init[i].casePillarSlug)
                 && u == InjuryUrl(base, now, init[i].casePillarSlug.value, init[i]);
        assert rows[i] == init[i];
      }
    }
  }

  /**
   * The document always ends with the six city pages and the two resources;
   * before them, for p pillars, come the 5·p state hubs (state-major, by
   * ProductAt).
   */
  lemma ContentLayout(base: string, now: string, pillars: seq<PillarRow>, injuries: Option<seq<InjuryRow>>)
    ensures var urls := ContentUrls(base, now, Some(pillars), injuries);
      && |urls| >= 8 + 6 * |pillars|
      && urls[..|pillars|] == PillarUrls(base, now, pillars)
      && urls[|urls| - 8 - 5 * |pillars|..|urls| - 8] == HubUrls(base, pillars)
      && urls[|urls| - 8..|urls| - 2] == CityUrls(base)
      && urls[|urls| - 2..] == ResourceUrls(base)
  {
    var a := PillarUrls(base, now, pillars);
    var b := if injuries.Some? then InjuryUrls(base, now, injuries.value) else [];
    var c := HubUrls(base, pillars);
    var d, e := CityUrls(base), ResourceUrls(base);
    assert |d| == 6 && |e| == 2;
    assert ContentUrls(base, now, Some(pillars), injuries) == a + b + c + d + e;
    SectionSlices(a, b, c, d, e);
  }

  /** Each of five concatenated sections can be sliced back out, counting the last three from the end. */
  lemma SectionSlices(a: seq<SitemapUrl>, b: seq<SitemapUrl>, c: seq<SitemapUrl>, d: seq<SitemapUrl>, e: seq<SitemapUrl>)
    ensures var x := a + b + c + d + e;
      var n := |x|;
      && n == |a| + |b| + |c| + |d| + |e|
      && x[..|a|] == a
      && x[n - |e| - |d| - |c|..n - |e| - |d|] == c
      && x[n - |e| - |d|..n - |e|] == d
      && x[n - |e|..] == e
  {
    var x := a + b + c + d + e;
    assert x == (a + b + c + d) + e;
    assert x == (a + b + c) + d + e;
    assert x == (a + b) + c + (d + e);
  }

  /** Without case types the sitemap still lists the six cities and two resources, after any injuries. */
  lemma ContentWithoutPillars(base: string, now: string, injuries: Option<seq<InjuryRow>>)
    ensures ContentUrls(base, now, None, injuries)
            == (if injuries.Some? then InjuryUrls(base, now, injuries.value) else []) + CityUrls(base) + ResourceUrls(base)
  {
  }

  // ---------------------------------------------------------------------
  // The injury query as written
  // ---------------------------------------------------------------------

  /** The columns of `injuries`; it has `created_at` but no `updated_at`. */
  const InjuryColumns: set<string> :=
    {"case_type_id", "created_at", "dx_criteria", "id", "name", "records_needed", "slug", "synonyms"}

  /** A select naming a column the table lacks is rejected; `data` is then null. */
  function SelectInjuries(columns: set<string>, table: seq<InjuryRow>): (r: Fetch<InjuryRow>)
    ensures r.Rows?
    ensures r.data.Some? <==> columns <= InjuryColumns
  {
    if columns <= InjuryColumns then Rows(Some(table)) else Rows(None)
  }

  /** The route's select: `slug, case_types!inner(pillar_slug), updated_at`. */
  function InjuryQueryAsWritten(table: seq<InjuryRow>): (r: Fetch<InjuryRow>)
    ensures r == Rows(None)
  {
    assert "updated_at" !in InjuryColumns;
    SelectInjuries({"slug", "updated_at"}, table)
  }

  /** The same select with the table's timestamp column, `created_at`. */
  function InjuryQueryCorrected(table: seq<InjuryRow>): (r: Fetch<InjuryRow>)
    ensures r == Rows(Some(table))
  {
    SelectInjuries({"slug", "created_at"}, table)
  }

  /**
   * As written, the injury query is always rejected, so no injury URL is ever
   * listed: the content is that of a database without injuries.
   */
  lemma InjuriesNeverListedAsWritten(base: string, now: string, pillars: Option<seq<PillarRow>>, table: seq<InjuryRow>)
    ensures InjuryQueryAsWritten(table) == Rows(None)
    ensures ContentUrls(base, now, pillars, InjuryQueryAsWritten(table).data) == ContentUrls(base, now, pillars, None)
  {
    assert "updated_at" !in InjuryColumns;
  }

  /** With the corrected select, every injury of a pillar with a slug gets its URL. */
  lemma InjuriesListedWhenCorrected(base: string, now: string, pillars: Option<seq<PillarRow>>, table: seq<InjuryRow>, i: nat)
    requires i < |table| && OptTruthy(table[i].casePillarSlug)
    ensures InjuryQueryCorrected(table) == Rows(Some(table))
    ensures InjuryUrl(base, now, table[i].casePillarSlug.value, table[i])
            in ContentUrls(base, now, pillars, InjuryQueryCorrected(table).data)
  {
    var u := InjuryUrl(base, now, table[i].casePillarSlug.value, table[i]);
    InjuryListedExactly(base, now, table, u);
    var a := if pillars.Some? then PillarUrls(base, now, pillars.value) else [];
    var b := InjuryUrls(base, now, table);
    var rest := (if pillars.Some? then HubUrls(base, pillars.value) else [])
                + CityUrls(base) + ResourceUrls(base);
    assert ContentUrls(base, now, pillars, Some(table)) == a + b + rest;
  }
}
