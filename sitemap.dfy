/**
 * The sitemap (app/sitemap.ts): twelve fixed pages, the Korean and English test page of every
 * theme, and the Korean and English result pages of every theme for four popular types. Every
 * entry carries the same modification time.
 */
module Sitemap {
  import opened Strings
  import opened MbtiTypes
  import opened Tables
  import ResultCommon

  /** One sitemap entry; the time is whatever `new Date()` gave for this build. */
  datatype Entry<Time> = Entry(url: string, lastModified: Time)

  /** `POPULAR_TYPES`. */
  const PopularTypes: seq<string> := ["INFJ", "INTJ", "ENFP", "ENTJ"]

  /** The paths of the twelve fixed entries, in order. */
  const BasePaths: seq<string> := [
    "/", "/select", "/about", "/terms", "/privacy", "/contact",
    "/en", "/en/select", "/en/about", "/en/terms", "/en/privacy", "/en/contact"
  ]

  /** The theme ids in `Object.values(THEMES)` order. */
  function ThemeIds(themes: Table<ThemeMeta>): (ids: seq<string>)
    ensures |ids| == |themes| && forall i :: 0 <= i < |themes| ==> ids[i] == themes[i].1.id
  {
    seq(|themes|, i requires 0 <= i < |themes| => themes[i].1.id)
  }

  /** `base`. */
  function BaseEntries<Time>(origin: string, now: Time): (es: seq<Entry<Time>>)
    ensures |es| == |BasePaths| && forall i :: 0 <= i < |es| ==> es[i] == Entry(origin + BasePaths[i], now)
  {
    seq(|BasePaths|, i requires 0 <= i < |BasePaths| => Entry(origin + BasePaths[i], now))
  }

  /** `themeEntries` (prefix "") and `themeEntriesEn` (prefix "/en"): one test page per theme. */
  function TestEntries<Time>(origin: string, localePrefix: string, enc: string -> string, ids: seq<string>, now: Time): (es: seq<Entry<Time>>)
    ensures |es| == |ids|
    ensures forall i :: 0 <= i < |ids| ==> es[i] == Entry(origin + localePrefix + "/test/" + enc(ids[i]), now)
  {
    seq(|ids|, i requires 0 <= i < |ids| => Entry(origin + localePrefix + "/test/" + enc(ids[i]), now))
  }

  /**
   * The (theme id, type) pairs `flatMap` visits: theme by theme, and within a theme the popular
   * types in order, so theme i with popular type j is pair 4 * i + j.
   */
  function ResultPairs(ids: seq<string>): (ps: seq<(string, string)>)
    ensures |ps| == 4 * |ids|
    ensures forall i, j :: 0 <= i < |ids| && 0 <= j < 4 ==> ps[4 * i + j] == (ids[i], PopularTypes[j])
    ensures forall p :: p in ps ==> p.0 in ids && p.1 in PopularTypes
  {
    if ids == [] then []
    else
      var first := seq(4, j requires 0 <= j < 4 => (ids[0], PopularTypes[j]));
      var rest := ResultPairs(ids[1..]);
      assert forall i, j | 1 <= i < |ids| && 0 <= j < 4 :: (first + rest)[4 * i + j] == (ids[i], PopularTypes[j]) by {
        forall i, j | 1 <= i < |ids| && 0 <= j < 4 ensures (first + rest)[4 * i + j] == (ids[i], PopularTypes[j]) {
          assert (first + rest)[4 * i + j] == rest[4 * (i - 1) + j];
          assert ids[i] == ids[1..][i - 1];
        }
      }
      first + rest
  }

  /** `resultEntries` (prefix "") and `resultEntriesEn` (prefix "/en"): the share URL of each pair. */
  function ResultEntries<Time>(origin: string, localePrefix: string, enc: string -> string, ids: seq<string>, now: Time): (es: seq<Entry<Time>>)
    ensures var ps := ResultPairs(ids);
      |es| == |ps| && forall k :: 0 <= k < |ps| ==>
        es[k] == Entry(ResultCommon.ResultUrl(origin, localePrefix, enc, ps[k].0, ps[k].1), now)
  {
    var ps := ResultPairs(ids);
    seq(|ps|, k requires 0 <= k < |ps| => Entry(ResultCommon.ResultUrl(origin, localePrefix, enc, ps[k].0, ps[k].1), now))
  }

  /** `sitemap()`. */
  function Sitemap<Time>(origin: string, enc: string -> string, themes: Table<ThemeMeta>, now: Time): (es: seq<Entry<Time>>)
    ensures |es| == 12 + 10 * |themes|
  {
    var ids := ThemeIds(themes);
    BaseEntries(origin, now)
      + TestEntries(origin, "", enc, ids, now)
      + TestEntries(origin, "/en", enc, ids, now)
      + ResultEntries(origin, "", enc, ids, now)
      + ResultEntries(origin, "/en", enc, ids, now)
  }

  /**
   * The layout of the sitemap for n themes: the twelve fixed pages, then the n Korean and the n
   * English test pages, then the 4n Korean and the 4n English result pages.
   */
  lemma SitemapLayout<Time>(origin: string, enc: string -> string, themes: Table<ThemeMeta>, now: Time)
    ensures var es, n, ids := Sitemap(origin, enc, themes, now), |themes|, ThemeIds(themes);
      && es[..12] == BaseEntries(origin, now)
      && es[12..12 + n] == TestEntries(origin, "", enc, ids, now)
      && es[12 + n..12 + 2 * n] == TestEntries(origin, "/en", enc, ids, now)
      && es[12 + 2 * n..12 + 6 * n] == ResultEntries(origin, "", enc, ids, now)
      && es[12 + 6 * n..] == ResultEntries(origin, "/en", enc, ids, now)
  {
    var ids := ThemeIds(themes);
    var a := BaseEntries(origin, now);
    var b := TestEntries(origin, "", enc, ids, now);
    var c := TestEntries(origin, "/en", enc, ids, now);
    var d := ResultEntries(origin, "", enc, ids, now);
    var e := ResultEntries(origin, "/en", enc, ids, now);
    var es := a + b + c + d + e;
    assert es == Sitemap(origin, enc, themes, now);
    assert es[..12] == a;
    assert es[12..12 + |b|] == b;
    assert es[12 + |b|..12 + |b| + |c|] == c;
    assert es[12 + |b| + |c|..12 + |b| + |c| + |d|] == d;
    assert es[12 + |b| + |c| + |d|..] == e;
  }

  /** Theme i's Korean and English test pages sit at 12 + i and 12 + n + i. */
  lemma TestEntriesAt<Time>(origin: string, enc: string -> string, themes: Table<ThemeMeta>, now: Time, i: nat)
    requires i < |themes|
    ensures var es, n := Sitemap(origin, enc, themes, now), |themes|;
      && es[12 + i].url == origin + "/test/" + enc(themes[i].1.id)
      && es[12 + n + i].url == origin + "/en/test/" + enc(themes[i].1.id)
  {
    var ids := ThemeIds(themes);
    var a := BaseEntries(origin, now);
    var b := TestEntries(origin, "", enc, ids, now);
    var c := TestEntries(origin, "/en", enc, ids, now);
    assert b[i].url == origin + "/test/" + enc(ids[i]) by {
      assert origin + "" == origin;
    }
    assert (a + b + c)[12 + i] == b[i] && (a + b + c)[12 + |b| + i] == c[i];
  }

  /**
   * Theme i with popular type j is listed at 12 + 2n + 4i + j with the Korean share URL the
   * result pages build, and at 12 + 6n + 4i + j with the English one.
   */
  lemma ResultEntriesAt<Time>(origin: string, enc: string -> string, themes: Table<ThemeMeta>, now: Time, i: nat, j: nat)
    requires i < |themes| && j < 4
    ensures var es, n := Sitemap(origin, enc, themes, now), |themes|;
      && es[12 + 2 * n + 4 * i + j].url == ResultCommon.ResultUrl(origin, "", enc, themes[i].1.id, PopularTypes[j])
      && es[12 + 6 * n + 4 * i + j].url == ResultCommon.ResultUrl(origin, "/en", enc, themes[i].1.id, PopularTypes[j])
  {
    var es, n := Sitemap(origin, enc, themes, now), |themes|;
    SitemapLayout(origin, enc, themes, now);
    assert es[12 + 2 * n + 4 * i + j] == es[12 + 2 * n..12 + 6 * n][4 * i + j];
    assert es[12 + 6 * n + 4 * i + j] == es[12 + 6 * n..][4 * i + j];
  }

  /** Every entry carries the build time. */
  lemma SameModificationTime<Time>(origin: string, enc: string -> string, themes: Table<ThemeMeta>, now: Time)
    ensures forall e :: e in Sitemap(origin, enc, themes, now) ==> e.lastModified == now
  {
  }

  /** The popular types are canonical quiz codes. */
  lemma PopularTypesAreCodes()
    ensures forall t :: t in PopularTypes ==> |t| == 4 && IsUpper(t)
  {
  }

  /** The path after the origin does not start with "/ja". */
  predicate NotJapanese(path: string) {
    !StartsWith(path, "/ja")
  }

  /** An entry listed under the origin whose path is not Japanese. */
  predicate ListedUnder<Time>(e: Entry<Time>, origin: string) {
    StartsWith(e.url, origin) && NotJapanese(e.url[|origin|..])
  }

  /** A URL made of the origin and a path that is not Japanese. */
  lemma OriginThen<Time>(origin: string, path: string, now: Time)
    requires NotJapanese(path)
    ensures ListedUnder(Entry(origin + path, now), origin)
  {
    assert (origin + path)[..|origin|] == origin;
    assert (origin + path)[|origin|..] == path;
  }

  /** A path whose second character is not 'j' is not Japanese. */
  lemma SecondCharNotJ(path: string)
    requires |path| >= 2 && path[1] != 'j'
    ensures NotJapanese(path)
  {
    if |path| >= 3 {
      assert path[..3][1] == path[1];
    }
  }

  lemma BaseListed<Time>(origin: string, now: Time)
    ensures forall e :: e in BaseEntries(origin, now) ==> ListedUnder(e, origin)
  {
    var es := BaseEntries(origin, now);
    forall i | 0 <= i < |es| ensures ListedUnder(es[i], origin) {
      var path := BasePaths[i];
      if i > 0 {
        SecondCharNotJ(path);
      }
      OriginThen(origin, path, now);
    }
  }

  lemma TestListed<Time>(origin: string, localePrefix: string, enc: string -> string, ids: seq<string>, now: Time)
    requires localePrefix == "" || localePrefix == "/en"
    ensures forall e :: e in TestEntries(origin, localePrefix, enc, ids, now) ==> ListedUnder(e, origin)
  {
    var es := TestEntries(origin, localePrefix, enc, ids, now);
    forall i | 0 <= i < |es| ensures ListedUnder(es[i], origin) {
      var path := localePrefix + "/test/" + enc(ids[i]);
      assert origin + localePrefix + "/test/" + enc(ids[i]) == origin + path;
      assert path[1] == (if localePrefix == "" then 't' else 'e');
      SecondCharNotJ(path);
      OriginThen(origin, path, now);
    }
  }

  /** A result URL under the origin, with or without "/en", has a path that is not Japanese. */
  lemma ResultUrlListed<Time>(origin: string, localePrefix: string, theme: string, typeCode: string, now: Time)
    requires localePrefix == "" || localePrefix == "/en"
    ensures ListedUnder(Entry(origin + localePrefix + "/result?theme=" + theme + "&type=" + typeCode, now), origin)
  {
    var query := theme + "&type=" + typeCode;
    var path := localePrefix + "/result?theme=" + query;
    assert origin + localePrefix + "/result?theme=" + theme + "&type=" + typeCode == origin + path;
    assert path[1] == (if localePrefix == "" then 'r' else 'e');
    SecondCharNotJ(path);
    OriginThen(origin, path, now);
  }

  lemma ResultListed<Time>(origin: string, localePrefix: string, enc: string -> string, ids: seq<string>, now: Time)
    requires localePrefix == "" || localePrefix == "/en"
    ensures forall e :: e in ResultEntries(origin, localePrefix, enc, ids, now) ==> ListedUnder(e, origin)
  {
    var es := ResultEntries(origin, localePrefix, enc, ids, now);
    var ps := ResultPairs(ids);
    forall k | 0 <= k < |es| ensures ListedUnder(es[k], origin) {
      ResultUrlListed(origin, localePrefix, enc(ps[k].0), enc(ps[k].1), now);
    }
  }

  /** Every entry is the origin followed by a path that does not start with "/ja". */
  lemma NoJapanesePages<Time>(origin: string, enc: string -> string, themes: Table<ThemeMeta>, now: Time)
    ensures forall e :: e in Sitemap(origin, enc, themes, now) ==> ListedUnder(e, origin)
  {
    var ids := ThemeIds(themes);
    BaseListed(origin, now);
    TestListed(origin, "", enc, ids, now);
    TestListed(origin, "/en", enc, ids, now);
    ResultListed(origin, "", enc, ids, now);
    ResultListed(origin, "/en", enc, ids, now);
  }
}
