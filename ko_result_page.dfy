/**
 * The Korean result page (app/result/page.tsx). Unlike the English and Japanese pages it never
 * redirects: an unknown theme falls back to "onepiece", and the type is only normalised, not
 * checked against the theme's characters, so an unknown type is shown under its own name with
 * ISTJ's character. The theme lookup has no `hasOwnProperty` guard; a theme value naming an
 * `Object.prototype` member makes the source throw, which this model does not capture.
 */
module KoResultPage {
  import opened Wrappers
  import opened MbtiTypes
  import opened Tables
  import opened ResultCommon
  import Seo
  import Site
  import Scoring
  import Sitemap

  /** What the page shows: the theme, the type, the character, the URLs and the related themes. */
  datatype View = View(
    theme: ThemeMeta, typeCode: string, character: CharacterResult,
    shareUrl: string, imageUrl: string, retestPath: string, related: seq<ThemeMeta>)

  /** `searchParams.theme || "onepiece"`: a missing or empty theme reads as "onepiece". */
  function ThemeIdOf(raw: Option<string>): (id: string)
    ensures raw.Some? && raw.value != "" ==> id == raw.value
    ensures raw.None? || raw.value == "" ==> id == DefaultTheme
    ensures id != ""
  {
    if raw.Some? && raw.value != "" then raw.value else DefaultTheme
  }

  /** `ResultPage`: the theme and content looked up with the "onepiece" fallback, and the normalised type. */
  function Page(origin: string, enc: string -> string, ko: Catalog, q: Query): (v: View)
    requires HasDefaultTheme(ko) && AllHaveIstj(ko)
    ensures v.typeCode == NormalizeType(q.typeCode)
    ensures v.shareUrl == ResultUrl(origin, "", enc, v.theme.id, v.typeCode)
  {
    var themeId := ThemeIdOf(q.theme);
    var theme := GetOrDefaultTheme(ko.themes, themeId);
    var content := ContentOrDefault(ko, themeId);
    var typeCode := NormalizeType(q.typeCode);
    View(
      theme, typeCode, CharacterOrIstj(content.results, typeCode),
      ResultUrl(origin, "", enc, theme.id, typeCode), OgImageUrl(origin, enc, theme.id, typeCode, ""),
      "/test/" + theme.id, RelatedThemes(Values(ko.themes), theme.id))
  }

  /**
   * The first summary line, `${type}의 핵심 키워드: ${MBTI_SHORT_DESCS[type]}`: a type without a
   * short description is followed by the text "undefined".
   */
  function SummaryKeyword(shortDescs: map<string, string>, typeCode: string): (line: string)
    ensures typeCode in shortDescs ==> line == typeCode + "의 핵심 키워드: " + shortDescs[typeCode]
    ensures typeCode !in shortDescs ==> line == typeCode + "의 핵심 키워드: undefined"
  {
    typeCode + "의 핵심 키워드: " + if typeCode in shortDescs then shortDescs[typeCode] else "undefined"
  }

  /** `generateMetadata`: the canonical URL is the share URL, with no language alternates. */
  function Metadata(origin: string, enc: string -> string, ko: Catalog, q: Query): (m: PageMetadata)
    requires HasDefaultTheme(ko) && AllHaveIstj(ko)
    ensures m.alternates.languages == map[]
  {
    var themeId := ThemeIdOf(q.theme);
    var theme := GetOrDefaultTheme(ko.themes, themeId);
    var content := ContentOrDefault(ko, themeId);
    var typeCode := NormalizeType(q.typeCode);
    var character := CharacterOrIstj(content.results, typeCode);
    var canonical := ResultUrl(origin, "", enc, theme.id, typeCode);
    PageMetadata(
      typeCode + " 결과 | " + Site.SiteName, Seo.Alternates(canonical, map[]),
      canonical, typeCode + " · " + character.name, OgImageUrl(origin, enc, theme.id, typeCode, ""))
  }

  /** With consistent data the theme shown is the queried one when it is a key, else "onepiece". */
  lemma ThemeFallback(origin: string, enc: string -> string, ko: Catalog, q: Query)
    requires Consistent(ko) && HasDefaultTheme(ko)
    ensures Page(origin, enc, ko, q).theme.id ==
      if q.theme.Some? && HasKey(ko.themes, q.theme.value) then q.theme.value else DefaultTheme
  {
    GetOrDefaultThemeId(ko.themes, ThemeIdOf(q.theme));
    if q.theme.Some? && HasKey(ko.themes, q.theme.value) {
      assert q.theme.value != "";
    }
  }

  /**
   * The type is never checked: whatever it normalises to is shown, and a type the theme has no
   * character for shows ISTJ's character under that type's name.
   */
  lemma UnknownTypeIsKept(origin: string, enc: string -> string, ko: Catalog, q: Query)
    requires Consistent(ko) && HasDefaultTheme(ko)
    requires NormalizeType(q.typeCode) !in ContentOrDefault(ko, ThemeIdOf(q.theme)).results
    ensures var v := Page(origin, enc, ko, q);
      && v.typeCode == NormalizeType(q.typeCode)
      && v.character == ContentOrDefault(ko, ThemeIdOf(q.theme)).results[DefaultType]
  {
  }

  /**
   * The shown theme id looks up the same theme and content as the query did, when the theme and
   * content tables have the same keys.
   */
  lemma SettledLookups(ko: Catalog, q: Query)
    requires Consistent(ko) && HasDefaultTheme(ko) && SameKeys(ko)
    ensures var themeId := ThemeIdOf(q.theme);
      var id := GetOrDefaultTheme(ko.themes, themeId).id;
      && ThemeIdOf(Some(id)) == id
      && GetOrDefaultTheme(ko.themes, id) == GetOrDefaultTheme(ko.themes, themeId)
      && ContentOrDefault(ko, id) == ContentOrDefault(ko, themeId)
  {
    var themeId := ThemeIdOf(q.theme);
    GetOrDefaultThemeId(ko.themes, themeId);
    if !HasKey(ko.themes, themeId) {
      assert !HasKey(ko.contents, themeId);
      assert GetOrDefaultTheme(ko.themes, themeId) == GetOrDefaultTheme(ko.themes, DefaultTheme);
      assert ContentOrDefault(ko, themeId) == ContentOrDefault(ko, DefaultTheme);
    }
  }

  /**
   * Opening the share URL's query shows the same page exactly when the shown type is canonical;
   * a type such as "A.PNG" normalises again on the way back.
   */
  lemma ShareRoundTripIff(origin: string, enc: string -> string, ko: Catalog, q: Query)
    requires Consistent(ko) && HasDefaultTheme(ko) && SameKeys(ko)
    ensures var v := Page(origin, enc, ko, q);
      Page(origin, enc, ko, Query(Some(v.theme.id), Some(v.typeCode))) == v <==> IsCanonicalType(v.typeCode)
  {
    SettledLookups(ko, q);
  }

  /** The query type "a.png.png" is shown as "A.PNG", whose share URL shows "A". */
  lemma ShareUrlDrifts(origin: string, enc: string -> string, ko: Catalog, theme: Option<string>)
    requires HasDefaultTheme(ko) && AllHaveIstj(ko)
    ensures var v := Page(origin, enc, ko, Query(theme, Some("a.png.png")));
      && v.typeCode == "A.PNG"
      && Page(origin, enc, ko, Query(Some(v.theme.id), Some(v.typeCode))).typeCode == "A"
  {
    NormalizeTypeTwiceDiffers();
  }

  /**
   * The metadata describes the page: the canonical and Open Graph URLs are its share URL, the
   * Open Graph image is its image, and the title names its type.
   */
  lemma MetadataMatchesPage(origin: string, enc: string -> string, ko: Catalog, q: Query)
    requires HasDefaultTheme(ko) && AllHaveIstj(ko)
    ensures var m, v := Metadata(origin, enc, ko, q), Page(origin, enc, ko, q);
      && m.alternates.canonical == m.ogUrl == v.shareUrl
      && m.ogImage == v.imageUrl
      && m.title == v.typeCode + " 결과 | " + Site.SiteName
      && m.ogTitle == v.typeCode + " · " + v.character.name
  {
  }

  /**
   * A theme key and a quiz code are shown as they are, and the page survives the round trip
   * through its share URL.
   */
  lemma CodeQueryIsSettled(origin: string, enc: string -> string, ko: Catalog, id: string, code: string)
    requires Consistent(ko) && HasDefaultTheme(ko) && SameKeys(ko)
    requires HasKey(ko.themes, id) && code in Scoring.AllCodes
    ensures var v := Page(origin, enc, ko, Query(Some(id), Some(code)));
      && v.theme.id == id && v.typeCode == code
      && v.shareUrl == ResultUrl(origin, "", enc, id, code)
      && Page(origin, enc, ko, Query(Some(v.theme.id), Some(v.typeCode))) == v
  {
    var q := Query(Some(id), Some(code));
    ThemeFallback(origin, enc, ko, q);
    CodesAreCanonical(code);
    ShareRoundTripIff(origin, enc, ko, q);
  }

  /**
   * Every Korean result URL the sitemap lists is the share URL of the page it opens, and that
   * page survives the round trip through its share URL.
   */
  lemma SitemapResultsAreShareUrls<Time>(origin: string, enc: string -> string, ko: Catalog, now: Time, i: nat, j: nat)
    requires Consistent(ko) && HasDefaultTheme(ko) && SameKeys(ko)
    requires i < |ko.themes| && j < 4
    ensures var q := Query(Some(ko.themes[i].1.id), Some(Sitemap.PopularTypes[j]));
      var v := Page(origin, enc, ko, q);
      && v.shareUrl == Sitemap.Sitemap(origin, enc, ko.themes, now)[12 + 2 * |ko.themes| + 4 * i + j].url
      && Page(origin, enc, ko, Query(Some(v.theme.id), Some(v.typeCode))) == v
  {
    var id, code := ko.themes[i].1.id, Sitemap.PopularTypes[j];
    assert HasKey(ko.themes, id) by {
      assert ko.themes[i].0 == id;
    }
    assert code in Scoring.AllCodes by {
      Sitemap.PopularTypesAreCodes();
    }
    CodeQueryIsSettled(origin, enc, ko, id, code);
    var v := Page(origin, enc, ko, Query(Some(id), Some(code)));
    assert Page(origin, enc, ko, Query(Some(v.theme.id), Some(v.typeCode))) == v;
    Sitemap.ResultEntriesAt(origin, enc, ko.themes, now, i, j);
    assert v.shareUrl == Sitemap.Sitemap(origin, enc, ko.themes, now)[12 + 2 * |ko.themes| + 4 * i + j].url;
  }
}
