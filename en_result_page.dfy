/**
 * The English result page (app/en/result/page.tsx). It resolves the theme against the English
 * and the Korean theme tables and the type against the theme's character table, and redirects
 * permanently to its share URL whenever the query differs from what it resolved.
 */
module EnResultPage {
  import opened Wrappers
  import opened MbtiTypes
  import opened Tables
  import opened ResultCommon
  import Seo
  import Site
  import Scoring
  import Sitemap

  /** `THEME_LABELS_EN`: the English label of each theme. */
  const ThemeLabelsEn: map<string, string> := map[
    "onepiece" := "One Piece",
    "naruto" := "Naruto",
    "fma" := "Fullmetal Alchemist",
    "aot" := "Attack on Titan",
    "shinchan" := "Crayon Shin-chan",
    "jujutsu" := "Jujutsu Kaisen"
  ]

  /** `MBTI_SHORT_DESCS_EN`: the short keyword description of each type code. */
  const ShortDescsEn: map<string, string> := map[
    "ISTJ" := "reliability, duty, and consistency",
    "ISFJ" := "care, support, and steady devotion",
    "INFJ" := "insight, meaning, and inner alignment",
    "INTJ" := "strategy, systems, and long-term vision",
    "ISTP" := "practical problem solving under pressure",
    "ISFP" := "sensitivity, freedom, and balance",
    "INFP" := "values, empathy, and authenticity",
    "INTP" := "analysis, curiosity, and logic",
    "ESTP" := "action, adaptability, and bold moves",
    "ESFP" := "energy, warmth, and social flow",
    "ENFP" := "ideas, passion, and possibility",
    "ENTP" := "experimentation, debate, and innovation",
    "ESTJ" := "structure, leadership, and execution",
    "ESFJ" := "harmony, care, and community",
    "ENFJ" := "motivation, guidance, and growth",
    "ENTJ" := "decisive leadership and achievement"
  ]

  /** `MBTI_LONG_DESCS_EN`: one sentence pattern filled with each short description. */
  const LongDescsEn: map<string, string> := map t | t in ShortDescsEn ::
    t + " types are often associated with " + ShortDescsEn[t] + ". They tend to make choices through a consistent internal framework and shine when their strengths are clearly defined. Use this as a reflection guide rather than a rigid label."

  /** The short descriptions are keyed by exactly the sixteen quiz codes. */
  lemma ShortDescKeys()
    ensures ShortDescsEn.Keys == Scoring.AllCodes
  {
  }

  /** Every short description is non-empty. */
  lemma ShortDescsNonEmpty()
    ensures forall t :: t in ShortDescsEn ==> ShortDescsEn[t] != ""
  {
  }

  /** Each long description is the sentence pattern around the short one, so it is longer. */
  lemma LongDescsExtendShort()
    ensures LongDescsEn.Keys == ShortDescsEn.Keys
    ensures forall t :: t in LongDescsEn ==> |LongDescsEn[t]| > |ShortDescsEn[t]|
  {
  }

  /**
   * What the page shows once it does not redirect: the theme, the type, the character, the share
   * and image URLs and the related themes. Its texts are functions of the theme and the type
   * (`ThemeLabel`, `ShortDesc`, `LongDesc`).
   */
  datatype View = View(
    theme: ThemeMeta, typeCode: string, character: CharacterResult,
    shareUrl: string, imageUrl: string, related: seq<ThemeMeta>)

  /** `THEME_LABELS_EN[theme.id] ?? theme.label`. */
  function ThemeLabel(theme: ThemeMeta): (l: string)
    ensures theme.id in ThemeLabelsEn ==> l == ThemeLabelsEn[theme.id]
    ensures theme.id !in ThemeLabelsEn ==> l == theme.labelText
  {
    LabelOr(ThemeLabelsEn, theme.id, theme.labelText)
  }

  /** `MBTI_SHORT_DESCS_EN[type] || MBTI_SHORT_DESCS_EN.ISTJ`. */
  function ShortDesc(typeCode: string): string {
    DescOrIstj(ShortDescsEn, typeCode)
  }

  /** `MBTI_LONG_DESCS_EN[type] || MBTI_LONG_DESCS_EN.ISTJ`. */
  function LongDesc(typeCode: string): string {
    assert DefaultType in LongDescsEn;
    DescOrIstj(LongDescsEn, typeCode)
  }

  /** For a quiz code both descriptions are the code's own entries; any other type shows ISTJ's. */
  lemma DescriptionsForCodes(typeCode: string)
    ensures typeCode in Scoring.AllCodes ==>
      ShortDesc(typeCode) == ShortDescsEn[typeCode] && LongDesc(typeCode) == LongDescsEn[typeCode]
    ensures typeCode !in Scoring.AllCodes ==>
      ShortDesc(typeCode) == ShortDescsEn[DefaultType] && LongDesc(typeCode) == LongDescsEn[DefaultType]
  {
    ShortDescKeys();
    ShortDescsNonEmpty();
    LongDescsExtendShort();
  }

  /** What the page and its metadata both look up for a query. */
  datatype Resolution = Resolution(theme: ThemeMeta, content: ThemeContent, typeCode: string)

  /** The theme ids `resolveThemeId` accepts: the keys of `THEMES_EN` and of `THEMES`. */
  function KnownThemeIds(ko: Catalog, en: Catalog): set<string> {
    Keys(en.themes) + Keys(ko.themes)
  }

  /** `CONTENTS_EN[themeId] || CONTENTS[themeId] || CONTENTS.onepiece`. */
  function ContentFor(ko: Catalog, en: Catalog, themeId: string): (c: ThemeContent)
    requires HasDefaultTheme(ko)
    ensures AllHaveIstj(ko) && AllHaveIstj(en) ==> DefaultType in c.results
    ensures CanonicalResultKeys(ko.contents) && CanonicalResultKeys(en.contents) ==>
      forall k :: k in c.results ==> IsCanonicalType(k)
    ensures CoversAllCodes(ko) && CoversAllCodes(en) ==> Scoring.AllCodes <= c.results.Keys
  {
    var c := GetEitherOrDefault(en.contents, ko.contents, themeId);
    GetEitherIsValue(en.contents, ko.contents, themeId);
    if exists i :: 0 <= i < |en.contents| && en.contents[i].1 == c then
      CatalogContentFacts(en, c);
      c
    else
      CatalogContentFacts(ko, c);
      c
  }

  /**
   * The theme (`THEMES_EN[themeId] || THEMES[themeId] || THEMES.onepiece`), the content and the
   * type resolved against the content's characters.
   */
  function Resolve(ko: Catalog, en: Catalog, q: Query): (r: Resolution)
    requires HasDefaultTheme(ko) && AllHaveIstj(ko) && AllHaveIstj(en)
    ensures DefaultType in r.content.results && r.typeCode in r.content.results
  {
    var themeId := ResolveThemeId(q.theme, KnownThemeIds(ko, en));
    var content := ContentFor(ko, en, themeId);
    Resolution(GetEitherOrDefault(en.themes, ko.themes, themeId), content, ResolveType(q.typeCode, content.results))
  }

  /** The redirect test: the raw theme is not the theme's id, or the normalised raw type is not the type. */
  predicate Redirects(q: Query, res: Resolution) {
    q.theme != Some(res.theme.id) || NormalizeType(q.typeCode) != res.typeCode
  }

  /** The share URL of a resolution: the result URL under "/en", never another locale's. */
  function ShareUrl(origin: string, enc: string -> string, res: Resolution): (u: string)
    ensures u != ResultUrl(origin, "", enc, res.theme.id, res.typeCode)
    ensures u != ResultUrl(origin, "/ja", enc, res.theme.id, res.typeCode)
  {
    LocaleUrlsDiffer(origin, enc, res.theme.id, res.typeCode);
    ResultUrl(origin, "/en", enc, res.theme.id, res.typeCode)
  }

  /** The view of a resolution: the character falls back to ISTJ, related themes come from `THEMES`. */
  function ViewOf(origin: string, enc: string -> string, ko: Catalog, res: Resolution): (v: View)
    requires DefaultType in res.content.results
    ensures v.theme == res.theme && v.typeCode == res.typeCode && v.shareUrl == ShareUrl(origin, enc, res)
  {
    var theme, typeCode := res.theme, res.typeCode;
    View(
      theme, typeCode, CharacterOrIstj(res.content.results, typeCode),
      ShareUrl(origin, enc, res), OgImageUrl(origin, enc, theme.id, typeCode, ".png"),
      RelatedThemes(Values(ko.themes), theme.id))
  }

  /** `ResultPageEn`: a permanent redirect to the share URL, or the view. */
  function Page(origin: string, enc: string -> string, ko: Catalog, en: Catalog, q: Query): (r: Response<View>)
    requires HasDefaultTheme(ko) && AllHaveIstj(ko) && AllHaveIstj(en)
    ensures r.Redirect? ==> r.location == ShareUrl(origin, enc, Resolve(ko, en, q))
    ensures r.Render? ==> q.theme == Some(r.view.theme.id) && NormalizeType(q.typeCode) == r.view.typeCode
  {
    var res := Resolve(ko, en, q);
    if Redirects(q, res) then Redirect(ShareUrl(origin, enc, res)) else Render(ViewOf(origin, enc, ko, res))
  }

  /** `generateMetadata`: canonical and Open Graph URL are the English URL, "ko-KR" the Korean one. */
  function Metadata(origin: string, enc: string -> string, ko: Catalog, en: Catalog, q: Query): (m: PageMetadata)
    requires HasDefaultTheme(ko) && AllHaveIstj(ko) && AllHaveIstj(en)
    ensures m.alternates.languages.Keys == Seo.HreflangKeys
  {
    var res := Resolve(ko, en, q);
    var theme, typeCode := res.theme, res.typeCode;
    var character := CharacterOrIstj(res.content.results, typeCode);
    var canonicalKo := ResultUrl(origin, "", enc, theme.id, typeCode);
    var canonicalEn := ResultUrl(origin, "/en", enc, theme.id, typeCode);
    PageMetadata(
      typeCode + " Result | " + Site.SiteName,
      Seo.LocalizedAlternatesFromUrls(canonicalKo, canonicalEn, "en"),
      canonicalEn, typeCode + " · " + character.name,
      OgImageUrl(origin, enc, theme.id, typeCode, ".png"))
  }

  /** With consistent data the resolved theme carries the resolved id. */
  lemma ThemeIdIsResolved(ko: Catalog, en: Catalog, q: Query)
    requires Consistent(ko) && Consistent(en) && HasDefaultTheme(ko)
    ensures Resolve(ko, en, q).theme.id == ResolveThemeId(q.theme, KnownThemeIds(ko, en))
  {
    GetEitherThemeId(en.themes, ko.themes, ResolveThemeId(q.theme, KnownThemeIds(ko, en)));
  }

  /**
   * The page renders exactly when the query names a theme of either table and a normalised type
   * that the theme's character table has; every other query redirects.
   */
  lemma RenderIff(origin: string, enc: string -> string, ko: Catalog, en: Catalog, q: Query)
    requires Consistent(ko) && Consistent(en) && HasDefaultTheme(ko)
    ensures Page(origin, enc, ko, en, q).Render? <==>
      (q.theme.Some? && q.theme.value in KnownThemeIds(ko, en)
       && NormalizeType(q.typeCode) in ContentFor(ko, en, q.theme.value).results)
  {
    ThemeIdIsResolved(ko, en, q);
    if q.theme.Some? && q.theme.value in KnownThemeIds(ko, en) {
      assert q.theme.value != "";
    }
  }

  /**
   * Resolving the resolved theme id and type again gives the same resolution, and that query
   * does not redirect.
   */
  lemma ResolutionIsStable(ko: Catalog, en: Catalog, q: Query)
    requires Consistent(ko) && Consistent(en) && HasDefaultTheme(ko)
    ensures var res := Resolve(ko, en, q);
      var settled := Query(Some(res.theme.id), Some(res.typeCode));
      Resolve(ko, en, settled) == res && !Redirects(settled, res)
  {
    var res := Resolve(ko, en, q);
    var settled := Query(Some(res.theme.id), Some(res.typeCode));
    var known := KnownThemeIds(ko, en);
    ThemeIdIsResolved(ko, en, q);
    var id := res.theme.id;
    assert id in known && id != "";
    assert ResolveThemeId(settled.theme, known) == id;
    ResolveTypeStable(q.typeCode, res.content.results);
  }

  /**
   * A redirect settles in one step: the query made of the resolved theme id and type renders and
   * is where the redirect points, and a page that renders is the page of that query.
   */
  lemma RedirectSettles(origin: string, enc: string -> string, ko: Catalog, en: Catalog, q: Query)
    requires Consistent(ko) && Consistent(en) && HasDefaultTheme(ko)
    ensures var res := Resolve(ko, en, q);
      var settled := Query(Some(res.theme.id), Some(res.typeCode));
      var p, s := Page(origin, enc, ko, en, q), Page(origin, enc, ko, en, settled);
      && s.Render?
      && (p.Redirect? ==> p.location == s.view.shareUrl)
      && (p.Render? ==> p == s)
  {
    ResolutionIsStable(ko, en, q);
  }

  /**
   * The metadata names the URL the page settles on, as canonical and as Open Graph URL, and the
   * same image as the page; the "ko-KR" link is the Korean URL of the same theme and type.
   */
  lemma MetadataMatchesPage(origin: string, enc: string -> string, ko: Catalog, en: Catalog, q: Query)
    requires HasDefaultTheme(ko) && AllHaveIstj(ko) && AllHaveIstj(en)
    ensures var m, p, res := Metadata(origin, enc, ko, en, q), Page(origin, enc, ko, en, q), Resolve(ko, en, q);
      && m.alternates.canonical == m.ogUrl == (if p.Redirect? then p.location else p.view.shareUrl)
      && m.alternates.languages["ko-KR"] == m.alternates.languages["x-default"]
        == ResultUrl(origin, "", enc, res.theme.id, res.typeCode)
      && (p.Render? ==> m.ogImage == p.view.imageUrl)
  {
  }

  /**
   * A theme key of the English table is shown from the English table, a key of the Korean table
   * only from the Korean one; any other theme value shows what "onepiece" shows.
   */
  lemma ThemeLookupOrder(ko: Catalog, en: Catalog, k: string, typeCode: Option<string>)
    requires Consistent(ko) && Consistent(en) && HasDefaultTheme(ko)
    ensures var theme := Resolve(ko, en, Query(Some(k), typeCode)).theme;
      && (HasKey(en.themes, k) ==> Some(theme) == Get(en.themes, k))
      && (!HasKey(en.themes, k) && HasKey(ko.themes, k) ==> Some(theme) == Get(ko.themes, k))
      && (!HasKey(en.themes, k) && !HasKey(ko.themes, k) ==>
            theme == Resolve(ko, en, Query(Some(DefaultTheme), typeCode)).theme)
  {
    if HasKey(en.themes, k) || HasKey(ko.themes, k) {
      assert k != "";
    }
  }

  /** A lower-case type with a ".PNG" ending names the same page as the code itself. */
  lemma PngSpellingNamesSamePage(origin: string, enc: string -> string, ko: Catalog, en: Catalog, theme: Option<string>)
    requires HasDefaultTheme(ko) && AllHaveIstj(ko) && AllHaveIstj(en)
    ensures Page(origin, enc, ko, en, Query(theme, Some("istj.PNG"))) == Page(origin, enc, ko, en, Query(theme, Some("ISTJ")))
  {
    NormalizeTypeOfIstjPng();
    DefaultTypeIsCanonical();
    assert Resolve(ko, en, Query(theme, Some("istj.PNG"))) == Resolve(ko, en, Query(theme, Some("ISTJ")));
  }

  /**
   * With every character table covering the sixteen codes, a known theme id with a quiz code
   * renders, and its share URL is built from exactly that id and code.
   */
  lemma CodeQueryRenders(origin: string, enc: string -> string, ko: Catalog, en: Catalog, id: string, code: string)
    requires Consistent(ko) && Consistent(en) && HasDefaultTheme(ko)
    requires CoversAllCodes(ko) && CoversAllCodes(en)
    requires id in KnownThemeIds(ko, en) && code in Scoring.AllCodes
    ensures var p := Page(origin, enc, ko, en, Query(Some(id), Some(code)));
      p.Render? && p.view.shareUrl == ResultUrl(origin, "/en", enc, id, code)
  {
    var q := Query(Some(id), Some(code));
    CodesAreCanonical(code);
    assert NormalizeType(Some(code)) in ContentFor(ko, en, id).results;
    RenderIff(origin, enc, ko, en, q);
  }

  /**
   * Every English result URL the sitemap lists is a page that renders, without a redirect, when
   * the data are consistent and every character table has all sixteen codes.
   */
  lemma SitemapResultsRender<Time>(origin: string, enc: string -> string, ko: Catalog, en: Catalog, now: Time, i: nat, j: nat)
    requires Consistent(ko) && Consistent(en) && HasDefaultTheme(ko)
    requires CoversAllCodes(ko) && CoversAllCodes(en)
    requires i < |ko.themes| && j < 4
    ensures var q := Query(Some(ko.themes[i].1.id), Some(Sitemap.PopularTypes[j]));
      var p := Page(origin, enc, ko, en, q);
      && p.Render?
      && p.view.shareUrl == Sitemap.Sitemap(origin, enc, ko.themes, now)[12 + 6 * |ko.themes| + 4 * i + j].url
  {
    var id, code := ko.themes[i].1.id, Sitemap.PopularTypes[j];
    assert id in KnownThemeIds(ko, en) by {
      assert ko.themes[i].0 == id;
    }
    assert code in Scoring.AllCodes by {
      Sitemap.PopularTypesAreCodes();
    }
    CodeQueryRenders(origin, enc, ko, en, id, code);
    Sitemap.ResultEntriesAt(origin, enc, ko.themes, now, i, j);
  }
}
