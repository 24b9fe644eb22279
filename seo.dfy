/**
 * Canonical and alternate-language URLs for page metadata (lib/seo.ts). Korean pages live at
 * the bare path and English ones under "/en"; `x-default` points at the Korean page.
 */
module Seo {
  import opened Strings
  import I18nConfig

  /** The `alternates` object of Next.js metadata: a canonical URL and hreflang links. */
  datatype Alternates = Alternates(canonical: string, languages: map<string, string>)

  const HreflangKeys: set<string> := {"ko-KR", "en-US", "x-default"}

  /**
   * This file's own `normalizePath`: empty gives "/", otherwise the trimmed path with a leading
   * "/" added when missing. It has no separate test for blank input, yet "/" + "" is "/", so it
   * agrees with the normaliser of lib/i18n-config.ts on every input.
   */
  function NormalizePath(path: string): (r: string)
    ensures I18nConfig.IsNormalized(r)
    ensures r == I18nConfig.NormalizePath(path)
  {
    if path == "" then
      assert Trim(path) == "";
      "/"
    else NormalizeTrimmed(Trim(path))
  }

  /** The part of `normalizePath` after trimming. */
  function NormalizeTrimmed(trimmed: string): (r: string)
    requires IsTrimmed(trimmed)
    ensures r == I18nConfig.NormalizeTrimmed(trimmed)
  {
    if trimmed == "/" then "/"
    else if StartsWith(trimmed, "/") then trimmed
    else "/" + trimmed
  }

  /** The English counterpart of a Korean path: "/en" for the root, "/en" + path otherwise. */
  function EnglishPath(koPath: string): (r: string)
    requires I18nConfig.IsNormalized(koPath)
    ensures r == I18nConfig.WithLocalePrefix(koPath, I18nConfig.En)
    ensures I18nConfig.SegmentLocale(r) == I18nConfig.En
    ensures I18nConfig.StripSegment(r) == koPath
  {
    I18nConfig.PrefixThenStrip(koPath, I18nConfig.En);
    if koPath == "/" then "/en" else "/en" + koPath
  }

  /**
   * `localizedAlternatesFromUrls`: the URLs are used as given. The canonical URL is the Korean
   * one only for the locale "ko"; every other value, "ja" included, selects the English one.
   */
  function LocalizedAlternatesFromUrls(koUrl: string, enUrl: string, canonicalLocale: string): (a: Alternates)
    ensures canonicalLocale == "ko" ==> a.canonical == koUrl
    ensures canonicalLocale != "ko" ==> a.canonical == enUrl
    ensures a.languages.Keys == HreflangKeys
    ensures a.languages["ko-KR"] == koUrl && a.languages["en-US"] == enUrl
    ensures a.languages["x-default"] == koUrl
  {
    Alternates(
      if canonicalLocale == "ko" then koUrl else enUrl,
      map["ko-KR" := koUrl, "en-US" := enUrl, "x-default" := koUrl])
  }

  /**
   * `localizedAlternates` against the site origin: the Korean URL is the origin followed by the
   * normalised path, the English URL the origin followed by its English counterpart.
   */
  function LocalizedAlternates(origin: string, path: string, canonicalLocale: string): (a: Alternates)
    ensures a.languages.Keys == HreflangKeys
    ensures a.languages["ko-KR"] == a.languages["x-default"] == origin + NormalizePath(path)
    ensures a.languages["en-US"] == origin + EnglishPath(NormalizePath(path))
    ensures a.canonical == if canonicalLocale == "ko" then a.languages["ko-KR"] else a.languages["en-US"]
  {
    var koPath := NormalizePath(path);
    var enPath := EnglishPath(koPath);
    LocalizedAlternatesFromUrls(origin + koPath, origin + enPath, canonicalLocale)
  }

  /**
   * The English alternate is an English path whose locale-free form is the Korean path, and
   * `x-default` is the Korean URL.
   */
  lemma AlternatesAreLocalized(origin: string, path: string, canonicalLocale: string)
    ensures var a := LocalizedAlternates(origin, path, canonicalLocale);
      && a.languages["x-default"] == a.languages["ko-KR"]
      && (exists en :: a.languages["en-US"] == origin + en
            && I18nConfig.LocaleFromPath(en) == I18nConfig.En
            && origin + I18nConfig.StripLocalePrefix(en) == a.languages["ko-KR"])
  {
    var koPath := NormalizePath(path);
    var en := EnglishPath(koPath);
    I18nConfig.NormalizePathFixedPoints(en);
    assert I18nConfig.LocaleFromPath(en) == I18nConfig.En;
  }

  /**
   * For a path without an English or Japanese prefix, the two alternates are exactly the Korean
   * and the English localisation of lib/i18n-config.ts.
   */
  lemma AlternatesMatchLocalizePath(origin: string, path: string, canonicalLocale: string)
    requires I18nConfig.LocaleFromPath(path) == I18nConfig.Ko
    ensures var a := LocalizedAlternates(origin, path, canonicalLocale);
      && a.languages["ko-KR"] == origin + I18nConfig.LocalizePath(path, I18nConfig.Ko)
      && a.languages["en-US"] == origin + I18nConfig.LocalizePath(path, I18nConfig.En)
  {
  }

  /**
   * A normalised path other than "/" is prefixed with "/en" whatever it holds, so an English
   * path such as "/en/about" gets the alternate "/en/en/about".
   */
  lemma EnglishInputIsPrefixedAgain(origin: string, p: string)
    requires I18nConfig.IsNormalized(p) && p != "/"
    ensures LocalizedAlternates(origin, p, "ko").languages["en-US"] == origin + ("/en" + p)
  {
    I18nConfig.NormalizePathFixedPoints(p);
    assert NormalizePath(p) == p;
    var en := EnglishPath(p);
    assert en == "/en" + p;
    var a := LocalizedAlternates(origin, p, "ko");
    assert a.languages["en-US"] == origin + en;
  }
}
