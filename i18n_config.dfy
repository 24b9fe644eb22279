/**
 * Locale-aware paths (lib/i18n-config.ts). Korean is the default locale and lives at the bare
 * path; English and Japanese pages live under "/en" and "/ja".
 */
module I18nConfig {
  import opened Wrappers
  import opened Strings

  /** `LocaleCode`. */
  datatype Locale = Ko | En | Ja

  /** `SUPPORTED_LOCALES`. */
  const SupportedLocales: seq<string> := ["ko", "en", "ja"]

  /** `DEFAULT_LOCALE`. */
  const DefaultLocale: Locale := Ko

  function Code(l: Locale): string {
    match l
    case Ko => "ko"
    case En => "en"
    case Ja => "ja"
  }

  /** `isLocaleCode`: membership in the supported list. */
  predicate IsLocaleCode(s: string)
    ensures IsLocaleCode(s) <==> exists l: Locale :: Code(l) == s
  {
    assert s == "ko" ==> Code(Ko) == s;
    assert s == "en" ==> Code(En) == s;
    assert s == "ja" ==> Code(Ja) == s;
    s in SupportedLocales
  }

  /** The locale a code names. */
  function ParseLocale(s: string): (r: Option<Locale>)
    ensures r.Some? <==> IsLocaleCode(s)
    ensures r.Some? ==> Code(r.value) == s
  {
    if s == "ko" then Some(Ko) else if s == "en" then Some(En) else if s == "ja" then Some(Ja) else None
  }

  /** The codes are exactly the names of the three locales. */
  lemma LocaleCodeRoundTrip(l: Locale)
    ensures IsLocaleCode(Code(l)) && ParseLocale(Code(l)) == Some(l)
  {
  }

  /** A normalised path: starts with "/" and has no surrounding whitespace. */
  predicate IsNormalized(p: string) {
    StartsWith(p, "/") && IsTrimmed(p)
  }

  /**
   * The part of `normalizePath` after trimming: empty and "/" give "/", anything else gets a
   * leading "/" if it lacks one.
   */
  function NormalizeTrimmed(trimmed: string): (r: string)
    requires IsTrimmed(trimmed)
    ensures IsNormalized(r)
    ensures trimmed == "" || trimmed == "/" ==> r == "/"
    ensures trimmed != "" && trimmed != "/" ==> r == trimmed || r == "/" + trimmed
    ensures StartsWith(trimmed, "/") ==> r == trimmed
  {
    if trimmed == "" || trimmed == "/" then "/"
    else if StartsWith(trimmed, "/") then trimmed
    else
      assert ("/" + trimmed)[|trimmed|] == trimmed[|trimmed| - 1];
      "/" + trimmed
  }

  /** `normalizePath`: empty and blank paths give "/"; any other path is trimmed first. */
  function NormalizePath(path: string): (r: string)
    ensures IsNormalized(r)
    ensures r == NormalizeTrimmed(Trim(path))
  {
    if path == "" then
      assert Trim(path) == "";
      "/"
    else NormalizeTrimmed(Trim(path))
  }

  /** A path of whitespace only (the empty one included) normalises to the root. */
  lemma BlankPathIsRoot(path: string)
    requires forall i :: 0 <= i < |path| ==> IsWhitespace(path[i])
    ensures NormalizePath(path) == "/"
  {
    TrimAllWhitespace(path);
  }

  /** The normalised paths are exactly the fixed points of `NormalizePath`. */
  lemma NormalizePathFixedPoints(p: string)
    ensures NormalizePath(p) == p <==> IsNormalized(p)
  {
    if IsNormalized(p) {
      TrimOfTrimmed(p);
    }
  }

  /** Normalising twice is normalising once. */
  lemma NormalizePathIdempotent(p: string)
    ensures NormalizePath(NormalizePath(p)) == NormalizePath(p)
  {
    NormalizePathFixedPoints(NormalizePath(p));
  }

  /** The locale named by the first segment of a normalised path: "en" or "ja", else Korean. */
  function SegmentLocale(normalized: string): (l: Locale)
    requires StartsWith(normalized, "/")
    ensures l == En <==> FirstSegment(normalized) == "en"
    ensures l == Ja <==> FirstSegment(normalized) == "ja"
  {
    var segment := FirstSegment(normalized);
    if IsLocaleCode(segment) && segment != Code(DefaultLocale) then ParseLocale(segment).value else DefaultLocale
  }

  /** `localeFromPath`: "en" or "ja" as the first segment, otherwise Korean (also for "/ko/..."). */
  function LocaleFromPath(pathname: string): (l: Locale)
    ensures l == En <==> FirstSegment(NormalizePath(pathname)) == "en"
    ensures l == Ja <==> FirstSegment(NormalizePath(pathname)) == "ja"
  {
    SegmentLocale(NormalizePath(pathname))
  }

  /**
   * The removal step of `stripLocalePrefix` on a normalised path: a leading "en" or "ja"
   * segment goes, and what is left still begins with "/". The path is the locale prefix
   * followed by the result, unless the path is the bare prefix and the result is "/".
   */
  function StripSegment(normalized: string): (r: string)
    requires IsNormalized(normalized)
    ensures IsNormalized(r)
    ensures SegmentLocale(normalized) == Ko ==> r == normalized
    ensures SegmentLocale(normalized) != Ko ==>
      normalized == "/" + Code(SegmentLocale(normalized)) + (if |normalized| == 3 then "" else r)
    ensures SegmentLocale(normalized) != Ko && |normalized| == 3 ==> r == "/"
  {
    var segment := FirstSegment(normalized);
    if !IsLocaleCode(segment) || segment == Code(DefaultLocale) then normalized
    else
      var stripped := normalized[|segment| + 1..];
      assert normalized == "/" + segment + stripped;
      assert stripped == [] || stripped[|stripped| - 1] == normalized[|normalized| - 1];
      if StartsWith(stripped, "/") then stripped else "/" + stripped
  }

  /**
   * `stripLocalePrefix`: the normalised path without a leading "en" or "ja" segment, still
   * beginning with "/"; any other path (a "/ko/..." one included) is returned normalised.
   */
  function StripLocalePrefix(pathname: string): (r: string)
    ensures IsNormalized(r)
    ensures LocaleFromPath(pathname) == Ko ==> r == NormalizePath(pathname)
    ensures LocaleFromPath(pathname) != Ko ==>
      NormalizePath(pathname) == "/" + Code(LocaleFromPath(pathname)) + (if |NormalizePath(pathname)| == 3 then "" else r)
    ensures LocaleFromPath(pathname) != Ko && |NormalizePath(pathname)| == 3 ==> r == "/"
  {
    StripSegment(NormalizePath(pathname))
  }

  /** The prefixing step of `localizePath`: "/en" or "/ja" before a locale-free path. */
  function WithLocalePrefix(basePath: string, locale: Locale): (r: string)
    requires IsNormalized(basePath)
    ensures IsNormalized(r)
    ensures locale == Ko ==> r == basePath
    ensures locale != Ko ==> r == "/" + Code(locale) + (if basePath == "/" then "" else basePath)
  {
    if locale == DefaultLocale then basePath
    else if basePath == "/" then "/" + Code(locale)
    else
      var r := "/" + Code(locale) + basePath;
      assert r[|r| - 1] == basePath[|basePath| - 1];
      r
  }

  /** `localizePath`: the stripped path, prefixed with "/en" or "/ja" for those locales. */
  function LocalizePath(pathname: string, locale: Locale): (r: string)
    ensures IsNormalized(r)
    ensures r == WithLocalePrefix(StripLocalePrefix(pathname), locale)
  {
    WithLocalePrefix(StripLocalePrefix(pathname), locale)
  }

  /** The first segment of "/xy" followed by a path (or by nothing) is "xy". */
  lemma FirstSegmentOfPrefixed(code: string, rest: string)
    requires |code| == 2 && '/' !in code
    requires rest == [] || rest[0] == '/'
    ensures FirstSegment("/" + code + rest) == code
  {
    assert ("/" + code + rest)[1..] == code + rest;
    UpToSlashOfPrefix(code, rest);
  }

  /** On a normalised path, prefixing with a locale and stripping it again are inverse. */
  lemma PrefixThenStrip(base: string, l: Locale)
    requires IsNormalized(base) && l != Ko
    ensures SegmentLocale(WithLocalePrefix(base, l)) == l
    ensures StripSegment(WithLocalePrefix(base, l)) == base
  {
    var q := WithLocalePrefix(base, l);
    var rest := if base == "/" then "" else base;
    FirstSegmentOfPrefixed(Code(l), rest);
    var r := StripSegment(q);
    if base != "/" {
      assert |q| != 3;
      assert q[3..] == r;
      assert q[3..] == base;
    }
  }

  /**
   * For English and Japanese, localising a path puts it in that locale and keeps its
   * locale-free form: `localeFromPath(localizePath(p, l)) == l` and
   * `stripLocalePrefix(localizePath(p, l)) == stripLocalePrefix(p)`.
   */
  lemma LocalizeRoundTrip(p: string, l: Locale)
    requires l != Ko
    ensures LocaleFromPath(LocalizePath(p, l)) == l
    ensures StripLocalePrefix(LocalizePath(p, l)) == StripLocalePrefix(p)
  {
    var q := LocalizePath(p, l);
    NormalizePathFixedPoints(q);
    PrefixThenStrip(StripLocalePrefix(p), l);
  }

  /** Localising to Korean need not give a Korean path: "/en/en" strips to "/en". */
  lemma LocalizeToKoreanCanStayEnglish()
    ensures LocalizePath("/en/en", Ko) == "/en"
    ensures LocaleFromPath(LocalizePath("/en/en", Ko)) == En
  {
    assert WithLocalePrefix("/en", En) == "/en/en";
    PrefixThenStrip("/en", En);
    NormalizePathFixedPoints("/en/en");
    assert WithLocalePrefix("/", En) == "/en";
    PrefixThenStrip("/", En);
    NormalizePathFixedPoints("/en");
  }
}
