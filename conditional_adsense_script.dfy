/**
 * The AdSense loader that is mounted everywhere except on a running quiz
 * (components/ConditionalAdsenseScript.tsx), in Korean, English and Japanese.
 */
module ConditionalAdsenseScript {
  import opened Wrappers
  import opened Strings
  import I18nConfig

  /** `/^<prefix>[^/]+/`: the prefix followed by at least one character other than "/". */
  predicate HasSegmentAfter(pathname: string, prefix: string) {
    StartsWith(pathname, prefix) && |pathname| > |prefix| && pathname[|prefix|] != '/'
  }

  /**
   * `isTestRoute`: a missing or empty pathname is not; otherwise "/test/<segment>" with an
   * optional "/en" or "/ja" in front.
   */
  predicate IsTestRoute(pathname: Option<string>) {
    && pathname.Some? && pathname.value != ""
    && (|| HasSegmentAfter(pathname.value, "/test/")
        || HasSegmentAfter(pathname.value, "/en/test/")
        || HasSegmentAfter(pathname.value, "/ja/test/"))
  }

  /** The component renders the script exactly when the path is not a test route. */
  function RendersScript(pathname: Option<string>): (r: bool)
    ensures r <==> !IsTestRoute(pathname)
    ensures pathname.None? ==> r
  {
    if IsTestRoute(pathname) then false else true
  }

  /** "/test" and "/test/" are not test routes, nor is a Korean path spelled with "/ko". */
  lemma BareTestIsNotTestRoute(rest: string)
    ensures !IsTestRoute(Some("/test")) && !IsTestRoute(Some("/test/"))
    ensures !IsTestRoute(Some("/ko/test/" + rest))
  {
    assert ("/ko/test/" + rest)[1] == 'k';
  }

  /** Prefixing "/en" or "/ja" to a path moves the "/test/" pattern along with it. */
  lemma PrefixedSegmentAfter(code: string, rest: string)
    requires |code| == 2
    ensures HasSegmentAfter("/" + code + rest, "/" + code + "/test/") <==> HasSegmentAfter(rest, "/test/")
  {
    var p := "/" + code + rest;
    assert p[3..] == rest;
    if |rest| >= 6 {
      assert p[..9] == "/" + code + rest[..6];
    }
    if |rest| > 6 {
      assert p[9] == rest[6];
    }
  }

  /** A path that starts with "/xy/" has "xy" as its first segment. */
  lemma SegmentOfPrefixed(p: string, code: string)
    requires |code| == 2 && '/' !in code && StartsWith(p, "/" + code + "/")
    ensures FirstSegment(p) == code
  {
    assert p == "/" + code + p[3..];
    assert p[3] == p[..4][3] == '/';
    I18nConfig.FirstSegmentOfPrefixed(code, p[3..]);
  }

  /** "/xy/test/..." starts with "/xy/". */
  lemma TestPrefixHasSegment(p: string, code: string)
    requires |code| == 2 && HasSegmentAfter(p, "/" + code + "/test/")
    ensures StartsWith(p, "/" + code + "/")
  {
    assert p[..4] == p[..9][..4];
  }

  /** A path read as Korean matches neither the English nor the Japanese pattern. */
  lemma KoreanPathHasNoLocalePattern(p: string)
    requires StartsWith(p, "/") && I18nConfig.SegmentLocale(p) == I18nConfig.Ko
    ensures !HasSegmentAfter(p, "/en/test/") && !HasSegmentAfter(p, "/ja/test/")
  {
    if HasSegmentAfter(p, "/en/test/") {
      TestPrefixHasSegment(p, "en");
      SegmentOfPrefixed(p, "en");
    }
    if HasSegmentAfter(p, "/ja/test/") {
      TestPrefixHasSegment(p, "ja");
      SegmentOfPrefixed(p, "ja");
    }
  }

  /** Behind "/en" or "/ja", only the pattern of that locale can match, and it matches the rest. */
  lemma LocalePrefixedPattern(code: string, rest: string)
    requires code == "en" || code == "ja"
    ensures (|| HasSegmentAfter("/" + code + rest, "/test/")
             || HasSegmentAfter("/" + code + rest, "/en/test/")
             || HasSegmentAfter("/" + code + rest, "/ja/test/"))
      <==> HasSegmentAfter(rest, "/test/")
  {
    var p := "/" + code + rest;
    assert p[1] == code[0];
    PrefixedSegmentAfter(code, rest);
  }

  /** A path read as English or Japanese matches a pattern exactly when its rest matches "/test/". */
  lemma LocalePathPattern(p: string)
    requires I18nConfig.IsNormalized(p) && I18nConfig.SegmentLocale(p) != I18nConfig.Ko
    ensures (|| HasSegmentAfter(p, "/test/")
             || HasSegmentAfter(p, "/en/test/")
             || HasSegmentAfter(p, "/ja/test/"))
      <==> HasSegmentAfter(I18nConfig.StripSegment(p), "/test/")
  {
    var code := I18nConfig.Code(I18nConfig.SegmentLocale(p));
    var s := I18nConfig.StripSegment(p);
    if |p| != 3 {
      assert p == "/" + code + s;
      LocalePrefixedPattern(code, s);
    }
  }

  /**
   * On a normalised path, the test-route pattern is the Korean pattern "/test/<segment>" applied
   * to the path without its locale prefix, for the paths lib/i18n-config.ts reads as Korean,
   * English or Japanese alike.
   */
  lemma TestRouteIsLocaleFree(p: string)
    requires I18nConfig.IsNormalized(p)
    ensures IsTestRoute(Some(p)) <==> HasSegmentAfter(I18nConfig.StripLocalePrefix(p), "/test/")
  {
    I18nConfig.NormalizePathFixedPoints(p);
    if I18nConfig.SegmentLocale(p) == I18nConfig.Ko {
      KoreanPathHasNoLocalePattern(p);
    } else {
      LocalePathPattern(p);
    }
  }
}
