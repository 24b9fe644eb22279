/**
 * The header link that switches between the Korean and the English version of the current page
 * (components/LanguageToggle.tsx). It only knows about the "/en" prefix.
 */
module LanguageToggle {
  import opened Wrappers
  import opened Strings
  import I18nConfig

  /** `usePathname() || "/"`: a missing or empty pathname reads as the root. */
  function Pathname(pathname: Option<string>): (p: string)
    ensures pathname.None? || pathname == Some("") ==> p == "/"
    ensures pathname.Some? && pathname.value != "" ==> p == pathname.value
  {
    if pathname.Some? && pathname.value != "" then pathname.value else "/"
  }

  /** `pathname === "/en" || pathname.startsWith("/en/")`. */
  predicate IsEnglish(p: string) {
    p == "/en" || StartsWith(p, "/en/")
  }

  /**
   * `pathname.replace(/^\/en(\/|$)/, "/")` on an English path: the "/en" segment, with the "/"
   * after it if any, becomes a single "/".
   */
  function StrippedPath(p: string): (r: string)
    requires IsEnglish(p)
    ensures StartsWith(r, "/")
    ensures p == "/en" ==> r == "/"
    ensures p != "/en" ==> p == "/en" + r
  {
    if p == "/en" then "/"
    else
      assert p == "/en" + ("/" + p[4..]);
      "/" + p[4..]
  }

  /**
   * The link target: an English path loses its prefix; any other path gains "/en", the root
   * becoming "/en" alone.
   */
  function TargetPath(p: string): (r: string)
    ensures IsEnglish(p) ==> r == StrippedPath(p)
    ensures !IsEnglish(p) && p == "/" ==> r == "/en"
    ensures !IsEnglish(p) && p != "/" ==> r == "/en" + p
  {
    if IsEnglish(p) then
      var stripped := StrippedPath(p);
      if stripped == "" then "/" else stripped
    else if p == "/" then "/en"
    else "/en" + p
  }

  /** The `href`: the target, followed by "?" and the query when the query is non-empty. */
  function Href(p: string, query: Option<string>): (h: string)
    ensures query.Some? && query.value != "" ==> h == TargetPath(p) + "?" + query.value
    ensures query.None? || query.value == "" ==> h == TargetPath(p)
  {
    var targetPath := TargetPath(p);
    if query.Some? && query.value != "" then targetPath + "?" + query.value else targetPath
  }

  /** "/en" and "/en/..." are English; a longer first segment such as "/english" is not. */
  lemma EnglishIsWholeSegment(rest: string)
    ensures IsEnglish("/en") && IsEnglish("/en/" + rest)
    ensures !IsEnglish("/english" + rest)
  {
    assert ("/en/" + rest)[..4] == "/en/";
    assert ("/english" + rest)[3] == 'g';
  }

  /** From a Korean path that starts with "/", the target is always an English path. */
  lemma KoreanGoesToEnglish(p: string)
    requires StartsWith(p, "/") && !IsEnglish(p)
    ensures IsEnglish(TargetPath(p))
  {
    if p != "/" {
      assert ("/en" + p)[..4] == "/en/";
    }
  }

  /** How prefixing "/en" shows in the tests the toggle makes. */
  lemma EnPrefixFacts(t: string)
    ensures "/en" + t == "/en/" <==> t == "/"
    ensures "/en" + t == "/en/en" <==> t == "/en"
    ensures StartsWith("/en" + t, "/en/") <==> StartsWith(t, "/")
    ensures StartsWith("/en" + t, "/en/en/") <==> StartsWith(t, "/en/")
  {
    var p := "/en" + t;
    assert p[3..] == t;
    if |t| >= 1 {
      assert p[..4] == "/en" + t[..1];
    }
    if |t| >= 4 {
      assert p[..7] == "/en" + t[..4];
    }
  }

  /** The paths the round trip loses are all English. */
  lemma ExceptionsAreEnglish(p: string)
    requires p == "/en/" || p == "/en/en" || StartsWith(p, "/en/en/")
    ensures IsEnglish(p)
  {
    if StartsWith(p, "/en/en/") {
      assert p[..4] == p[..7][..4];
    }
  }

  /**
   * For a path that starts with "/", toggling twice gives the path back, except for "/en/"
   * (which comes back as "/en") and for "/en/en" and every "/en/en/..." (whose first target is
   * itself English, so the second toggle strips again).
   */
  lemma ToggleTwiceIff(p: string)
    requires StartsWith(p, "/")
    ensures TargetPath(TargetPath(p)) == p <==> !(p == "/en/" || p == "/en/en" || StartsWith(p, "/en/en/"))
  {
    var t := TargetPath(p);
    if !IsEnglish(p) {
      if p == "/en/" || p == "/en/en" || StartsWith(p, "/en/en/") {
        ExceptionsAreEnglish(p);
      }
      if p != "/" {
        EnPrefixFacts(p);
        assert t == "/en" + p && StartsWith(t, "/en/");
        assert TargetPath(t) == "/" + t[4..];
        assert t[4..] == p[1..];
      }
    } else if p != "/en" {
      assert p == "/en" + t;
      EnPrefixFacts(t);
      if IsEnglish(t) {
        assert |TargetPath(t)| < |t| < |p|;
      }
    }
  }

  /** A path that starts with "/" is English exactly when its first segment is "en". */
  lemma EnglishIffFirstSegment(p: string)
    requires StartsWith(p, "/")
    ensures IsEnglish(p) <==> FirstSegment(p) == "en"
  {
    if p == "/en" {
      I18nConfig.FirstSegmentOfPrefixed("en", "");
    } else if StartsWith(p, "/en/") {
      assert p[3] == p[..4][3] == '/';
      assert p == "/" + "en" + p[3..];
      I18nConfig.FirstSegmentOfPrefixed("en", p[3..]);
    }
  }

  /** On normalised paths the toggle's English test is the English locale of lib/i18n-config.ts. */
  lemma EnglishIffEnLocale(p: string)
    requires I18nConfig.IsNormalized(p)
    ensures IsEnglish(p) <==> I18nConfig.LocaleFromPath(p) == I18nConfig.En
  {
    I18nConfig.NormalizePathFixedPoints(p);
    EnglishIffFirstSegment(p);
  }

  /** An English path goes to its locale-free form. */
  lemma EnglishTargetIsStripped(p: string)
    requires I18nConfig.IsNormalized(p) && IsEnglish(p)
    ensures TargetPath(p) == I18nConfig.StripLocalePrefix(p)
  {
    I18nConfig.NormalizePathFixedPoints(p);
    EnglishIffFirstSegment(p);
  }

  /** A path read as Korean is not an English path. */
  lemma KoreanIsNotEnglish(p: string)
    requires I18nConfig.IsNormalized(p) && I18nConfig.LocaleFromPath(p) == I18nConfig.Ko
    ensures !IsEnglish(p)
  {
    EnglishIffEnLocale(p);
  }

  /** Removing the locale prefix of a normalised path read as Korean leaves it as it is. */
  lemma KoreanStripIsIdentity(p: string)
    requires I18nConfig.IsNormalized(p) && I18nConfig.LocaleFromPath(p) == I18nConfig.Ko
    ensures I18nConfig.StripLocalePrefix(p) == p
  {
    I18nConfig.NormalizePathFixedPoints(p);
  }

  /** The English localisation of a path without a locale prefix is "/en" in front of it, or "/en" for the root. */
  lemma UnprefixedLocalizedToEnglish(p: string)
    requires I18nConfig.IsNormalized(p) && I18nConfig.StripLocalePrefix(p) == p
    ensures I18nConfig.LocalizePath(p, I18nConfig.En) == if p == "/" then "/en" else "/en" + p
  {
    assert "/" + I18nConfig.Code(I18nConfig.En) == "/en";
  }

  /** A Korean path goes to its English localisation. */
  lemma KoreanTargetIsLocalized(p: string)
    requires I18nConfig.IsNormalized(p) && I18nConfig.LocaleFromPath(p) == I18nConfig.Ko
    ensures TargetPath(p) == I18nConfig.LocalizePath(p, I18nConfig.En)
  {
    KoreanIsNotEnglish(p);
    KoreanStripIsIdentity(p);
    UnprefixedLocalizedToEnglish(p);
  }

  /**
   * On normalised paths the toggle agrees with lib/i18n-config.ts where the two overlap: an
   * English path goes to its locale-free form, and a Korean one to its English localisation.
   */
  lemma AgreesWithLocalizePath(p: string)
    requires I18nConfig.IsNormalized(p)
    ensures IsEnglish(p) <==> I18nConfig.LocaleFromPath(p) == I18nConfig.En
    ensures IsEnglish(p) ==> TargetPath(p) == I18nConfig.StripLocalePrefix(p)
    ensures I18nConfig.LocaleFromPath(p) == I18nConfig.Ko ==> TargetPath(p) == I18nConfig.LocalizePath(p, I18nConfig.En)
  {
    EnglishIffEnLocale(p);
    if IsEnglish(p) {
      EnglishTargetIsStripped(p);
    }
    if I18nConfig.LocaleFromPath(p) == I18nConfig.Ko {
      KoreanTargetIsLocalized(p);
    }
  }
}
