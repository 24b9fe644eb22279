/**
 * The site origin every absolute URL starts with (lib/site.ts): the first non-empty of two
 * environment values, else a fixed default, then trimmed, stripped of trailing "/" and given
 * "https://" unless it already names an http(s) scheme.
 */
module Site {
  import opened Wrappers
  import opened Strings

  /** `SITE_NAME`, the suffix of every page title. */
  const SiteName: string := "MBTI WORLD ANIMATION"

  /** The origin used when neither environment value is set. */
  const DefaultOrigin: string := "https://mbti-world-animation.pages.dev"

  /** `s.replace(/\/+$/, "")`: every trailing "/" removed. */
  function StripTrailingSlashes(s: string): (r: string)
    ensures |r| <= |s| && r == s[..|r|]
    ensures r == [] || r[|r| - 1] != '/'
    ensures forall i :: |r| <= i < |s| ==> s[i] == '/'
  {
    if s != [] && s[|s| - 1] == '/' then StripTrailingSlashes(s[..|s| - 1]) else s
  }

  /** `/^https?:\/\//i`: starts with "http://" or "https://" in any letter case. */
  predicate HasHttpScheme(s: string) {
    || (|s| >= 7 && EqualsIgnoreCase(s[..7], "http://"))
    || (|s| >= 8 && EqualsIgnoreCase(s[..8], "https://"))
  }

  /** The value after `trim()` and the trailing-slash removal. */
  function Core(value: string): (c: string)
    ensures c == StripTrailingSlashes(Trim(value))
  {
    StripTrailingSlashes(Trim(value))
  }

  /** `normalizeSiteOrigin`. */
  function NormalizeSiteOrigin(value: string): (r: string)
    ensures HasHttpScheme(r)
    ensures HasHttpScheme(Core(value)) ==> r == Core(value)
    ensures !HasHttpScheme(Core(value)) ==> r == "https://" + Core(value)
  {
    var trimmed := StripTrailingSlashes(Trim(value));
    if HasHttpScheme(trimmed) then trimmed
    else
      assert ("https://" + trimmed)[..8] == "https://";
      "https://" + trimmed
  }

  /** A finished origin: an http(s) scheme, no surrounding whitespace, no trailing "/". */
  predicate IsSiteOrigin(s: string) {
    HasHttpScheme(s) && IsTrimmed(s) && (s == [] || s[|s| - 1] != '/')
  }

  /** A value with nothing to trim or strip is its own core. */
  lemma CoreOfClean(v: string)
    requires IsTrimmed(v) && (v == [] || v[|v| - 1] != '/')
    ensures Core(v) == v
  {
    TrimOfTrimmed(v);
  }

  /** A letter that lower-cases to 'h' is 'h' or 'H', so a scheme never starts with whitespace. */
  lemma SchemeStartsWithLetter(s: string)
    requires HasHttpScheme(s)
    ensures s != [] && !IsWhitespace(s[0])
  {
    assert LowerChar(s[0]) == 'h' by {
      if |s| >= 7 && EqualsIgnoreCase(s[..7], "http://") {
        assert s[..7][0] == s[0];
      } else {
        assert s[..8][0] == s[0];
      }
    }
  }

  /**
   * When a value starts with a visible character, its core is a prefix of it that reaches past
   * every character that is neither whitespace nor "/".
   */
  lemma CoreIsPrefix(v: string)
    requires v != [] && !IsWhitespace(v[0])
    ensures Core(v) == v[..|Core(v)|]
    ensures forall k :: 0 <= k < |v| && !IsWhitespace(v[k]) && v[k] != '/' ==> k < |Core(v)|
  {
    assert Trim(v) == TrimEnd(v);
  }

  /** A prefix of a "https://" value that is at least eight characters long has the scheme. */
  lemma LongPrefixHasScheme(v: string, c: string)
    requires 8 <= |c| <= |v| && c == v[..|c|] && v[..8] == "https://"
    ensures HasHttpScheme(c)
  {
    assert c[..8] == v[..8];
  }

  /**
   * A prefix of "https://" + c that is c itself, six or seven characters long and not ending in
   * "/", is "https:", so the value ends in ':' and is its own core, which is longer than c.
   */
  lemma ShortPrefixIsNotCore(v: string, c: string)
    requires v == "https://" + c && c == v[..|c|] && 5 < |c| < 8 && c[|c| - 1] != '/'
    ensures Core(v) != c
  {
    assert c[|c| - 1] == v[|c| - 1];
    assert v[|v| - 1] == ':';
    CoreOfClean(v);
  }

  /** The core of a value that starts with "https://" is a prefix of it that keeps "https:". */
  lemma CoreOfHttpsValue(v: string)
    requires StartsWith(v, "https://")
    ensures 5 < |Core(v)| && Core(v) == v[..|Core(v)|]
  {
    assert v[0] == v[..8][0] == 'h';
    assert v[5] == v[..8][5] == ':';
    CoreIsPrefix(v);
  }

  /**
   * A value that equals "https://" followed by its own core has a core with a scheme: the core is
   * a prefix of the value, so either it starts with "https://" itself, or it is "https:" and
   * then the value would be its own core.
   */
  lemma NoSchemelessFixedPoint(v: string, c: string)
    requires c == Core(v) && v == "https://" + c
    ensures HasHttpScheme(c)
  {
    assert v[..8] == "https://";
    CoreOfHttpsValue(v);
    if |c| >= 8 {
      LongPrefixHasScheme(v, c);
    } else {
      ShortPrefixIsNotCore(v, c);
    }
  }

  /** The finished origins are exactly the values `normalizeSiteOrigin` leaves unchanged. */
  lemma {:induction false} NormalizeFixedPoints(v: string)
    ensures NormalizeSiteOrigin(v) == v <==> IsSiteOrigin(v)
  {
    var c := Core(v);
    if IsSiteOrigin(v) {
      CoreOfClean(v);
    }
    if NormalizeSiteOrigin(v) == v {
      if HasHttpScheme(c) {
        assert |c| <= |Trim(v)| <= |v| == |c|;
        assert Trim(v) == Trim(v)[..|c|] == c;
      } else {
        NoSchemelessFixedPoint(v, c);
      }
    }
  }

  /** When the core has a scheme it is the result, and it starts with a letter. */
  lemma NormalizedWithScheme(v: string)
    requires HasHttpScheme(Core(v))
    ensures IsSiteOrigin(NormalizeSiteOrigin(v)) <==> !IsWhitespace(Core(v)[|Core(v)| - 1])
  {
    var c := Core(v);
    assert NormalizeSiteOrigin(v) == c;
    SchemeStartsWithLetter(c);
    assert IsTrimmed(c) <==> !IsWhitespace(c[|c| - 1]);
  }

  /** Otherwise the result is "https://" + core, which ends in "/" when the core is empty. */
  lemma NormalizedWithoutScheme(v: string)
    requires !HasHttpScheme(Core(v))
    ensures IsSiteOrigin(NormalizeSiteOrigin(v)) <==> Core(v) != [] && !IsWhitespace(Core(v)[|Core(v)| - 1])
  {
    var c := Core(v);
    var r := NormalizeSiteOrigin(v);
    assert r == "https://" + c;
    assert r[0] == 'h';
    if c == [] {
      assert r[|r| - 1] == '/';
    } else {
      assert r[|r| - 1] == c[|c| - 1];
    }
  }

  /** A normalised value is a finished origin exactly when its core is non-empty and ends visibly. */
  lemma NormalizedIsOriginIff(v: string)
    ensures IsSiteOrigin(NormalizeSiteOrigin(v)) <==> Core(v) != [] && !IsWhitespace(Core(v)[|Core(v)| - 1])
  {
    if HasHttpScheme(Core(v)) {
      NormalizedWithScheme(v);
    } else {
      NormalizedWithoutScheme(v);
    }
  }

  /**
   * Normalising twice equals normalising once exactly when the core is non-empty and does not
   * end in whitespace. It fails for a blank or all-"/" value ("" gives "https://", then
   * "https://https:") and when removing slashes uncovers whitespace ("a /" gives "https://a ",
   * then "https://a").
   */
  lemma NormalizeIdempotentIff(v: string)
    ensures NormalizeSiteOrigin(NormalizeSiteOrigin(v)) == NormalizeSiteOrigin(v)
      <==> Core(v) != [] && !IsWhitespace(Core(v)[|Core(v)| - 1])
  {
    NormalizeFixedPoints(NormalizeSiteOrigin(v));
    NormalizedIsOriginIff(v);
  }

  /** The blank value normalises to a bare scheme, */
  lemma EmptyOriginIsBareScheme()
    ensures NormalizeSiteOrigin("") == "https://"
  {
    assert Core("") == "" by { assert Trim("") == ""; }
  }

  /** whose core has lost its slashes, */
  lemma CoreOfBareScheme()
    ensures Core("https://") == "https:" && !HasHttpScheme("https:")
  {
    TrimOfTrimmed("https://");
    assert "https://"[..7] == "https:/";
    assert "https:/"[..6] == "https:";
  }

  /** so a second pass turns it into "https://https:". */
  lemma BareSchemeIsNotAnOrigin()
    ensures NormalizeSiteOrigin("https://") == "https://https:"
  {
    CoreOfBareScheme();
  }

  /** `NEXT_PUBLIC_SITE_URL || SITE_URL || DEFAULT`: an unset or empty value is skipped. */
  function RawSiteOrigin(nextPublicSiteUrl: Option<string>, siteUrl: Option<string>): (r: string)
    ensures nextPublicSiteUrl.Some? && nextPublicSiteUrl.value != "" ==> r == nextPublicSiteUrl.value
    ensures (nextPublicSiteUrl.None? || nextPublicSiteUrl.value == "") && siteUrl.Some? && siteUrl.value != "" ==> r == siteUrl.value
    ensures (nextPublicSiteUrl.None? || nextPublicSiteUrl.value == "") && (siteUrl.None? || siteUrl.value == "") ==> r == DefaultOrigin
  {
    if nextPublicSiteUrl.Some? && nextPublicSiteUrl.value != "" then nextPublicSiteUrl.value
    else if siteUrl.Some? && siteUrl.value != "" then siteUrl.value
    else DefaultOrigin
  }

  /** `SITE_ORIGIN`. */
  function SiteOrigin(nextPublicSiteUrl: Option<string>, siteUrl: Option<string>): (o: string)
    ensures HasHttpScheme(o)
    ensures o == NormalizeSiteOrigin(RawSiteOrigin(nextPublicSiteUrl, siteUrl))
  {
    NormalizeSiteOrigin(RawSiteOrigin(nextPublicSiteUrl, siteUrl))
  }

  /** The default origin is a finished origin, */
  lemma DefaultIsSiteOrigin()
    ensures IsSiteOrigin(DefaultOrigin)
  {
    assert DefaultOrigin[..8] == "https://";
  }

  /** so with neither value set, or both empty, the origin is the default unchanged. */
  lemma DefaultSiteOrigin()
    ensures SiteOrigin(None, None) == DefaultOrigin
    ensures SiteOrigin(Some(""), Some("")) == DefaultOrigin
  {
    DefaultIsSiteOrigin();
    NormalizeFixedPoints(DefaultOrigin);
    assert NormalizeSiteOrigin(DefaultOrigin) == DefaultOrigin;
    assert RawSiteOrigin(None, None) == DefaultOrigin;
    assert RawSiteOrigin(Some(""), Some("")) == DefaultOrigin;
  }
}
