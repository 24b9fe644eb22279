/**
 * What the three result pages (app/result, app/en/result, app/ja/result) share: reading the
 * `type` query value, the fallbacks to the "onepiece" theme and the ISTJ entry, the "related
 * tests" selection and the shape of share and preview-image URLs.
 */
module ResultCommon {
  import opened Wrappers
  import opened Strings
  import opened MbtiTypes
  import opened Tables
  import Scoring
  import Seo

  const DefaultTheme: string := "onepiece"
  const DefaultType: string := "ISTJ"

  /** `/\.png$/i`: the last four characters spell ".png" in any letter case. */
  predicate EndsWithPng(s: string) {
    |s| >= 4 && EqualsIgnoreCase(s[|s| - 4..], ".png")
  }

  /** `s.replace(/\.png$/i, "")`: drops one ".png" suffix, in any case. */
  function StripPng(s: string): (r: string)
    ensures EndsWithPng(s) ==> |r| == |s| - 4 && r == s[..|s| - 4]
    ensures !EndsWithPng(s) ==> r == s
  {
    if EndsWithPng(s) then s[..|s| - 4] else s
  }

  /**
   * `normalizeType` (the same in all three pages): a missing or empty value reads as ISTJ;
   * otherwise one ".png" suffix is dropped and the rest is upper-cased.
   */
  function NormalizeType(raw: Option<string>): (t: string)
    ensures raw.None? || raw == Some("") ==> t == DefaultType
    ensures IsUpper(t)
  {
    if raw.None? || raw.value == "" then DefaultType else ToUpper(StripPng(raw.value))
  }

  /** Upper-casing is letter by letter, so it distributes over concatenation. */
  lemma ToUpperConcat(s: string, t: string)
    ensures ToUpper(s + t) == ToUpper(s) + ToUpper(t)
  {
    assert forall i :: 0 <= i < |s + t| ==> ToUpper(s + t)[i] == (ToUpper(s) + ToUpper(t))[i];
  }

  /** Any spelling of ".png" upper-cases to ".PNG". */
  lemma UpperOfPngSuffix(tail: string)
    requires EqualsIgnoreCase(tail, ".png")
    ensures ToUpper(tail) == ".PNG"
  {
    forall i | 0 <= i < 4 ensures ToUpper(tail)[i] == ".PNG"[i] {
      assert LowerChar(tail[i]) == ".png"[i];
    }
  }

  /**
   * A present, non-empty value normalises to its upper-case form, less ".PNG" when it ended in
   * ".png" of any case: the dropped suffix is exactly four characters and nothing else changes.
   */
  lemma NormalizeTypeOfText(s: string)
    requires s != ""
    ensures EndsWithPng(s) ==> NormalizeType(Some(s)) + ".PNG" == ToUpper(s)
    ensures !EndsWithPng(s) ==> NormalizeType(Some(s)) == ToUpper(s)
  {
    if EndsWithPng(s) {
      var stem, tail := s[..|s| - 4], s[|s| - 4..];
      assert s == stem + tail;
      ToUpperConcat(stem, tail);
      UpperOfPngSuffix(tail);
    }
  }

  /** "istj.PNG" normalises to ISTJ. */
  lemma NormalizeTypeOfIstjPng()
    ensures NormalizeType(Some("istj.PNG")) == DefaultType
  {
    assert EndsWithPng("istj.PNG") by {
      assert "istj.PNG"[4..] == ".PNG";
    }
    assert "istj.PNG"[..4] == "istj";
  }

  /** A type value is canonical when normalising it changes nothing. */
  predicate IsCanonicalType(k: string) {
    NormalizeType(Some(k)) == k
  }

  /** Non-empty upper-case text without a ".PNG" ending is canonical. */
  lemma CanonicalTypeByShape(k: string)
    requires k != "" && IsUpper(k) && !EndsWithPng(k)
    ensures IsCanonicalType(k)
  {
    ToUpperOfUpper(k);
  }

  /** Every code the quiz produces is canonical. */
  lemma CodesAreCanonical(code: string)
    requires code in Scoring.AllCodes
    ensures IsCanonicalType(code)
  {
    assert |code| == 4 && IsUpper(code) && code[3] != 'G';
    CanonicalTypeByShape(code);
  }

  /** Normalising is not idempotent: only one ".png" is dropped per pass. */
  lemma NormalizeTypeTwiceDiffers()
    ensures NormalizeType(Some("a.png.png")) == "A.PNG"
    ensures NormalizeType(Some("A.PNG")) == "A"
  {
    assert EndsWithPng("a.png.png") && EndsWithPng("A.PNG");
    assert "a.png.png"[..5] == "a.png";
    assert "A.PNG"[..1] == "A";
  }

  /** The `theme` and `type` query parameters of a result URL; either may be absent. */
  datatype Query = Query(theme: Option<string>, typeCode: Option<string>)

  /** What a result page does: a permanent redirect to a location, or a rendered view. */
  datatype Response<View> = Redirect(location: string) | Render(view: View)

  /** A theme table and the content table keyed like it (`THEMES` and `CONTENTS`, or their English versions). */
  datatype Catalog = Catalog(themes: Table<ThemeMeta>, contents: Table<ThemeContent>)

  /** Every character table has the ISTJ entry the pages fall back on. */
  predicate AllHaveIstj(c: Catalog) {
    forall i :: 0 <= i < |c.contents| ==> DefaultType in c.contents[i].1.results
  }

  /** The catalog has the "onepiece" theme and content the pages fall back on. */
  predicate HasDefaultTheme(c: Catalog) {
    HasKey(c.themes, DefaultTheme) && HasKey(c.contents, DefaultTheme)
  }

  /**
   * The data are consistent: each theme's id is its key and is non-empty, and every character
   * table is keyed by canonical type codes and has ISTJ.
   */
  predicate Consistent(c: Catalog) {
    && IdsMatchKeys(c.themes)
    && !HasKey(c.themes, "")
    && CanonicalResultKeys(c.contents)
    && AllHaveIstj(c)
  }

  /** The theme table and the content table have the same keys. */
  predicate SameKeys(c: Catalog) {
    Keys(c.themes) == Keys(c.contents)
  }

  /** Every character table has an entry for every quiz code. */
  predicate CoversAllCodes(c: Catalog) {
    forall i :: 0 <= i < |c.contents| ==> Scoring.AllCodes <= c.contents[i].1.results.Keys
  }

  /**
   * `resolveThemeId` of the English and Japanese pages: a present, non-empty value that is a known
   * key is kept, anything else becomes "onepiece". The English page knows the keys of both theme
   * tables, the Japanese page those of the English table only.
   */
  function ResolveThemeId(raw: Option<string>, knownKeys: set<string>): (id: string)
    ensures id == DefaultTheme || Some(id) == raw
    ensures id in knownKeys || id == DefaultTheme
    ensures raw.Some? && raw.value != "" && raw.value in knownKeys ==> id == raw.value
    ensures raw.None? || raw.value == "" || raw.value !in knownKeys ==> id == DefaultTheme
  {
    if raw.Some? && raw.value != "" && raw.value in knownKeys then raw.value else DefaultTheme
  }

  /**
   * `resolveType` of the English and Japanese pages: the normalised value when the character
   * table has it, ISTJ otherwise.
   */
  function ResolveType(raw: Option<string>, results: map<string, CharacterResult>): (t: string)
    ensures t in results || t == DefaultType
    ensures t == NormalizeType(raw) <==> NormalizeType(raw) in results || NormalizeType(raw) == DefaultType
    ensures NormalizeType(raw) !in results ==> t == DefaultType
  {
    var normalized := NormalizeType(raw);
    if normalized in results then normalized else DefaultType
  }

  /** ISTJ is canonical. */
  lemma DefaultTypeIsCanonical()
    ensures IsCanonicalType(DefaultType)
  {
    assert LowerChar(DefaultType[0]) != '.';
    assert !EndsWithPng(DefaultType) by {
      assert DefaultType[|DefaultType| - 4..] == DefaultType;
    }
    CanonicalTypeByShape(DefaultType);
  }

  /**
   * Over a table keyed by canonical codes, a resolved type is canonical, so it normalises to
   * itself and resolves to itself again.
   */
  lemma ResolveTypeStable(raw: Option<string>, results: map<string, CharacterResult>)
    requires forall k :: k in results ==> IsCanonicalType(k)
    ensures var t := ResolveType(raw, results);
      NormalizeType(Some(t)) == t && ResolveType(Some(t), results) == t
  {
    DefaultTypeIsCanonical();
  }

  /** `table[key] || table.ISTJ`: the entry, unless it is missing or empty. */
  function DescOrIstj(table: map<string, string>, key: string): (d: string)
    requires DefaultType in table
    ensures key in table && table[key] != "" ==> d == table[key]
    ensures key !in table || table[key] == "" ==> d == table[DefaultType]
  {
    if key in table && table[key] != "" then table[key] else table[DefaultType]
  }

  /** `table[key] ?? table.ISTJ`: the entry, unless it is missing. */
  function DescOrIstjNullish(table: map<string, string>, key: string): (d: string)
    requires DefaultType in table
    ensures key in table ==> d == table[key]
    ensures key !in table ==> d == table[DefaultType]
  {
    if key in table then table[key] else table[DefaultType]
  }

  /** `content.results[type] || content.results.ISTJ`. */
  function CharacterOrIstj(results: map<string, CharacterResult>, typeCode: string): (c: CharacterResult)
    requires DefaultType in results
    ensures c == (if typeCode in results then results[typeCode] else results[DefaultType])
  {
    if typeCode in results then results[typeCode] else results[DefaultType]
  }

  /** The tables the pages read have the entries the pages fall back on. */
  predicate HasFallbacks(themes: Table<ThemeMeta>, contents: Table<ThemeContent>) {
    && HasKey(themes, DefaultTheme)
    && HasKey(contents, DefaultTheme)
    && forall i :: 0 <= i < |contents| ==> DefaultType in contents[i].1.results
  }

  /** Each theme's `id` is the key it is stored under. */
  predicate IdsMatchKeys(themes: Table<ThemeMeta>) {
    forall i :: 0 <= i < |themes| ==> themes[i].1.id == themes[i].0
  }

  /** Every character table is keyed by canonical type codes. */
  predicate CanonicalResultKeys(contents: Table<ThemeContent>) {
    forall i, k :: 0 <= i < |contents| && k in contents[i].1.results ==> IsCanonicalType(k)
  }

  /** `labels[id] ?? fallback`: the entry, unless it is missing. */
  function LabelOr(labels: map<string, string>, id: string, fallback: string): (l: string)
    ensures id in labels ==> l == labels[id]
    ensures id !in labels ==> l == fallback
  {
    if id in labels then labels[id] else fallback
  }

  /** `t[k] || t.onepiece`. */
  function GetOrDefaultTheme<V>(t: Table<V>, k: string): (v: V)
    requires HasKey(t, DefaultTheme)
    ensures HasKey(t, k) ==> Some(v) == Get(t, k)
    ensures !HasKey(t, k) ==> Some(v) == Get(t, DefaultTheme)
  {
    match Get(t, k)
    case Some(v) => v
    case None => Get(t, DefaultTheme).value
  }

  /** `primary[k] || secondary[k] || secondary.onepiece`. */
  function GetEitherOrDefault<V>(primary: Table<V>, secondary: Table<V>, k: string): (v: V)
    requires HasKey(secondary, DefaultTheme)
    ensures HasKey(primary, k) ==> Some(v) == Get(primary, k)
    ensures !HasKey(primary, k) ==> v == GetOrDefaultTheme(secondary, k)
  {
    match Get(primary, k)
    case Some(v) => v
    case None => GetOrDefaultTheme(secondary, k)
  }

  /** Looked up with its fallback, a theme carries the id it was asked for, or "onepiece". */
  lemma GetOrDefaultThemeId(themes: Table<ThemeMeta>, k: string)
    requires IdsMatchKeys(themes) && HasKey(themes, DefaultTheme)
    ensures GetOrDefaultTheme(themes, k).id == if HasKey(themes, k) then k else DefaultTheme
  {
  }

  /** The same for the two-table lookup of the English page. */
  lemma GetEitherThemeId(primary: Table<ThemeMeta>, secondary: Table<ThemeMeta>, k: string)
    requires IdsMatchKeys(primary) && IdsMatchKeys(secondary) && HasKey(secondary, DefaultTheme)
    ensures GetEitherOrDefault(primary, secondary, k).id
      == if HasKey(primary, k) || HasKey(secondary, k) then k else DefaultTheme
  {
    GetOrDefaultThemeId(secondary, k);
  }

  /** Content found in a table, or its fallback, is one of the table's values. */
  lemma GetOrDefaultIsValue<V>(t: Table<V>, k: string)
    requires HasKey(t, DefaultTheme)
    ensures exists i :: 0 <= i < |t| && t[i].1 == GetOrDefaultTheme(t, k)
  {
  }

  /** Content from the two-table lookup is a value of one of the two tables. */
  lemma GetEitherIsValue<V>(primary: Table<V>, secondary: Table<V>, k: string)
    requires HasKey(secondary, DefaultTheme)
    ensures var v := GetEitherOrDefault(primary, secondary, k);
      (exists i :: 0 <= i < |primary| && primary[i].1 == v) || (exists i :: 0 <= i < |secondary| && secondary[i].1 == v)
  {
    GetOrDefaultIsValue(secondary, k);
  }

  /** A character table taken from a catalog has the properties the catalog promises of all of them. */
  lemma CatalogContentFacts(c: Catalog, v: ThemeContent)
    requires exists i :: 0 <= i < |c.contents| && c.contents[i].1 == v
    ensures AllHaveIstj(c) ==> DefaultType in v.results
    ensures CanonicalResultKeys(c.contents) ==> forall k :: k in v.results ==> IsCanonicalType(k)
    ensures CoversAllCodes(c) ==> Scoring.AllCodes <= v.results.Keys
  {
    var i :| 0 <= i < |c.contents| && c.contents[i].1 == v;
  }

  /**
   * `CONTENTS[themeId] || CONTENTS.onepiece` over one catalog: the Korean page's `CONTENTS` and
   * the Japanese page's `CONTENTS_EN`. The content chosen has what the catalog promises of all.
   */
  function ContentOrDefault(cat: Catalog, themeId: string): (c: ThemeContent)
    requires HasDefaultTheme(cat)
    ensures AllHaveIstj(cat) ==> DefaultType in c.results
    ensures CanonicalResultKeys(cat.contents) ==> forall k :: k in c.results ==> IsCanonicalType(k)
    ensures CoversAllCodes(cat) ==> Scoring.AllCodes <= c.results.Keys
  {
    var c := GetOrDefaultTheme(cat.contents, themeId);
    GetOrDefaultIsValue(cat.contents, themeId);
    CatalogContentFacts(cat, c);
    c
  }

  /** A value stored in a table whose ids match its keys carries the id it was looked up by. */
  lemma GetHasMatchingId(themes: Table<ThemeMeta>, k: string)
    requires IdsMatchKeys(themes) && HasKey(themes, k)
    ensures Get(themes, k).value.id == k
  {
  }

  /** A character table taken from a table of contents that satisfies `HasFallbacks`. */
  lemma ContentHasIstj(contents: Table<ThemeContent>, k: string)
    requires forall i :: 0 <= i < |contents| ==> DefaultType in contents[i].1.results
    requires HasKey(contents, k)
    ensures DefaultType in Get(contents, k).value.results
  {
  }

  /** The metadata a result page declares: title, alternates, and the Open Graph URL, title and image. */
  datatype PageMetadata = PageMetadata(title: string, alternates: Seo.Alternates, ogUrl: string, ogTitle: string, ogImage: string)

  /** `xs` lists some of the elements of `ys`, in the same order. */
  predicate IsSubsequence<T(==)>(xs: seq<T>, ys: seq<T>)
    decreases |ys|
  {
    xs == [] || (ys != [] && ((xs[0] == ys[0] && IsSubsequence(xs[1..], ys[1..])) || IsSubsequence(xs, ys[1..])))
  }

  lemma {:induction false} PrefixIsSubsequence<T>(xs: seq<T>, ys: seq<T>, n: nat)
    requires IsSubsequence(xs, ys) && n <= |xs|
    ensures IsSubsequence(xs[..n], ys)
    decreases |ys|
  {
    if n > 0 {
      if xs[0] == ys[0] && IsSubsequence(xs[1..], ys[1..]) {
        PrefixIsSubsequence(xs[1..], ys[1..], n - 1);
        assert xs[..n][1..] == xs[1..][..n - 1];
      } else {
        PrefixIsSubsequence(xs, ys[1..], n);
      }
    }
  }

  /** `themes.filter((item) => item.id !== currentId)`. */
  function OtherThemes(themes: seq<ThemeMeta>, currentId: string): (r: seq<ThemeMeta>)
    ensures forall x :: x in r <==> x in themes && x.id != currentId
    ensures IsSubsequence(r, themes)
    ensures |r| <= |themes|
  {
    if themes == [] then []
    else
      var rest := OtherThemes(themes[1..], currentId);
      if themes[0].id != currentId then [themes[0]] + rest else rest
  }

  /**
   * "Related tests": `.filter((item) => item.id !== currentId).slice(0, 2)`. At most two themes,
   * never the current one, in table order, and two whenever two others exist.
   */
  function RelatedThemes(themes: seq<ThemeMeta>, currentId: string): (r: seq<ThemeMeta>)
    ensures |r| <= 2
    ensures forall x :: x in r ==> x in themes && x.id != currentId
    ensures IsSubsequence(r, themes)
    ensures |r| == if |OtherThemes(themes, currentId)| < 2 then |OtherThemes(themes, currentId)| else 2
    ensures r == OtherThemes(themes, currentId)[..|r|]
  {
    var others := OtherThemes(themes, currentId);
    var n := if |others| < 2 then |others| else 2;
    PrefixIsSubsequence(others, themes, n);
    assert forall x :: x in others[..n] ==> x in others;
    others[..n]
  }

  /** `${origin}${localePrefix}/result?theme=${enc(themeId)}&type=${enc(typeCode)}`. */
  function ResultUrl(origin: string, localePrefix: string, enc: string -> string, themeId: string, typeCode: string): (u: string)
    ensures StartsWith(u, origin + localePrefix + "/result?theme=" + enc(themeId))
    ensures EndsWith(u, "&type=" + enc(typeCode))
    ensures |u| == |origin| + |localePrefix| + |"/result?theme="| + |enc(themeId)| + |"&type="| + |enc(typeCode)|
  {
    origin + localePrefix + "/result?theme=" + enc(themeId) + "&type=" + enc(typeCode)
  }

  /** The character right after the origin and its "/" tells the locale prefix of a result URL. */
  lemma ResultUrlLocaleChar(origin: string, localePrefix: string, enc: string -> string, themeId: string, typeCode: string)
    requires localePrefix == "" || |localePrefix| >= 2
    ensures |ResultUrl(origin, localePrefix, enc, themeId, typeCode)| > |origin| + 1
    ensures ResultUrl(origin, localePrefix, enc, themeId, typeCode)[|origin| + 1]
      == if localePrefix == "" then 'r' else localePrefix[1]
  {
    var rest := localePrefix + "/result?theme=" + enc(themeId) + "&type=" + enc(typeCode);
    assert ResultUrl(origin, localePrefix, enc, themeId, typeCode) == origin + rest;
  }

  /** The Korean, English and Japanese result URLs of one theme and type are three different URLs. */
  lemma LocaleUrlsDiffer(origin: string, enc: string -> string, themeId: string, typeCode: string)
    ensures var ko, en, ja := ResultUrl(origin, "", enc, themeId, typeCode),
      ResultUrl(origin, "/en", enc, themeId, typeCode), ResultUrl(origin, "/ja", enc, themeId, typeCode);
      ko != en && en != ja && ja != ko
  {
    ResultUrlLocaleChar(origin, "", enc, themeId, typeCode);
    ResultUrlLocaleChar(origin, "/en", enc, themeId, typeCode);
    ResultUrlLocaleChar(origin, "/ja", enc, themeId, typeCode);
  }

  /** `${origin}/og/${enc(themeId)}/${enc(typeCode)}` followed by `suffix`. */
  function OgImageUrl(origin: string, enc: string -> string, themeId: string, typeCode: string, suffix: string): (u: string)
    ensures StartsWith(u, origin + "/og/" + enc(themeId) + "/")
    ensures EndsWith(u, enc(typeCode) + suffix)
    ensures |u| == |origin| + |"/og/"| + |enc(themeId)| + |"/"| + |enc(typeCode)| + |suffix|
  {
    origin + "/og/" + enc(themeId) + "/" + enc(typeCode) + suffix
  }
}
