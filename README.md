# MBTI WORLD ANIMATION — a verified model of the quiz and its result pages

MBTI WORLD ANIMATION is a personality-quiz website. A visitor picks an animation theme and answers
its questions, and each answer votes for one letter of a four-letter type code (E/I, S/N, T/F,
J/P). The site then shows the character of that theme with that type. Result pages exist in
Korean (no path prefix), English (`/en`) and Japanese (`/ja`). Each page has its own metadata:
a canonical URL, hreflang alternates and Open Graph fields.

This project models the logic behind that:

- the quiz stepper and its scorer (`pages/TestRunner.tsx`). The stepper is a class whose
  answer list and index change in place. The tally loop is a method proved against a
  counting function;
- the Japanese question set (`lib/ja-test-content.ts`) and what its answers can score;
- locale handling of paths (`lib/i18n-config.ts`), SEO alternates (`lib/seo.ts`) and the site
  origin taken from the environment (`lib/site.ts`);
- the language toggle (`components/LanguageToggle.tsx`);
- the two AdSense loader conditions (`components/AdSenseScript.tsx`,
  `components/ConditionalAdsenseScript.tsx`);
- the A/B ad slot (`components/AdExperiment.tsx`). Local storage and the component state are
  classes changed in place, and the variant choice is proved against a pure function;
- the sitemap (`app/sitemap.ts`);
- the three result pages (`app/result/page.tsx`, `app/en/result/page.tsx`,
  `app/ja/result/page.tsx`): their query normalisation, fallbacks, redirects, views and
  metadata.

JavaScript semantics are written out where they matter:

- `a || b` skips an empty string, but `a ?? b` does not.
- The model treats `THEMES[k]` as an own-property lookup on an ordered table (`Tables.Table`);
  JavaScript also searches the prototype chain, which "## Left out" discusses. `Object.values`
  keeps insertion order.
- `toUpperCase` is ASCII case mapping.
- `trim` removes the ECMAScript whitespace set.
- A template literal prints `undefined` for a missing key.

Things the model cannot see are parameters:

- `encodeURIComponent` is an opaque function `enc`;
- the site origin is a string;
- the environment values are `Option`s;
- `Math.random()` is a real draw;
- `new Date()` is a value of a generic type;
- the data tables of `data.ts` and `data-en.ts` are `Catalog` parameters (a theme table and a
  content table).

The result pages are proved under stated assumptions about those tables:

- `Consistent`: every theme's id equals its key, no key is empty, result keys are canonical
  type codes, and every theme has an `ISTJ` result;
- `HasDefaultTheme`: `onepiece` is present;
- `CoversAllCodes`: all sixteen codes have results;
- for the Korean round trip only, `SameKeys`: the theme table and the content table have the
  same keys.

Two behaviours of the code are proved as they are:

- The Japanese page's metadata calls `localizedAlternatesFromUrls` with the Korean, English
  and Japanese URLs and `"ja"`. That function takes only three parameters, so it ignores the
  Japanese URL, and it treats every locale other than `"ko"` as English. So the Japanese page's
  canonical URL is the English result URL, and the Japanese URL appears nowhere among its
  alternates (`JaResultPage.CanonicalIsEnglish`).
- The Korean result page never redirects. It keeps an unknown type code in its share URL, so
  sharing is a round trip exactly when the type code is already normalised
  (`KoResultPage.ShareRoundTripIff`). `"a.png.png"` drifts over two shares
  (`KoResultPage.ShareUrlDrifts`).

## Model

| member | source | states |
|---|---|---|
| MbtiTypes.AxisOf | types.ts:2-3 | every letter is one of the two poles of its axis |
| MbtiTypes.Opposite | types.ts:2-3 | the opposite letter lies on the same axis and differs |
| MbtiTypes.PolesPartitionLetters | types.ts:2-3 | a letter is a pole of an axis exactly when that axis is its axis; the two poles differ |
| MbtiTypes.ParseLetter | types.ts:3 | a parsed character names the letter it was parsed from |
| MbtiTypes.ParseLetterChar | types.ts:3 | printing a letter and parsing it back gives the letter |
| Scoring.CountsOf | pages/TestRunner.tsx:41-42 | the tally has an entry for each of the eight letters |
| Scoring.TallyAnswers | pages/TestRunner.tsx:41-42 | the `forEach` loop leaves each letter's counter equal to the number of times it was answered |
| Scoring.TallyMatchesCountsOf | pages/TestRunner.tsx:41-49 | any tally that counts every letter equals `CountsOf` and gives the same type code |
| Scoring.Winner | pages/TestRunner.tsx:45-48 | the winner is one of the axis's two poles, the first exactly when it has at least as many votes |
| Scoring.TypeCodeOf | pages/TestRunner.tsx:44-49 | the code has four characters, the k-th being the winner of the k-th axis (E/I, S/N, T/F, J/P) |
| Scoring.TypeCodeByMajority | pages/TestRunner.tsx:44-49 | the code has four letters; position k is the first pole of axis k exactly when it got at least as many votes, else the second pole |
| Scoring.TieGoesToFirstPole | pages/TestRunner.tsx:45-48 | on a tie the first pole (E, S, T, J) wins |
| Scoring.ComputeType | pages/TestRunner.tsx:44-49 | every answer list yields one of the sixteen type codes |
| Scoring.CountIsMultiplicity | pages/TestRunner.tsx:42 | the counter of a letter is its multiplicity in the answers |
| Scoring.OrderIndependent | pages/TestRunner.tsx:41-49 | answer lists with the same answers in any order give the same tally and the same code |
| Scoring.CountAppend | pages/TestRunner.tsx:42 | answering once more adds one to that letter's counter only |
| Scoring.CountsSumToLength | pages/TestRunner.tsx:41-42 | the eight counters sum to the number of answers |
| QuizRunner.ResultPath | pages/TestRunner.tsx:51 | the path is "/result?theme=", the theme id, "&type=" and then one of the sixteen type codes |
| QuizRunner.TestRunner.constructor | pages/TestRunner.tsx:13-14 | a run starts at the first question with no answers |
| QuizRunner.TestRunner.Select | pages/TestRunner.tsx:28-53 | the answer at the current index is replaced or appended; before the last question the index advances; on the last the run holds one answer per question and goes to `/result?theme=…&type=<computed code>` |
| QuizRunner.TestRunner.Prev | pages/TestRunner.tsx:55-59 | the index goes back one step but never below zero; the answers are kept |
| JaTestContent.JaQuestionsShape | lib/ja-test-content.ts:11-124 | there are sixteen questions, cycling through the axes E/I, S/N, T/F, J/P, option A the first pole and option B the second |
| JaTestContent.QuestionsOnAxisConcat | lib/ja-test-content.ts:11-124 | the count of questions on an axis adds over concatenation |
| JaTestContent.FourQuestionsPerAxis | lib/ja-test-content.ts:11-124 | each axis has exactly four questions |
| JaTestContent.AxisVotes | lib/ja-test-content.ts:3-9 | answering each question with one of its options gives an axis exactly as many votes as it has questions |
| JaTestContent.JaAxisVotes | lib/ja-test-content.ts:11-124 | every axis gets four votes, and a 2–2 split goes to the first pole |
| JaTestContent.AllOptionAGivesESTJ | lib/ja-test-content.ts:11-124 | always choosing the first option scores ESTJ |
| JaTestContent.AllOptionBGivesINFP | lib/ja-test-content.ts:11-124 | always choosing the second option scores INFP |
| Tables.Get | app/result/page.tsx:24-26 | an own-property lookup finds a value exactly when the key is present, and the value is one stored under that key |
| Tables.Values | app/en/result/page.tsx:346 | `Object.values` lists the values in table order |
| Strings.Trim | lib/i18n-config.ts:13 | the result is a slice `s[a..b]` of the input with only whitespace outside it and no whitespace at either of its own ends |
| Strings.TrimOfTrimmed | lib/i18n-config.ts:13 | trimming a trimmed string changes nothing |
| Strings.TrimIdempotent | lib/i18n-config.ts:13 | trimming twice equals trimming once |
| Strings.TrimAllWhitespace | lib/i18n-config.ts:13 | a string of whitespace only trims to the empty string |
| Strings.ToUpper | app/result/page.tsx:11-14 | each character is upper-cased in place, nothing else changes |
| Strings.ToUpperOfUpper | app/result/page.tsx:11-14 | upper-casing a string with no lower-case letter changes nothing |
| Strings.FirstSegment | lib/i18n-config.ts:20 | the first segment is the text after the leading "/" up to the next "/" or the end |
| Strings.UpToSlashOfPrefix | lib/i18n-config.ts:20 | the text up to "/" of a slash-free word followed by "/…" is the word |
| I18nConfig.IsLocaleCode | lib/i18n-config.ts:7-9 | a string is a locale code exactly when it is the code of one of the three locales |
| I18nConfig.ParseLocale | lib/i18n-config.ts:1-9 | a string is a supported locale exactly when it parses, and it parses to the locale of that code |
| I18nConfig.LocaleCodeRoundTrip | lib/i18n-config.ts:1-9 | every locale's code is supported and parses back to the locale |
| I18nConfig.NormalizePath | lib/i18n-config.ts:11-16 | the result starts with "/" and has no surrounding whitespace; a blank or "/" input gives "/", a path with "/" is kept, others get "/" in front |
| I18nConfig.NormalizePathFixedPoints | lib/i18n-config.ts:11-16 | a path is left unchanged exactly when it already starts with "/" and is trimmed |
| I18nConfig.NormalizePathIdempotent | lib/i18n-config.ts:11-16 | normalising twice equals normalising once |
| I18nConfig.BlankPathIsRoot | lib/i18n-config.ts:12-14 | an empty or whitespace-only path normalises to "/" |
| I18nConfig.SegmentLocale | lib/i18n-config.ts:20-22 | the locale of a normalised path is English or Japanese exactly when its first segment is "en" or "ja", else Korean |
| I18nConfig.LocaleFromPath | lib/i18n-config.ts:18-23 | the locale is English or Japanese exactly when the first segment of the normalised path is `en` or `ja`, else Korean |
| I18nConfig.StripSegment | lib/i18n-config.ts:27-30 | on a normalised path: Korean paths are kept; an "en" or "ja" path is "/" + its code followed by the result, and the bare "/en" or "/ja" gives "/" |
| I18nConfig.StripLocalePrefix | lib/i18n-config.ts:25-31 | a Korean path is only normalised; otherwise the normalised path is "/" + its code followed by the result, and the bare "/en" or "/ja" gives "/" |
| I18nConfig.WithLocalePrefix | lib/i18n-config.ts:33-38 | Korean keeps the base path; English and Japanese put "/en" or "/ja" in front, with "/" becoming the bare prefix |
| I18nConfig.LocalizePath | lib/i18n-config.ts:33-38 | the result is normalised and is the stripped path given the target prefix |
| I18nConfig.PrefixThenStrip | lib/i18n-config.ts:18-38 | prefixing a base path with "/en" or "/ja" makes it read as that locale, and stripping gives the base back |
| I18nConfig.LocalizeRoundTrip | lib/i18n-config.ts:18-38 | localising to English or Japanese gives a path of that locale whose stripped form is the stripped input |
| I18nConfig.LocalizeToKoreanCanStayEnglish | lib/i18n-config.ts:25-38 | "/en/en" localised to Korean is "/en", which still reads as English: stripping removes one prefix only |
| Seo.NormalizePath | lib/seo.ts:5-10 | the SEO path normalisation is the locale module's normalisation |
| Seo.EnglishPath | lib/seo.ts:14 | the English path is the Korean path with "/en" in front, reads as English and strips back to the Korean path |
| Seo.LocalizedAlternatesFromUrls | lib/seo.ts:28-41 | canonical is the Korean URL only for `"ko"`, else the English URL; the languages are exactly ko-KR, en-US and x-default, x-default being the Korean URL |
| Seo.LocalizedAlternates | lib/seo.ts:12-26 | ko-KR and x-default are origin + normalised path, en-US is origin + that path with "/en", and canonical follows the locale argument |
| Seo.AlternatesAreLocalized | lib/seo.ts:12-26 | x-default equals ko-KR, and en-US is origin + an English path whose stripped form gives the ko-KR URL |
| Seo.AlternatesMatchLocalizePath | lib/seo.ts:12-26 | for a Korean path the two alternates are the path localised to Korean and to English |
| Seo.EnglishInputIsPrefixedAgain | lib/seo.ts:14 | a path is prefixed with "/en" even when it already reads as English |
| Site.StripTrailingSlashes | lib/site.ts:2 | the result is a prefix without a final "/", and only "/" characters were removed |
| Site.NormalizeSiteOrigin | lib/site.ts:1-5 | the result has an http(s) scheme: the trimmed, slash-stripped value when it has one, else "https://" before it |
| Site.NormalizeFixedPoints | lib/site.ts:1-5 | a value is left unchanged exactly when it has an http(s) scheme, is trimmed and does not end in "/" |
| Site.NormalizeIdempotentIff | lib/site.ts:1-5 | normalising twice equals once exactly when the trimmed, slash-stripped value is non-empty and does not end in whitespace |
| Site.BareSchemeIsNotAnOrigin | lib/site.ts:1-5 | "https://" normalises to "https://https:" |
| Site.RawSiteOrigin | lib/site.ts:7-10 | the first set and non-empty of NEXT_PUBLIC_SITE_URL and SITE_URL, else the default |
| Site.SiteOrigin | lib/site.ts:12 | the origin has an http(s) scheme and is the normalised raw value |
| Site.DefaultSiteOrigin | lib/site.ts:7-12 | with neither value set, or both empty, the origin is the default unchanged |
| LanguageToggle.Pathname | components/LanguageToggle.tsx:7 | a missing or empty pathname reads as "/" |
| LanguageToggle.IsEnglish | components/LanguageToggle.tsx:9 | a path is English when it is "/en" or starts with "/en/"; `EnglishIffFirstSegment` shows this is a first segment of "en" |
| LanguageToggle.StrippedPath | components/LanguageToggle.tsx:11 | an English path without its "/en": "/en" gives "/", and otherwise the path is "/en" followed by the result, which starts with "/" |
| LanguageToggle.TargetPath | components/LanguageToggle.tsx:9-14 | an English path loses its "/en" ("/en" becomes "/"); any other path gains "/en" ("/" becomes "/en") |
| LanguageToggle.Href | components/LanguageToggle.tsx:15-16 | a non-empty query string is appended after "?", an empty one is dropped |
| LanguageToggle.EnglishIsWholeSegment | components/LanguageToggle.tsx:9 | "/en" and "/en/…" are English, "/english…" is not |
| LanguageToggle.KoreanGoesToEnglish | components/LanguageToggle.tsx:11-14 | a non-English path always toggles to an English one |
| LanguageToggle.ToggleTwiceIff | components/LanguageToggle.tsx:9-14 | toggling twice returns the path exactly when it is not "/en/", "/en/en" or "/en/en/…" |
| LanguageToggle.EnglishIffFirstSegment | components/LanguageToggle.tsx:9 | a path is English exactly when its first segment is `en` |
| LanguageToggle.AgreesWithLocalizePath | components/LanguageToggle.tsx:9-14 | on normalised paths the toggle's English test is the locale module's, English paths go to their stripped form, and Korean paths go to their English localisation |
| AdSenseScript.RendersScript | components/AdSenseScript.tsx:13-21 | the script renders exactly when the pathname is non-empty and matches a content route |
| AdSenseScript.AnyMatches | components/AdSenseScript.tsx:14 | `matchers.some(m => m.test(pathname))` as a recursion over the list; `AnyMatchesIff` gives its meaning |
| AdSenseScript.AnyMatchesIff | components/AdSenseScript.tsx:6-14 | some matcher matches exactly when there is an index of a matching one |
| AdSenseScript.SegmentRootIff | components/AdSenseScript.tsx:6-11 | a "/name" matcher matches exactly the paths whose first segment is `name` |
| AdSenseScript.IsContentRoute | components/AdSenseScript.tsx:13-14 | some matcher of `CONTENT_ROUTE_MATCHERS` accepts the path; `ContentRouteIff` gives its meaning |
| AdSenseScript.ContentRouteIff | components/AdSenseScript.tsx:6-14 | content routes are exactly "/" and the paths under `select`, `test` or `result` |
| ConditionalAdsenseScript.HasSegmentAfter | components/ConditionalAdsenseScript.tsx:10 | `^<prefix>[^/]+`: the path starts with the prefix and a character other than "/" follows it; `LocalePrefixedPattern` and `TestRouteIsLocaleFree` use it |
| ConditionalAdsenseScript.IsTestRoute | components/ConditionalAdsenseScript.tsx:8-11 | a missing or empty pathname is no test route; otherwise one of the three test patterns accepts it; `TestRouteIsLocaleFree` gives its meaning |
| ConditionalAdsenseScript.RendersScript | components/ConditionalAdsenseScript.tsx:8-16 | the script renders exactly when the path is not a test route; a missing path renders it |
| ConditionalAdsenseScript.BareTestIsNotTestRoute | components/ConditionalAdsenseScript.tsx:8-11 | "/test", "/test/" and "/ko/test/…" are not test routes |
| ConditionalAdsenseScript.LocalePrefixedPattern | components/ConditionalAdsenseScript.tsx:8-11 | behind "/en" or "/ja" a path is a test route exactly when the rest is "/test/<segment>" |
| ConditionalAdsenseScript.TestRouteIsLocaleFree | components/ConditionalAdsenseScript.tsx:8-11 | on a normalised path the three patterns together are "/test/<segment>" after stripping the locale prefix |
| AdExperiment.StorageKey | components/AdExperiment.tsx:28 | `ab_ads_${experimentKey}`; `OtherKeysUnchanged` shows it is the only key written |
| AdExperiment.ParseVariant | components/AdExperiment.tsx:23-35 | a value names a variant exactly when it is "A" or "B" |
| AdExperiment.Resolve | components/AdExperiment.tsx:23-35 | storage is unchanged or gets only the chosen variant under `ab_ads_<key>`; without a URL override the key holds the chosen variant afterwards |
| AdExperiment.NoWindowIsA | components/AdExperiment.tsx:24 | without a browser window the variant is A and storage is untouched |
| AdExperiment.UrlOverrideWins | components/AdExperiment.tsx:25-26 | a query value "A" or "B" wins and storage is untouched |
| AdExperiment.StoredVariantWins | components/AdExperiment.tsx:28-30 | otherwise a stored "A" or "B" wins, whatever the draw |
| AdExperiment.FreshAssignment | components/AdExperiment.tsx:32-34 | otherwise a draw below one half gives A, any other B, and the choice is stored |
| AdExperiment.OtherKeysUnchanged | components/AdExperiment.tsx:23-35 | no storage key other than the experiment's is written |
| AdExperiment.VariantSticks | components/AdExperiment.tsx:23-35 | once resolved without an override, later resolutions return the same variant and leave storage as is, whatever their draw |
| AdExperiment.Storage.Get | components/AdExperiment.tsx:29 | `getItem` returns the stored value or null |
| AdExperiment.Storage.Set | components/AdExperiment.tsx:33 | `setItem` writes one key and keeps the others |
| AdExperiment.ResolveVariant | components/AdExperiment.tsx:23-35 | the variant and the new storage contents are those of `Resolve` on the old contents |
| AdExperiment.SlotFor | components/AdExperiment.tsx:50-53 | variant A takes SLOT_A, else the fallback; variant B takes SLOT_B, else SLOT_A, else the fallback; so a slot is set exactly when one of those it may fall back to is |
| AdExperiment.UnsetSlotBMatchesA | components/AdExperiment.tsx:50-53 | with SLOT_B unset both variants show the same slot |
| AdExperiment.VariantAIgnoresSlotB | components/AdExperiment.tsx:50-53 | variant A never depends on SLOT_B |
| AdExperiment.AdSlot.constructor | components/AdExperiment.tsx:42-43 | the component starts unmounted with variant A |
| AdExperiment.AdSlot.Mount | components/AdExperiment.tsx:45-48 | after mounting, the variant and storage are those of `Resolve` |
| AdExperiment.AdSlot.Render | components/AdExperiment.tsx:55-64 | an ad is shown exactly when mounted with a non-empty slot, and it carries the variant's slot |
| Sitemap.ThemeIds | app/sitemap.ts:24-31 | the ids are the themes' ids in table order |
| Sitemap.BaseEntries | app/sitemap.ts:9-22 | one entry per fixed page, origin + path, all stamped now |
| Sitemap.TestEntries | app/sitemap.ts:24-31 | one quiz entry per theme under the given locale prefix, with the encoded id |
| Sitemap.ResultPairs | app/sitemap.ts:33-44 | every theme is paired with each of the four popular types, theme by theme |
| Sitemap.ResultEntries | app/sitemap.ts:33-44 | entry k is the result URL of pair k under the locale prefix, one entry per pair |
| Sitemap.Sitemap | app/sitemap.ts:46 | the sitemap has 12 + 10 entries per theme |
| Sitemap.SitemapLayout | app/sitemap.ts:46 | the sitemap is the base pages, the Korean then English quiz pages, and the Korean then English result pages, in that order |
| Sitemap.TestEntriesAt | app/sitemap.ts:24-31 | entry 12 + i is the Korean quiz of theme i, entry 12 + n + i the English one |
| Sitemap.ResultEntriesAt | app/sitemap.ts:33-46 | entry 12 + 2n + 4i + j is the Korean result URL of theme i and popular type j, entry 12 + 6n + 4i + j the English one |
| Sitemap.SameModificationTime | app/sitemap.ts:8 | every entry carries the same timestamp |
| Sitemap.PopularTypesAreCodes | app/sitemap.ts:5 | the popular types are four-letter upper-case codes |
| Sitemap.NoJapanesePages | app/sitemap.ts:9-46 | every entry is under the origin and none is a Japanese page |
| ResultCommon.StripPng | app/ja/result/page.tsx:14-17 | a trailing ".png" in any case is removed, anything else kept |
| ResultCommon.NormalizeType | app/ja/result/page.tsx:14-17 | a missing or empty type is ISTJ; the result is upper case |
| ResultCommon.NormalizeTypeOfText | app/result/page.tsx:11-14 | a non-empty type is upper-cased, and one ending in ".png" in any case loses it |
| ResultCommon.NormalizeTypeOfIstjPng | app/en/result/page.tsx:14-17 | "istj.PNG" names ISTJ |
| ResultCommon.CanonicalTypeByShape | app/en/result/page.tsx:14-17 | a non-empty upper-case type not ending in ".PNG" is left unchanged |
| ResultCommon.CodesAreCanonical | app/en/result/page.tsx:14-17 | every type code is left unchanged |
| ResultCommon.NormalizeTypeTwiceDiffers | app/result/page.tsx:11-14 | normalising is not idempotent: "a.png.png" gives "A.PNG", which gives "A" |
| ResultCommon.ResolveThemeId | app/ja/result/page.tsx:19-24 | the theme id is the query's when it is a present, non-empty, known key; a missing, empty or unknown value gives `onepiece` |
| ResultCommon.ResolveType | app/ja/result/page.tsx:26-33 | the normalised type is kept exactly when the theme has a result for it or it is ISTJ; a type the theme has no result for gives ISTJ |
| ResultCommon.ResolveTypeStable | app/en/result/page.tsx:26-35 | a resolved type normalises and resolves to itself |
| ResultCommon.DescOrIstj | app/ja/result/page.tsx:175 | `table[type] \|\| table.ISTJ`: a present non-empty text, else ISTJ's |
| ResultCommon.DescOrIstjNullish | app/ja/result/page.tsx:257 | `table[type] ?? table.ISTJ`: a present text even when empty, else ISTJ's |
| ResultCommon.CharacterOrIstj | app/en/result/page.tsx:128 | the type's character, else ISTJ's |
| ResultCommon.LabelOr | app/ja/result/page.tsx:166 | the localised label when there is one, else the theme's own label |
| ResultCommon.GetOrDefaultTheme | app/result/page.tsx:24-26 | the value under the key when present, else the value under `onepiece` |
| ResultCommon.GetEitherOrDefault | app/en/result/page.tsx:125-126 | the English table's value when present, else the Korean table's value or its `onepiece` value |
| ResultCommon.GetOrDefaultThemeId | app/result/page.tsx:24-26 | the theme found has the requested id when it is present, else `onepiece` |
| ResultCommon.GetEitherThemeId | app/en/result/page.tsx:125-126 | the theme found has the requested id when either table has it, else `onepiece` |
| ResultCommon.GetEitherIsValue | app/en/result/page.tsx:125-126 | the value found is one stored in one of the two tables |
| ResultCommon.GetHasMatchingId | app/result/page.tsx:24-26 | in a table whose ids match its keys, the theme found under a key has that id |
| ResultCommon.ContentHasIstj | app/result/page.tsx:24-26 | content found under a key has an ISTJ result when all contents do |
| ResultCommon.ContentOrDefault | app/result/page.tsx:25 | `CONTENTS[id] \|\| CONTENTS.onepiece` over one catalog (the Korean page's `CONTENTS`, the Japanese page's `CONTENTS_EN` at app/ja/result/page.tsx:117): the content chosen inherits ISTJ, canonical keys and full coverage from the catalog |
| ResultCommon.OtherThemes | app/ja/result/page.tsx:433-436 | exactly the themes with another id, in their original order |
| ResultCommon.RelatedThemes | app/ja/result/page.tsx:433-436 | the first two other themes in table order (a prefix of the themes other than the current one), or all of them when fewer |
| ResultCommon.ResultUrl | app/ja/result/page.tsx:125-127 | the URL starts with the origin, the locale prefix, "/result?theme=" and the encoded theme id, ends with "&type=" and the encoded type, and has exactly the length of those parts, so nothing else lies between them |
| ResultCommon.LocaleUrlsDiffer | app/ja/result/page.tsx:125-127 | the Korean, English and Japanese result URLs of the same result are pairwise different |
| ResultCommon.OgImageUrl | app/ja/result/page.tsx:122 | the URL starts with the origin, "/og/", the encoded theme id and "/", ends with the encoded type and the suffix, and has exactly the length of those parts |
| EnResultPage.ShortDescKeys | app/en/result/page.tsx:50-67 | the English short descriptions cover exactly the sixteen codes |
| EnResultPage.ShortDescsNonEmpty | app/en/result/page.tsx:50-67 | no short description is empty |
| EnResultPage.LongDescsExtendShort | app/en/result/page.tsx:69-74 | each long description is built for the same codes and is longer than the short one |
| EnResultPage.ThemeLabel | app/en/result/page.tsx:129 | the English label when there is one, else the theme's own label |
| EnResultPage.ShortDesc | app/en/result/page.tsx:138 | `MBTI_SHORT_DESCS_EN[type] \|\| MBTI_SHORT_DESCS_EN.ISTJ`; `DescriptionsForCodes` gives its value |
| EnResultPage.LongDesc | app/en/result/page.tsx:277 | `MBTI_LONG_DESCS_EN[type] \|\| MBTI_LONG_DESCS_EN.ISTJ`; `DescriptionsForCodes` gives its value |
| EnResultPage.DescriptionsForCodes | app/en/result/page.tsx:138 | a code shows its own short and long description, any other type ISTJ's |
| EnResultPage.ContentFor | app/en/result/page.tsx:125-126 | the content chosen inherits ISTJ, canonical keys and full coverage from both tables |
| EnResultPage.Resolve | app/en/result/page.tsx:119-136 | the resolved type has a result in the resolved content |
| EnResultPage.Redirects | app/en/result/page.tsx:134-136 | the page redirects when the raw theme is not the resolved theme id or the normalised type is not the resolved type |
| EnResultPage.ShareUrl | app/en/result/page.tsx:131 | the share URL is the result URL under "/en", never the Korean or Japanese one |
| EnResultPage.ViewOf | app/en/result/page.tsx:125-132 | the view shows the resolved theme and type, with the "/en" share URL |
| EnResultPage.Page | app/en/result/page.tsx:119-136 | a redirect goes to the English URL of the resolved result; a render happens only when the query already names the shown theme and type |
| EnResultPage.Metadata | app/en/result/page.tsx:76-117 | the alternates have exactly the three hreflang keys |
| EnResultPage.ThemeIdIsResolved | app/en/result/page.tsx:19-24 | the page's theme id is the query's when either table knows it, else `onepiece` |
| EnResultPage.RenderIff | app/en/result/page.tsx:134-136 | the page renders exactly when the theme is known and its content has a result for the normalised type |
| EnResultPage.ResolutionIsStable | app/en/result/page.tsx:119-136 | the query for the resolved result resolves to itself and does not redirect |
| EnResultPage.RedirectSettles | app/en/result/page.tsx:134-136 | a redirect leads to a page that renders with that URL as its share URL, and a rendered page is that page |
| EnResultPage.MetadataMatchesPage | app/en/result/page.tsx:76-136 | canonical and og:url are the page's own URL (the redirect target or the share URL), and x-default is the Korean URL |
| EnResultPage.ThemeLookupOrder | app/en/result/page.tsx:125-126 | the English table is consulted first, then the Korean one, then `onepiece` |
| EnResultPage.PngSpellingNamesSamePage | app/en/result/page.tsx:14-17 | `istj.PNG` and `ISTJ` give the same response |
| EnResultPage.CodeQueryRenders | app/en/result/page.tsx:119-136 | a known theme with a type code renders, sharing its own English URL |
| EnResultPage.SitemapResultsRender | app/sitemap.ts:33-46 | every English result page listed in the sitemap renders and shares the listed URL |
| JaResultPage.ShortDescKeys | app/ja/result/page.tsx:48-65 | the Japanese short descriptions cover exactly the sixteen codes |
| JaResultPage.ShortDescsNonEmpty | app/ja/result/page.tsx:48-65 | no short description is empty |
| JaResultPage.LongDescsExtendShort | app/ja/result/page.tsx:67-72 | each long description is built for the same codes and is longer than the short one |
| JaResultPage.CharacterDescKeys | app/ja/result/page.tsx:74-91 | character descriptions exist for exactly the sixteen codes |
| JaResultPage.EpisodeNoteKeys | app/ja/result/page.tsx:93-110 | episode notes exist for exactly the sixteen codes |
| JaResultPage.EpisodeNotesNonEmpty | app/ja/result/page.tsx:93-110 | no episode note is empty |
| JaResultPage.ThemeLabel | app/ja/result/page.tsx:166 | the Japanese label when there is one, else the theme's own label |
| JaResultPage.EpisodeNote | app/ja/result/page.tsx:292-299 | a note is shown exactly when one is stored for the type and it is non-empty |
| JaResultPage.ShortDesc | app/ja/result/page.tsx:175 | `MBTI_SHORT_DESCS_JA[type] \|\| MBTI_SHORT_DESCS_JA.ISTJ`; `ShortDescFor` gives its value |
| JaResultPage.LongDesc | app/ja/result/page.tsx:332 | `MBTI_LONG_DESCS_JA[type] \|\| MBTI_LONG_DESCS_JA.ISTJ`; `LongDescFor` gives its value |
| JaResultPage.CharacterDesc | app/ja/result/page.tsx:257 | `CHARACTER_DESC_JA[type] ?? CHARACTER_DESC_JA.ISTJ`; `CharacterDescFor` gives its value |
| JaResultPage.ShortDescFor | app/ja/result/page.tsx:175 | a code shows its own short description, any other type ISTJ's |
| JaResultPage.LongDescFor | app/ja/result/page.tsx:332 | a code shows its own long description, any other type ISTJ's |
| JaResultPage.CharacterDescFor | app/ja/result/page.tsx:257 | a code shows its own character description, any other type ISTJ's |
| JaResultPage.EpisodeShownIff | app/ja/result/page.tsx:292-299 | an episode note is shown exactly for the sixteen codes |
| JaResultPage.Resolve | app/ja/result/page.tsx:156-173 | the resolved type has a result in the resolved content |
| JaResultPage.Redirects | app/ja/result/page.tsx:171-173 | the page redirects when the raw theme is not the resolved theme id or the normalised type is not the resolved type |
| JaResultPage.ShareUrl | app/ja/result/page.tsx:168 | the share URL is the result URL under "/ja", never the Korean or English one |
| JaResultPage.ViewOf | app/ja/result/page.tsx:162-169 | the view shows the resolved theme and type, with the "/ja" share URL |
| JaResultPage.Page | app/ja/result/page.tsx:156-173 | a redirect goes to the Japanese URL of the resolved result; a render happens only when the query already names the shown theme and type |
| JaResultPage.Metadata | app/ja/result/page.tsx:112-154 | the alternates have exactly the three hreflang keys |
| JaResultPage.ThemeIdIsResolved | app/ja/result/page.tsx:19-24 | the theme id is the query's when the English table knows it, else `onepiece` |
| JaResultPage.RenderIff | app/ja/result/page.tsx:171-173 | the page renders exactly when the English table knows the theme and its content has a result for the normalised type |
| JaResultPage.ResolutionIsStable | app/ja/result/page.tsx:156-173 | the query for the resolved result resolves to itself and does not redirect |
| JaResultPage.RedirectSettles | app/ja/result/page.tsx:171-173 | a redirect leads to a page that renders with that URL as its share URL, and a rendered page is that page |
| JaResultPage.CanonicalIsEnglish | app/ja/result/page.tsx:125-137 | og:url is the Japanese page URL, but canonical is the English URL of the result, and the Japanese URL is not among the alternates |
| JaResultPage.UnknownThemeRedirects | app/ja/result/page.tsx:116-119 | a theme missing from the English table redirects to the Japanese `onepiece` page of the same code |
| JaResultPage.KoreanOnlyThemeRedirects | app/ja/result/page.tsx:116-119 | a theme only the Korean table has renders in English but redirects in Japanese |
| KoResultPage.ThemeIdOf | app/result/page.tsx:21 | the query's theme when set and non-empty, else `onepiece` |
| KoResultPage.Page | app/result/page.tsx:60-69 | the shown type is the normalised query type, even when unknown, and the share URL names the shown theme and type |
| KoResultPage.SummaryKeyword | app/result/page.tsx:72 | the keyword line carries the type's short description, or the text `undefined` when there is none |
| KoResultPage.Metadata | app/result/page.tsx:20-58 | the page declares no language alternates |
| KoResultPage.ThemeFallback | app/result/page.tsx:21-26 | the shown theme is the query's when known, else `onepiece` |
| KoResultPage.UnknownTypeIsKept | app/result/page.tsx:22-26 | an unknown type is kept as the shown type but ISTJ's character is shown |
| KoResultPage.SettledLookups | app/result/page.tsx:21-26 | looking up the shown theme's id again gives the same theme and content |
| KoResultPage.ShareRoundTripIff | app/result/page.tsx:60-69 | opening the share URL shows the same page exactly when the shown type is already normalised |
| KoResultPage.ShareUrlDrifts | app/result/page.tsx:11-14 | "a.png.png" is shown as "A.PNG" and its share URL shows "A" |
| KoResultPage.MetadataMatchesPage | app/result/page.tsx:20-69 | canonical and og:url are the share URL, og:image is the page image, and the titles carry the shown type (and character name) |
| KoResultPage.CodeQueryIsSettled | app/result/page.tsx:60-69 | a known theme with a type code shows that theme and type and shares to itself |
| KoResultPage.SitemapResultsAreShareUrls | app/sitemap.ts:33-46 | every Korean result URL in the sitemap is the share URL of the page it opens, and that page shares to itself |

## Left out

- The data tables (`data.ts`, `data-en.ts`) and their prose are parameters of the result
  pages and the sitemap. Their contents are not part of this model. The fixed Japanese and
  English description tables of the result pages are modelled, as are the labels.
- Rendering, styling, animation (`setTimeout`, the 300 ms transition, the progress bar),
  JSON-LD blocks, share buttons and the Korean page's prose around the modelled texts are left
  out. Navigation is modelled as the returned destination path.
- QuizRunner.TestRunner.constructor: requires a theme with questions. The source's redirect to
  `/select` for an unknown theme is a navigation effect and is not modelled. The lookup at
  pages/TestRunner.tsx:10-11 has no `hasOwnProperty` guard either. A theme id naming an
  `Object.prototype` member gives a truthy theme and content, which skips that redirect, and
  line 25 then throws reading `content.questions`. The `requires` leaves that case out too.
- QuizRunner.TestRunner.Select: the result path uses the theme id as given, with no encoding,
  as the source does. The `animating` flag is not modelled. The model also advances the index
  at once, while the source moves it forward only 300 ms after the click
  (pages/TestRunner.tsx:33-38), through a timer that sets the index captured at the click plus
  one. A second click inside that window overwrites the same answer slot. A Prev inside it is
  undone when the timer fires.
- JaTestContent: the prompt and option label texts of the Japanese questions are left out. Only
  the letters each option votes for are modelled.
- `encodeURIComponent` is an opaque function parameter. The properties proved do not depend on
  what it does.
- Strings.ToUpper: maps ASCII letters only. JavaScript's `toUpperCase` also maps non-ASCII
  letters. The type codes and ".png" suffixes that matter here are ASCII.
- `process.env`, `Math.random()` and `new Date()` are parameters. Which values they take at run
  time is not modelled.
- AdExperiment.AdSlot.Render: the `adsbygoogle.push` call itself is an external effect and is
  not modelled, only the condition under which it happens. Storage exceptions (private mode)
  are not modelled.
- Tables.Get: own-property lookup only. JavaScript's `t[k]` also finds keys inherited from
  `Object.prototype` (`constructor`, `toString`, `valueOf`, `__proto__`, ...), and the model
  treats them as missing. The English and Japanese result pages guard with `hasOwnProperty`
  first, so for them the two agree. The Korean result page and the quiz page do not; see
  KoResultPage.Page and QuizRunner.TestRunner.constructor.
- KoResultPage.Page: app/result/page.tsx:21-26 and 61-66 look the raw theme up with no
  `hasOwnProperty` guard. For a theme naming an `Object.prototype` member (`?theme=constructor`)
  the source takes `Object` as the theme and throws a TypeError reading `content.results`, a
  server error in both the page and `generateMetadata`. The model shows the `onepiece` page for
  that query instead, and KoResultPage.ThemeFallback and KoResultPage.Metadata inherit this.
- KoResultPage.ShareRoundTripIff: assumes the theme and content tables have the same keys. The
  source does not guarantee it, and without it a theme with no content falls back to the
  `onepiece` content.
- Next.js routing and middleware, and the `lib/i18n.ts` dictionaries, are not part of this
  model.
