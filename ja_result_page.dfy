/**
 * The Japanese result page (app/ja/result/page.tsx). It reads the English data only: the theme
 * must be a key of the English theme table, and the type is resolved against the theme's
 * English character table. Like the English page it redirects permanently to its share URL
 * whenever the query differs from what it resolved.
 */
module JaResultPage {
  import opened Wrappers
  import opened MbtiTypes
  import opened Tables
  import opened ResultCommon
  import Seo
  import Site
  import Scoring
  import EnResultPage

  /** `THEME_LABELS_JA`: the Japanese label of each theme. */
  const ThemeLabelsJa: map<string, string> := map[
    "onepiece" := "ワンピース",
    "naruto" := "NARUTO",
    "fma" := "鋼の錬金術師",
    "aot" := "進撃の巨人",
    "shinchan" := "クレヨンしんちゃん",
    "jujutsu" := "呪術廻戦"
  ]

  /** `MBTI_SHORT_DESCS_JA`: the short keyword description of each type code. */
  const ShortDescsJa: map<string, string> := map[
    "ISTJ" := "信頼性・責任感・一貫性",
    "ISFJ" := "配慮・支援・献身",
    "INFJ" := "洞察・意味づけ・内面的整合性",
    "INTJ" := "戦略性・体系化・長期視点",
    "ISTP" := "実践的問題解決・冷静な対応",
    "ISFP" := "感受性・自由さ・調和感覚",
    "INFP" := "価値観・共感性・誠実さ",
    "INTP" := "分析力・探究心・論理性",
    "ESTP" := "行動力・適応力・突破力",
    "ESFP" := "活力・温かさ・社交性",
    "ENFP" := "発想力・情熱・可能性志向",
    "ENTP" := "実験精神・議論力・革新性",
    "ESTJ" := "構造化・統率力・実行力",
    "ESFJ" := "協調性・面倒見・共同体志向",
    "ENFJ" := "鼓舞力・支援力・成長志向",
    "ENTJ" := "決断力・指揮力・達成志向"
  ]

  /** `MBTI_LONG_DESCS_JA`: one sentence pattern filled with each short description. */
  const LongDescsJa: map<string, string> := map t | t in ShortDescsJa ::
    t + "タイプは、" + ShortDescsJa[t] + "の傾向と結びつけて理解されます。判断の軸が比較的一貫しており、強みを意識して活かせると安定した成果につながりやすいタイプです。固定的なラベルではなく、自己理解のヒントとして活用してください。"

  /** `CHARACTER_DESC_JA`: the character description shown for each type code. */
  const CharacterDescsJa: map<string, string> := map[
    "ISTJ" := "責任を背負い、約束を守りながら着実に前へ進む安定型。",
    "ISFJ" := "周囲を丁寧に支え、関係性を守ることに強い温かいサポーター。",
    "INFJ" := "全体の意味を捉え、静かな信念で方向性を示す洞察型。",
    "INTJ" := "長期戦略を描き、最適解に向けて構造的に進める設計者タイプ。",
    "ISTP" := "状況を素早く把握し、実践的な一手で問題を解決する職人型。",
    "ISFP" := "感受性と自由さを活かし、自然体で周囲に良い影響を与えるタイプ。",
    "INFP" := "価値観に忠実で、共感を軸に人と向き合う理想追求型。",
    "INTP" := "論理と好奇心で本質を掘り下げ、独自の視点を生み出す分析型。",
    "ESTP" := "瞬発力と現場対応に優れ、停滞した流れを動かすアクション型。",
    "ESFP" := "場の空気を明るくし、人を巻き込みながら前進するムードメーカー。",
    "ENFP" := "新しい可能性を見つけ、情熱で周囲を動かすアイデア実行型。",
    "ENTP" := "仮説検証を繰り返し、変化を起こす議論と発想のイノベーター。",
    "ESTJ" := "秩序と実行を重視し、チームを現実的に前進させる統率者。",
    "ESFJ" := "相手の状態をよく見て、協調を保ちながら支える関係調整型。",
    "ENFJ" := "人の成長を促し、方向性と熱量を同時に作るリーダータイプ。",
    "ENTJ" := "目的達成に向けて意思決定し、全体を牽引する指揮官タイプ。"
  ]

  /** `EPISODE_NOTE_JA`: the note shown in the episode section for each type code. */
  const EpisodeNotesJa: map<string, string> := map[
    "ISTJ" := "混乱した状況でも手順と責任を守り、チームを安定させる判断が象徴的です。",
    "ISFJ" := "周囲の状態を丁寧に見ながら、必要な場面で自己犠牲をいとわない姿勢が表れます。",
    "INFJ" := "全体の意味と未来を見据え、静かな決意で方向を示す場面が印象的です。",
    "INTJ" := "長期設計にもとづく判断で、短期的な混乱を越えて成果へ導く流れが見えます。",
    "ISTP" := "危機局面で状況を瞬時に見極め、最短で有効な一手を打つ特性が表れます。",
    "ISFP" := "感受性を保ちながら自分の価値を守り、行動で思いを示す姿が特徴的です。",
    "INFP" := "信念と共感を軸に、対立の中でも人間的な意味を守ろうとする傾向が見えます。",
    "INTP" := "分析と仮説検証を積み重ね、複雑な状況を論理的に整理する力が際立ちます。",
    "ESTP" := "迷いを最小化し、即断即決で流れを変えるアクション志向が表れます。",
    "ESFP" := "場の空気を読みながら人を動かし、関係性の中で突破口を作る点が印象的です。",
    "ENFP" := "可能性を信じて行動を起こし、周囲の意欲を引き上げる推進力が出ています。",
    "ENTP" := "既存の枠を疑い、発想転換で新しい選択肢を生む柔軟さが強く表れます。",
    "ESTJ" := "役割を明確にし、現実的な基準でチームを前に進める統率力が見えます。",
    "ESFJ" := "関係の調整と相手配慮を両立し、共同体の安定を支える姿勢が際立ちます。",
    "ENFJ" := "人の潜在力を引き出し、共通目標へ導く支援型リーダーシップが表れます。",
    "ENTJ" := "最終目標から逆算して意思決定し、全体を牽引する実行力が強く出ています。"
  ]

  /** The short descriptions are keyed by exactly the sixteen quiz codes. */
  lemma ShortDescKeys()
    ensures ShortDescsJa.Keys == Scoring.AllCodes
  {
  }

  /** Every short description is non-empty. */
  lemma ShortDescsNonEmpty()
    ensures forall t :: t in ShortDescsJa ==> ShortDescsJa[t] != ""
  {
  }

  /** Each long description is the sentence pattern around the short one, so it is longer. */
  lemma LongDescsExtendShort()
    ensures LongDescsJa.Keys == ShortDescsJa.Keys
    ensures forall t :: t in LongDescsJa ==> |LongDescsJa[t]| > |ShortDescsJa[t]|
  {
  }

  /** The character descriptions are keyed by exactly the sixteen quiz codes. */
  lemma CharacterDescKeys()
    ensures CharacterDescsJa.Keys == Scoring.AllCodes
  {
  }

  /** The episode notes are keyed by exactly the sixteen quiz codes. */
  lemma EpisodeNoteKeys()
    ensures EpisodeNotesJa.Keys == Scoring.AllCodes
  {
  }

  /** Every episode note is non-empty. */
  lemma EpisodeNotesNonEmpty()
    ensures forall t :: t in EpisodeNotesJa ==> EpisodeNotesJa[t] != ""
  {
  }

  /**
   * What the page shows once it does not redirect. Its texts are functions of the theme and the
   * type (`ThemeLabel`, `ShortDesc`, `LongDesc`, `CharacterDesc`, `EpisodeNote`).
   */
  datatype View = View(
    theme: ThemeMeta, typeCode: string, character: CharacterResult,
    shareUrl: string, imageUrl: string, related: seq<ThemeMeta>)

  /** `THEME_LABELS_JA[theme.id] ?? theme.label`. */
  function ThemeLabel(theme: ThemeMeta): (l: string)
    ensures theme.id in ThemeLabelsJa ==> l == ThemeLabelsJa[theme.id]
    ensures theme.id !in ThemeLabelsJa ==> l == theme.labelText
  {
    LabelOr(ThemeLabelsJa, theme.id, theme.labelText)
  }

  /** `MBTI_SHORT_DESCS_JA[type] || MBTI_SHORT_DESCS_JA.ISTJ`. */
  function ShortDesc(typeCode: string): string {
    DescOrIstj(ShortDescsJa, typeCode)
  }

  /** `MBTI_LONG_DESCS_JA[type] || MBTI_LONG_DESCS_JA.ISTJ`. */
  function LongDesc(typeCode: string): string {
    assert DefaultType in LongDescsJa;
    DescOrIstj(LongDescsJa, typeCode)
  }

  /** `CHARACTER_DESC_JA[type] ?? CHARACTER_DESC_JA.ISTJ`: the page shows it instead of the character's own text. */
  function CharacterDesc(typeCode: string): string {
    DescOrIstjNullish(CharacterDescsJa, typeCode)
  }

  /** The episode section: shown only when `EPISODE_NOTE_JA[type]` is a non-empty text. */
  function EpisodeNote(typeCode: string): (note: Option<string>)
    ensures note.Some? <==> typeCode in EpisodeNotesJa && EpisodeNotesJa[typeCode] != ""
    ensures note.Some? ==> note.value == EpisodeNotesJa[typeCode]
  {
    if typeCode in EpisodeNotesJa && EpisodeNotesJa[typeCode] != "" then Some(EpisodeNotesJa[typeCode]) else None
  }

  /** A quiz code shows its own short description; any other type shows ISTJ's. */
  lemma ShortDescFor(typeCode: string)
    ensures typeCode in Scoring.AllCodes ==> typeCode in ShortDescsJa && ShortDesc(typeCode) == ShortDescsJa[typeCode]
    ensures typeCode !in Scoring.AllCodes ==> DefaultType in ShortDescsJa && ShortDesc(typeCode) == ShortDescsJa[DefaultType]
  {
    ShortDescKeys();
    ShortDescsNonEmpty();
  }

  /** A quiz code shows its own long description; any other type shows ISTJ's. */
  lemma LongDescFor(typeCode: string)
    ensures typeCode in Scoring.AllCodes ==> typeCode in LongDescsJa && LongDesc(typeCode) == LongDescsJa[typeCode]
    ensures typeCode !in Scoring.AllCodes ==> DefaultType in LongDescsJa && LongDesc(typeCode) == LongDescsJa[DefaultType]
  {
    ShortDescKeys();
    LongDescsExtendShort();
  }

  /** A quiz code shows its own character description; any other type shows ISTJ's. */
  lemma CharacterDescFor(typeCode: string)
    ensures typeCode in Scoring.AllCodes ==> typeCode in CharacterDescsJa && CharacterDesc(typeCode) == CharacterDescsJa[typeCode]
    ensures typeCode !in Scoring.AllCodes ==> DefaultType in CharacterDescsJa && CharacterDesc(typeCode) == CharacterDescsJa[DefaultType]
  {
    CharacterDescKeys();
  }

  /** The episode section is shown, with the code's own note, exactly for the quiz codes. */
  lemma EpisodeShownIff(typeCode: string)
    ensures EpisodeNote(typeCode).Some? <==> typeCode in Scoring.AllCodes
    ensures typeCode in Scoring.AllCodes ==> typeCode in EpisodeNotesJa && EpisodeNote(typeCode) == Some(EpisodeNotesJa[typeCode])
  {
    EpisodeNoteKeys();
    EpisodeNotesNonEmpty();
  }

  /** What the page and its metadata both look up for a query. */
  datatype Resolution = Resolution(theme: ThemeMeta, content: ThemeContent, typeCode: string)

  /**
   * The theme (`THEMES_EN[themeId] || THEMES_EN.onepiece`), the content and the type resolved
   * against the content's characters.
   */
  function Resolve(en: Catalog, q: Query): (r: Resolution)
    requires HasDefaultTheme(en) && AllHaveIstj(en)
    ensures DefaultType in r.content.results && r.typeCode in r.content.results
  {
    var themeId := ResolveThemeId(q.theme, Keys(en.themes));
    var content := ContentOrDefault(en, themeId);
    Resolution(GetOrDefaultTheme(en.themes, themeId), content, ResolveType(q.typeCode, content.results))
  }

  /** The redirect test: the raw theme is not the theme's id, or the normalised raw type is not the type. */
  predicate Redirects(q: Query, res: Resolution) {
    q.theme != Some(res.theme.id) || NormalizeType(q.typeCode) != res.typeCode
  }

  /** The share URL of a resolution: the result URL under "/ja", never another locale's. */
  function ShareUrl(origin: string, enc: string -> string, res: Resolution): (u: string)
    ensures u != ResultUrl(origin, "", enc, res.theme.id, res.typeCode)
    ensures u != ResultUrl(origin, "/en", enc, res.theme.id, res.typeCode)
  {
    LocaleUrlsDiffer(origin, enc, res.theme.id, res.typeCode);
    ResultUrl(origin, "/ja", enc, res.theme.id, res.typeCode)
  }

  /** The view of a resolution: the character falls back to ISTJ, related themes come from `THEMES_EN`. */
  function ViewOf(origin: string, enc: string -> string, en: Catalog, res: Resolution): (v: View)
    requires DefaultType in res.content.results
    ensures v.theme == res.theme && v.typeCode == res.typeCode && v.shareUrl == ShareUrl(origin, enc, res)
  {
    var theme, typeCode := res.theme, res.typeCode;
    View(
      theme, typeCode, CharacterOrIstj(res.content.results, typeCode),
      ShareUrl(origin, enc, res), OgImageUrl(origin, enc, theme.id, typeCode, ".png"),
      RelatedThemes(Values(en.themes), theme.id))
  }

  /** `ResultPageJa`: a permanent redirect to the share URL, or the view. */
  function Page(origin: string, enc: string -> string, en: Catalog, q: Query): (r: Response<View>)
    requires HasDefaultTheme(en) && AllHaveIstj(en)
    ensures r.Redirect? ==> r.location == ShareUrl(origin, enc, Resolve(en, q))
    ensures r.Render? ==> q.theme == Some(r.view.theme.id) && NormalizeType(q.typeCode) == r.view.typeCode
  {
    var res := Resolve(en, q);
    if Redirects(q, res) then Redirect(ShareUrl(origin, enc, res)) else Render(ViewOf(origin, enc, en, res))
  }

  /**
   * `generateMetadata`. The call passes the Japanese URL as a fourth argument, which
   * `localizedAlternatesFromUrls` does not take, and the locale "ja", which is not "ko": so the
   * canonical URL is the English one, while the Open Graph URL is the Japanese one.
   */
  function Metadata(origin: string, enc: string -> string, en: Catalog, q: Query): (m: PageMetadata)
    requires HasDefaultTheme(en) && AllHaveIstj(en)
    ensures m.alternates.languages.Keys == Seo.HreflangKeys
  {
    var res := Resolve(en, q);
    var theme, typeCode := res.theme, res.typeCode;
    var character := CharacterOrIstj(res.content.results, typeCode);
    var canonicalKo := ResultUrl(origin, "", enc, theme.id, typeCode);
    var canonicalEn := ResultUrl(origin, "/en", enc, theme.id, typeCode);
    var canonicalJa := ResultUrl(origin, "/ja", enc, theme.id, typeCode);
    PageMetadata(
      typeCode + " 結果 | " + Site.SiteName,
      Seo.LocalizedAlternatesFromUrls(canonicalKo, canonicalEn, "ja"),
      canonicalJa, typeCode + " · " + character.name,
      OgImageUrl(origin, enc, theme.id, typeCode, ".png"))
  }

  /** With consistent data the resolved theme carries the resolved id. */
  lemma ThemeIdIsResolved(en: Catalog, q: Query)
    requires Consistent(en) && HasDefaultTheme(en)
    ensures Resolve(en, q).theme.id == ResolveThemeId(q.theme, Keys(en.themes))
  {
    GetOrDefaultThemeId(en.themes, ResolveThemeId(q.theme, Keys(en.themes)));
  }

  /**
   * The page renders exactly when the query names a theme of the English table and a normalised
   * type that the theme's character table has; every other query redirects.
   */
  lemma RenderIff(origin: string, enc: string -> string, en: Catalog, q: Query)
    requires Consistent(en) && HasDefaultTheme(en)
    ensures Page(origin, enc, en, q).Render? <==>
      (q.theme.Some? && HasKey(en.themes, q.theme.value)
       && NormalizeType(q.typeCode) in ContentOrDefault(en, q.theme.value).results)
  {
    ThemeIdIsResolved(en, q);
    if q.theme.Some? && HasKey(en.themes, q.theme.value) {
      assert q.theme.value != "";
    }
  }

  /**
   * Resolving the resolved theme id and type again gives the same resolution, and that query
   * does not redirect.
   */
  lemma ResolutionIsStable(en: Catalog, q: Query)
    requires Consistent(en) && HasDefaultTheme(en)
    ensures var res := Resolve(en, q);
      var settled := Query(Some(res.theme.id), Some(res.typeCode));
      Resolve(en, settled) == res && !Redirects(settled, res)
  {
    var res := Resolve(en, q);
    var settled := Query(Some(res.theme.id), Some(res.typeCode));
    ThemeIdIsResolved(en, q);
    var id := res.theme.id;
    assert HasKey(en.themes, id) && id != "";
    assert ResolveThemeId(settled.theme, Keys(en.themes)) == id;
    ResolveTypeStable(q.typeCode, res.content.results);
  }

  /**
   * A redirect settles in one step: the query made of the resolved theme id and type renders and
   * is where the redirect points, and a page that renders is the page of that query.
   */
  lemma RedirectSettles(origin: string, enc: string -> string, en: Catalog, q: Query)
    requires Consistent(en) && HasDefaultTheme(en)
    ensures var res := Resolve(en, q);
      var settled := Query(Some(res.theme.id), Some(res.typeCode));
      var p, s := Page(origin, enc, en, q), Page(origin, enc, en, settled);
      && s.Render?
      && (p.Redirect? ==> p.location == s.view.shareUrl)
      && (p.Render? ==> p == s)
  {
    ResolutionIsStable(en, q);
  }

  /**
   * The metadata's canonical URL is the English result URL, not the Japanese page the Open Graph
   * URL names, and no hreflang link names the Japanese page either.
   */
  lemma CanonicalIsEnglish(origin: string, enc: string -> string, en: Catalog, q: Query)
    requires HasDefaultTheme(en) && AllHaveIstj(en)
    ensures var m, p, res := Metadata(origin, enc, en, q), Page(origin, enc, en, q), Resolve(en, q);
      && m.ogUrl == (if p.Redirect? then p.location else p.view.shareUrl)
      && m.alternates.canonical == ResultUrl(origin, "/en", enc, res.theme.id, res.typeCode)
      && m.alternates.canonical != m.ogUrl
      && m.ogUrl !in m.alternates.languages.Values
  {
    var res := Resolve(en, q);
    var id, t := res.theme.id, res.typeCode;
    LocaleUrlsDiffer(origin, enc, id, t);
    var m := Metadata(origin, enc, en, q);
    assert m.alternates.languages.Values == {ResultUrl(origin, "", enc, id, t), ResultUrl(origin, "/en", enc, id, t)};
  }

  /** A theme value that is not a key of the English table redirects a quiz code to "onepiece". */
  lemma UnknownThemeRedirects(origin: string, enc: string -> string, en: Catalog, k: string, code: string)
    requires Consistent(en) && HasDefaultTheme(en) && CoversAllCodes(en)
    requires !HasKey(en.themes, k) && code in Scoring.AllCodes
    ensures Page(origin, enc, en, Query(Some(k), Some(code))) == Redirect(ResultUrl(origin, "/ja", enc, DefaultTheme, code))
  {
    var q := Query(Some(k), Some(code));
    ThemeIdIsResolved(en, q);
    CodesAreCanonical(code);
    assert code in ContentOrDefault(en, DefaultTheme).results;
  }

  /**
   * A theme that only the Korean table has: the English page shows it, the Japanese page
   * redirects it to "onepiece".
   */
  lemma KoreanOnlyThemeRedirects(origin: string, enc: string -> string, ko: Catalog, en: Catalog, k: string, code: string)
    requires Consistent(ko) && Consistent(en) && HasDefaultTheme(ko) && HasDefaultTheme(en)
    requires CoversAllCodes(ko) && CoversAllCodes(en)
    requires HasKey(ko.themes, k) && !HasKey(en.themes, k) && code in Scoring.AllCodes
    ensures EnResultPage.Page(origin, enc, ko, en, Query(Some(k), Some(code))).Render?
    ensures Page(origin, enc, en, Query(Some(k), Some(code))) == Redirect(ResultUrl(origin, "/ja", enc, DefaultTheme, code))
  {
    EnResultPage.CodeQueryRenders(origin, enc, ko, en, k, code);
    UnknownThemeRedirects(origin, enc, en, k, code);
  }
}
