/** Content planning (src/utils/proposalGenerator.ts): the audience
    classifier, the prompt sent to the inference service, the fixed five-slide
    fallback plan, and the dispatch between them. */
module ProposalGenerator {
  import opened Wrappers
  import opened Text
  import opened Bindings
  import opened Inference

  const ContentMaxTokens := 3072

  // ---------------------------------------------------------------------------
  // getAudienceCharacteristics

  /** The audience groups the classifier tells apart. */
  datatype Profile = Investor | Developer | Corporate | RetailFood | General

  const InvestorKeywords := ["個人", "投資家"]
  const DeveloperKeywords := ["デベロッパー", "開発"]
  const CorporateKeywords := ["事業", "法人"]
  const RetailKeywords := ["飲食", "小売"]

  /** `toLowerCase` on the ASCII letters. */
  function LowerChar(c: char): char {
    if 'A' <= c <= 'Z' then (c as int + 32) as char else c
  }

  function ToLower(s: string): (r: string)
    ensures |r| == |s| && forall k :: 0 <= k < |s| ==> r[k] == LowerChar(s[k])
  {
    seq(|s|, k requires 0 <= k < |s| => LowerChar(s[k]))
  }

  /** `s.includes(w0) || s.includes(w1) || ...` */
  predicate IncludesAny(s: string, words: seq<string>)
    ensures IncludesAny(s, words) <==> exists k :: 0 <= k < |words| && Occurs(s, words[k])
  {
    |words| > 0 && (Includes(s, words[0]) || IncludesAny(s, words[1..]))
  }

  ghost predicate OccursAny(s: string, words: seq<string>) {
    exists k :: 0 <= k < |words| && Occurs(s, words[k])
  }

  predicate HasNoAsciiLetter(w: string) {
    forall k :: 0 <= k < |w| ==> !('a' <= w[k] <= 'z') && !('A' <= w[k] <= 'Z')
  }

  /** Lower-casing the text changes no occurrence of a word without ASCII
      letters, such as the Japanese keywords. */
  lemma LowerKeepsOccurrence(s: string, w: string)
    requires HasNoAsciiLetter(w)
    ensures Occurs(ToLower(s), w) <==> Occurs(s, w)
  {
    var t := ToLower(s);
    forall i: nat | i + |w| <= |s|
      ensures IsPrefixAt(t, i, w) <==> IsPrefixAt(s, i, w)
    {
      if IsPrefixAt(s, i, w) {
        forall k | 0 <= k < |w| ensures t[i..i + |w|][k] == w[k] {
          assert s[i..i + |w|][k] == w[k];
          assert s[i + k] == w[k];
          assert t[i + k] == LowerChar(s[i + k]);
        }
        assert t[i..i + |w|] == w;
      }
      if IsPrefixAt(t, i, w) {
        assert forall k :: 0 <= k < |w| ==> s[i + k] == w[k] by {
          forall k | 0 <= k < |w| ensures s[i + k] == w[k] {
            assert t[i..i + |w|][k] == w[k];
          }
        }
        assert s[i..i + |w|] == w;
      }
    }
  }

  lemma LowerKeepsKeywordOccurrences(s: string, words: seq<string>)
    requires forall k :: 0 <= k < |words| ==> HasNoAsciiLetter(words[k])
    ensures OccursAny(ToLower(s), words) <==> OccursAny(s, words)
  {
    forall k | 0 <= k < |words| ensures Occurs(ToLower(s), words[k]) <==> Occurs(s, words[k]) {
      LowerKeepsOccurrence(s, words[k]);
    }
  }

  /** The first keyword group, in source order, with a member occurring in the
      lower-cased audience; `General` when none does. */
  function Classify(audience: string): (p: Profile)
    ensures p == Investor <==> OccursAny(audience, InvestorKeywords)
    ensures p == Developer <==>
      !OccursAny(audience, InvestorKeywords) && OccursAny(audience, DeveloperKeywords)
    ensures p == Corporate <==>
      !OccursAny(audience, InvestorKeywords) && !OccursAny(audience, DeveloperKeywords)
      && OccursAny(audience, CorporateKeywords)
    ensures p == RetailFood <==>
      !OccursAny(audience, InvestorKeywords) && !OccursAny(audience, DeveloperKeywords)
      && !OccursAny(audience, CorporateKeywords) && OccursAny(audience, RetailKeywords)
    ensures p == General <==>
      !OccursAny(audience, InvestorKeywords) && !OccursAny(audience, DeveloperKeywords)
      && !OccursAny(audience, CorporateKeywords) && !OccursAny(audience, RetailKeywords)
  {
    var lower := ToLower(audience);
    LowerKeepsKeywordOccurrences(audience, InvestorKeywords);
    LowerKeepsKeywordOccurrences(audience, DeveloperKeywords);
    LowerKeepsKeywordOccurrences(audience, CorporateKeywords);
    LowerKeepsKeywordOccurrences(audience, RetailKeywords);
    if IncludesAny(lower, InvestorKeywords) then Investor
    else if IncludesAny(lower, DeveloperKeywords) then Developer
    else if IncludesAny(lower, CorporateKeywords) then Corporate
    else if IncludesAny(lower, RetailKeywords) then RetailFood
    else General
  }

  /** An investor keyword anywhere in the audience selects the investor block,
      whatever surrounds it and whatever other keywords it holds. */
  lemma InvestorKeywordWins(before: string, k: nat, after: string)
    requires k < |InvestorKeywords|
    ensures Classify(before + InvestorKeywords[k] + after) == Investor
  {
    OccursInMiddle(before, InvestorKeywords[k], after);
  }

  /** The keywords are Japanese: an English audience such as "individual
      investor" matches none of them and gets the default block. */
  lemma EnglishAudienceIsGeneral()
    ensures Classify("individual investor") == General
  {
    var a := "individual investor";
    var firsts := "個投デ開事法飲小";
    assert forall k :: 0 <= k < |a| ==> a[k] !in firsts;
    forall words | words in [InvestorKeywords, DeveloperKeywords, CorporateKeywords, RetailKeywords]
      ensures !OccursAny(a, words)
    {
      forall k | 0 <= k < |words| ensures !Occurs(a, words[k]) {
        AbsentFirstChar(a, words[k]);
      }
    }
  }

  /** The guidance block for each audience group. */
  function Characteristics(p: Profile): string {
    match p
    case Investor =>
      "\n- 投資収益性（利回り、キャッシュフロー）を重視\n- 資産価値の維持・向上に関心"
      + "\n- 税制メリットや節税効果を求める\n- リスクとリターンのバランスを考慮"
    case Developer =>
      "\n- 開発ポテンシャル（容積率、建ぺい率）を重視\n- 周辺環境と需要分析に関心"
      + "\n- 法規制とインフラ整備状況を確認\n- プロジェクト収益性と実現可能性を評価"
    case Corporate =>
      "\n- 事業用途への適合性を重視\n- アクセス性と利便性を評価"
      + "\n- コスト効率と拡張性を考慮\n- ブランドイメージとの整合性を確認"
    case RetailFood =>
      "\n- 立地と人流を最重視\n- 視認性と駐車場の有無を確認"
      + "\n- 周辺の競合状況を分析\n- 客層とターゲット市場を評価"
    case General =>
      "\n- 物件の基本情報と特徴を重視\n- コストパフォーマンスを評価"
      + "\n- 立地と利便性を確認\n- 将来的な価値と可能性を考慮"
  }

  /** `getAudienceCharacteristics`. */
  function AudienceCharacteristics(audience: string): string {
    Characteristics(Classify(audience))
  }

  // ---------------------------------------------------------------------------
  // The prompt of generateProposalContent

  function FactsBlock(a: Analysis): string {
    "【不動産情報】\n"
    + "- タイトル: " + a.title + "\n"
    + "- 所在地: " + a.location + "\n"
    + "- 価格: " + a.price + "\n"
    + "- 土地面積: " + a.landArea + "\n"
    + "- 建物面積: " + a.buildingArea + "\n"
    + "- 用途地域: " + a.purpose + "\n"
    + "- 要約: " + a.summary + "\n"
    + "- 特徴: " + Join(a.keyFeatures, ", ") + "\n"
    + "- 近隣施設: " + Join(a.nearbyFacilities, ", ") + "\n"
    + "- 現状: " + a.currentStatus
  }

  const ContentPromptOpening :=
    "あなたは不動産の提案資料を作成するプロフェッショナルです。\n\n以下の不動産情報をもとに、「"
  const ContentPromptRequest := "」向けの提案資料（3-5枚のスライド）を作成してください。\n\n"

  const ContentPromptTail :=
    "\n\n以下のJSON形式で、3-5枚のスライドを作成してください：\n{\n"
    + "  \"slides\": [\n    {\n"
    + "      \"title\": \"スライドタイトル\",\n"
    + "      \"content\": [\"ポイント1\", \"ポイント2\", \"ポイント3\"],\n"
    + "      \"notes\": \"スライドの補足説明（オプション）\"\n"
    + "    }\n  ]\n}\n\n重要：\n"
    + "- 1枚目は表紙（タイトル、物件名、提案先）\n"
    + "- 2-4枚目は提案内容（提案先のニーズに合わせた内容）\n"
    + "- 最終枚目はまとめ・次のステップ\n"
    + "- 各スライドのcontentは3-5個の箇条書き\n"
    + "- 提案先の関心事項を最優先に"

  /** The planning prompt: the audience verbatim, every fact, and the guidance
      block of the audience's group. */
  function ContentPrompt(a: Analysis, audience: string): (r: string)
    ensures Occurs(r, audience)
    ensures Occurs(r, FactsBlock(a))
    ensures Occurs(r, AudienceCharacteristics(audience))
  {
    var parts := [ContentPromptOpening, audience, ContentPromptRequest, FactsBlock(a),
                  "\n\n【提案先の特性】\n", AudienceCharacteristics(audience), ContentPromptTail];
    OccursInConcat(parts, 1);
    OccursInConcat(parts, 3);
    OccursInConcat(parts, 5);
    Concat(parts)
  }

  // ---------------------------------------------------------------------------
  // generateFallbackContent

  const CoverTitle := "不動産投資提案書"
  const OverviewTitle := "物件概要"
  const FeaturesTitle := "物件の特徴"
  const LocationTitle := "立地環境"
  const NextStepsTitle := "まとめ・次のステップ"
  const FallbackTitles := [CoverTitle, OverviewTitle, FeaturesTitle, LocationTitle, NextStepsTitle]

  const FeaturesPlaceholder := ["詳細情報は資料をご参照ください"]
  const LocationPlaceholder := ["アクセス良好な立地", "周辺環境充実"]
  const NextSteps := ["現地視察のご案内", "詳細資料のご提供", "資金計画のご相談", "ご質問・ご相談はお気軽に"]

  /** A list slide shows its items, or the placeholder items when it has none. */
  function OrPlaceholder(items: seq<string>, placeholder: seq<string>): seq<string> {
    if |items| > 0 then items else placeholder
  }

  /** The fixed five-slide plan; `date` is the text of
      `new Date().toLocaleDateString('ja-JP')` at the time of the call. */
  function FallbackContent(a: Analysis, audience: string, date: string): (r: ProposalContent)
    ensures |r.slides| == 5
    ensures forall i :: 0 <= i < 5 ==> r.slides[i].title == FallbackTitles[i]
    ensures forall i :: 0 <= i < 5 ==> |r.slides[i].content| >= 1
    ensures |r.slides[0].content| == 4
    ensures Occurs(r.slides[0].content[0], a.title) && Occurs(r.slides[0].content[1], a.location)
    ensures Occurs(r.slides[0].content[2], audience) && Occurs(r.slides[0].content[3], date)
    ensures |r.slides[1].content| == 4
    ensures Occurs(r.slides[1].content[0], a.price) && Occurs(r.slides[1].content[1], a.landArea)
    ensures Occurs(r.slides[1].content[2], a.purpose) && Occurs(r.slides[1].content[3], a.currentStatus)
    ensures r.slides[1].notes == Some(a.summary)
    ensures forall i :: 0 <= i < 5 && i != 1 ==> r.slides[i].notes.None?
    ensures |a.keyFeatures| > 0 ==> r.slides[2].content == a.keyFeatures
    ensures |a.keyFeatures| == 0 ==> r.slides[2].content == FeaturesPlaceholder && |FeaturesPlaceholder| == 1
    ensures |a.nearbyFacilities| > 0 ==> r.slides[3].content == a.nearbyFacilities
    ensures |a.nearbyFacilities| == 0 ==> r.slides[3].content == LocationPlaceholder && |LocationPlaceholder| == 2
    ensures r.slides[4].content == NextSteps
  {
    var cover := ["物件名: ", "所在地: ", "提案先: ", "提案日: "];
    var overview := ["価格: ", "土地面積: ", "用途地域: ", "現状: "];
    OccursAtEnd(cover[0], a.title);
    OccursAtEnd(cover[1], a.location);
    OccursAtEnd(cover[2], audience);
    OccursAtEnd(cover[3], date);
    OccursAtEnd(overview[0], a.price);
    OccursAtEnd(overview[1], a.landArea);
    OccursAtEnd(overview[2], a.purpose);
    OccursAtEnd(overview[3], a.currentStatus);
    ProposalContent([
      ProposalSlide(CoverTitle,
        [cover[0] + a.title, cover[1] + a.location, cover[2] + audience, cover[3] + date],
        None),
      ProposalSlide(OverviewTitle,
        [overview[0] + a.price, overview[1] + a.landArea, overview[2] + a.purpose,
         overview[3] + a.currentStatus],
        Some(a.summary)),
      ProposalSlide(FeaturesTitle, OrPlaceholder(a.keyFeatures, FeaturesPlaceholder), None),
      ProposalSlide(LocationTitle, OrPlaceholder(a.nearbyFacilities, LocationPlaceholder), None),
      ProposalSlide(NextStepsTitle, NextSteps, None)
    ])
  }

  /** The fallback plan reads no fact but those it shows: the building area
      plays no part in it. */
  lemma FallbackIgnoresBuildingArea(a: Analysis, b: Analysis, audience: string, date: string)
    requires a.(buildingArea := b.buildingArea) == b
    ensures FallbackContent(a, audience, date) == FallbackContent(b, audience, date)
  {
  }

  // ---------------------------------------------------------------------------
  // generateProposalContent

  /** `generateProposalContent`: one request carrying the prompt, the parsed
      JSON span of the answer when there is one and it parses, and the fallback
      plan in every other case, also when the binding is absent (then `ai.run`
      throws before anything is sent). The parsed plan is returned unchecked:
      nothing is promised about its slide count. */
  function GenerateProposalContent(a: Analysis, audience: string, ai: AiBinding,
                                   parse: string -> Option<ProposalContent>, date: string): (r: Outcome<ProposalContent>)
    ensures r.calls == if ai.Bound? then [UserRequest(ContentPrompt(a, audience), ContentMaxTokens)] else []
    ensures !r.fromAi ==> r.value == FallbackContent(a, audience, date) && |r.value.slides| == 5
    ensures ai.Bound? ==>
      var reply := ai.run(UserRequest(ContentPrompt(a, audience), ContentMaxTokens));
      && (reply.Threw? ==> !r.fromAi)
      && (reply.Replied? && !HasBracePair(reply.response) ==> !r.fromAi)
      && (r.fromAi <==> reply.Replied? && HasBracePair(reply.response)
                        && parse(JsonSpan(reply.response).value).Some?)
      && (r.fromAi ==> r.value == parse(JsonSpan(reply.response).value).value)
  {
    AskAi(ai, ContentPrompt(a, audience), ContentMaxTokens, parse, FallbackContent(a, audience, date))
  }
}
