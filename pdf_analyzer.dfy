/** Fact extraction from brochure text (src/utils/pdfAnalyzer.ts): the AI
    path and the deterministic fallback built from three key-anchored
    regular expressions, each written here as an explicit matcher at one
    position plus a leftmost search, and related to the declarative meaning of
    its regular expression by lemmas. */
module PdfAnalyzer {
  import opened Wrappers
  import opened Text
  import opened Bindings
  import opened Inference

  const NoInfo := "情報なし"
  const DefaultTitle := "不動産物件"
  const FeaturePlaceholder := "詳細はPDFをご確認ください"
  const SummaryLength := 200
  const Ellipsis := "..."
  const PromptTextLimit := 3000
  const AnalysisMaxTokens := 2048

  const PriceLabel := "価格"
  const PriceUnit := "万円"
  const LocationLabel := "所在地"
  const LandLabel := "土地"
  const LandUnit := "坪"

  /** `[：:]`: a full-width or an ASCII colon. */
  predicate IsSeparator(c: char) {
    c == '：' || c == ':'
  }

  /** `[0-9,]` */
  predicate IsPriceChar(c: char) {
    IsDigit(c) || c == ','
  }

  /** `[0-9.]` */
  predicate IsAreaChar(c: char) {
    IsDigit(c) || c == '.'
  }

  /** `[^\n]` */
  predicate IsLineChar(c: char) {
    c != '\n'
  }

  function Min(a: nat, b: nat): nat {
    if a <= b then a else b
  }

  // ---------------------------------------------------------------------------
  // `key[：:]\s*([run]+unit)`, the shape of the price and land-area patterns

  /** `key[：:]` starts at `p`. */
  predicate LabelAt(s: string, p: nat, key: string) {
    IsPrefixAt(s, p, key) && p + |key| < |s| && IsSeparator(s[p + |key|])
  }

  /** The declarative meaning of the pattern: it matches at `p` with the
      whitespace ending at `q` and the run of `run` characters at `[q, e)`. */
  ghost predicate NumberRegexAt(s: string, p: nat, key: string, run: char -> bool, unit: string,
                                q: nat, e: nat)
  {
    && LabelAt(s, p, key)
    && p + |key| + 1 <= q < e <= |s|
    && (forall k :: p + |key| + 1 <= k < q ==> IsWhitespace(s[k]))
    && (forall k :: q <= k < e ==> run(s[k]))
    && IsPrefixAt(s, e, unit)
  }

  /** The captured group of the pattern when it matches at `p`: greedy
      whitespace, then the greedy run, which must be followed by the unit. */
  function NumberAt(s: string, p: nat, key: string, run: char -> bool, unit: string): Option<string>
  {
    if !LabelAt(s, p, key) then None
    else
      var q := SpanWhile(s, p + |key| + 1, IsWhitespace);
      var e := SpanWhile(s, q, run);
      if q < e && IsPrefixAt(s, e, unit) then Some(s[q..e] + unit) else None
  }

  /** Whenever the pattern matches at `p`, the matcher finds that match; and
      everything the matcher finds is a match. Greediness decides nothing here
      because the run's characters are never whitespace and the unit never
      starts with one of them, so the match at `p` is unique. */
  lemma {:induction false} NumberAtIsRegexMatch(s: string, p: nat, key: string, run: char -> bool, unit: string)
    requires forall c :: run(c) ==> !IsWhitespace(c)
    requires |unit| > 0 && !run(unit[0])
    ensures NumberAt(s, p, key, run, unit).Some? ==>
      exists q: nat, e: nat :: NumberRegexAt(s, p, key, run, unit, q, e)
                     && NumberAt(s, p, key, run, unit).value == s[q..e] + unit
    ensures forall q: nat, e: nat :: NumberRegexAt(s, p, key, run, unit, q, e) ==>
      NumberAt(s, p, key, run, unit) == Some(s[q..e] + unit)
  {
    if LabelAt(s, p, key) {
      var a := p + |key| + 1;
      var q := SpanWhile(s, a, IsWhitespace);
      var e := SpanWhile(s, q, run);
      if q < e && IsPrefixAt(s, e, unit) {
        assert NumberRegexAt(s, p, key, run, unit, q, e);
      }
      forall q': nat, e': nat | NumberRegexAt(s, p, key, run, unit, q', e')
        ensures NumberAt(s, p, key, run, unit) == Some(s[q'..e'] + unit)
      {
        assert !IsWhitespace(s[q']);
        SpanWhileIs(s, a, q', IsWhitespace);
        assert s[e'] == unit[0];
        SpanWhileIs(s, q', e', run);
      }
    }
  }

  // ---------------------------------------------------------------------------
  // `所在地[：:]\s*([^\n]+)`

  /** The declarative meaning of the location pattern: it matches at `p` with
      `\s*` ending at `b` and `[^\n]+` covering `[b, e)`. */
  ghost predicate LocationRegexAt(s: string, p: nat, b: nat, e: nat) {
    && LabelAt(s, p, LocationLabel)
    && p + |LocationLabel| + 1 <= b < e <= |s|
    && (forall k :: p + |LocationLabel| + 1 <= k < b ==> IsWhitespace(s[k]))
    && (forall k :: b <= k < e ==> IsLineChar(s[k]))
  }

  /** The match a backtracking engine reports among those at `p`: the greedy
      `\s*` takes as much as it can, then `[^\n]+` takes as much as it can. */
  ghost predicate LocationPreferredAt(s: string, p: nat, b: nat, e: nat) {
    && LocationRegexAt(s, p, b, e)
    && forall b': nat, e': nat :: LocationRegexAt(s, p, b', e') ==> b' < b || (b' == b && e' <= e)
  }

  /** The last position in `[a, n)` that is not a line feed. */
  function LastNonNewline(s: string, a: nat, n: nat): (r: Option<nat>)
    requires a <= n <= |s|
    ensures r.Some? ==> a <= r.value < n && IsLineChar(s[r.value])
                        && forall k :: r.value < k < n ==> !IsLineChar(s[k])
    ensures r.None? ==> forall k :: a <= k < n ==> !IsLineChar(s[k])
    decreases n
  {
    if n <= a then None
    else if IsLineChar(s[n - 1]) then Some(n - 1)
    else LastNonNewline(s, a, n - 1)
  }

  lemma LastNonNewlineFinds(s: string, a: nat, n: nat, k: nat)
    requires a <= k < n <= |s| && IsLineChar(s[k])
    ensures LastNonNewline(s, a, n).Some?
  {
  }

  /** The captured group of the location pattern when it matches at `p`. The
      greedy `\s*` may swallow line feeds; when it reaches the end of the text,
      it gives back characters until `[^\n]+` can take one. */
  function LocationAt(s: string, p: nat): Option<string>
  {
    if !LabelAt(s, p, LocationLabel) then None
    else
      var a := p + |LocationLabel| + 1;
      var q := SpanWhile(s, a, IsWhitespace);
      var start := if q < |s| then Some(q) else LastNonNewline(s, a, |s|);
      match start
      case None => None
      case Some(b) => Some(s[b..SpanWhile(s, b, IsLineChar)])
  }

  /** The location matcher finds a match at `p` exactly when the pattern has
      one there, and what it captures is the backtracking engine's choice. */
  lemma {:induction false} LocationAtIsRegexMatch(s: string, p: nat)
    ensures LocationAt(s, p).Some? <==> exists b: nat, e: nat :: LocationRegexAt(s, p, b, e)
    ensures LocationAt(s, p).Some? ==>
      exists b: nat, e: nat :: LocationPreferredAt(s, p, b, e) && LocationAt(s, p).value == s[b..e]
  {
    if LabelAt(s, p, LocationLabel) {
      var a := p + |LocationLabel| + 1;
      var q := SpanWhile(s, a, IsWhitespace);
      var start := if q < |s| then Some(q) else LastNonNewline(s, a, |s|);
      if start.Some? {
        var b := start.value;
        var e := SpanWhile(s, b, IsLineChar);
        assert IsLineChar(s[b]);
        assert LocationRegexAt(s, p, b, e);
        forall b': nat, e': nat | LocationRegexAt(s, p, b', e')
          ensures b' < b || (b' == b && e' <= e)
        {
          assert IsLineChar(s[b']);
        }
        assert LocationPreferredAt(s, p, b, e);
      }
      if exists b': nat, e': nat :: LocationRegexAt(s, p, b', e') {
        var b': nat, e': nat :| LocationRegexAt(s, p, b', e');
        if q == |s| {
          LastNonNewlineFinds(s, a, |s|, b');
        }
      }
    }
  }

  // ---------------------------------------------------------------------------
  // Leftmost search: `text.match(re)` tries each start position in turn

  /** The first position in `[i, n]` at which the matcher `m` succeeds. */
  function LeftmostFrom(m: nat -> Option<string>, i: nat, n: nat): (r: Option<nat>)
    ensures r.Some? ==> i <= r.value <= n && m(r.value).Some?
                        && forall p :: i <= p < r.value ==> m(p).None?
    ensures r.None? ==> forall p :: i <= p <= n ==> m(p).None?
    decreases n + 1 - i
  {
    if i > n then None
    else if m(i).Some? then Some(i)
    else LeftmostFrom(m, i + 1, n)
  }

  /** The captured group of the leftmost match in `s`, if any. */
  function Search(s: string, m: nat -> Option<string>): (r: Option<string>)
    ensures r.Some? ==> exists p: nat :: p <= |s| && m(p) == r && forall p': nat :: p' < p ==> m(p').None?
    ensures r.None? ==> forall p: nat :: p <= |s| ==> m(p).None?
  {
    match LeftmostFrom(m, 0, |s|)
    case None => None
    case Some(p) => m(p)
  }

  function NumberMatcher(s: string, key: string, run: char -> bool, unit: string): nat -> Option<string> {
    (p: nat) => NumberAt(s, p, key, run, unit)
  }

  function LocationMatcher(s: string): nat -> Option<string> {
    (p: nat) => LocationAt(s, p)
  }

  /** The search for a number pattern reports the leftmost position at which
      the pattern matches, with that match's group, and finds nothing exactly
      when the pattern matches nowhere. */
  lemma {:induction false} NumberSearchIsLeftmostMatch(s: string, key: string, run: char -> bool, unit: string)
    requires |key| > 0
    requires forall c :: run(c) ==> !IsWhitespace(c)
    requires |unit| > 0 && !run(unit[0])
    ensures Search(s, NumberMatcher(s, key, run, unit)).None? <==>
      forall p: nat, q: nat, e: nat :: !NumberRegexAt(s, p, key, run, unit, q, e)
    ensures Search(s, NumberMatcher(s, key, run, unit)).Some? ==>
      exists p: nat, q: nat, e: nat ::
        && NumberRegexAt(s, p, key, run, unit, q, e)
        && Search(s, NumberMatcher(s, key, run, unit)).value == s[q..e] + unit
        && forall p': nat, q': nat, e': nat :: NumberRegexAt(s, p', key, run, unit, q', e') ==> p <= p'
  {
    var m := NumberMatcher(s, key, run, unit);
    forall p: nat ensures (m(p).Some? ==> exists q: nat, e: nat :: NumberRegexAt(s, p, key, run, unit, q, e)
                                                                 && m(p).value == s[q..e] + unit)
                       && (forall q: nat, e: nat :: NumberRegexAt(s, p, key, run, unit, q, e) ==>
                                                    m(p) == Some(s[q..e] + unit))
    {
      NumberAtIsRegexMatch(s, p, key, run, unit);
    }
    forall p: nat, q: nat, e: nat | NumberRegexAt(s, p, key, run, unit, q, e)
      ensures p <= |s| && m(p).Some?
    {
    }
  }

  /** The location search reports the leftmost position at which the pattern
      matches, with the backtracking engine's choice there, and finds nothing
      exactly when the pattern matches nowhere. */
  lemma {:induction false} LocationSearchIsLeftmostMatch(s: string)
    ensures Search(s, LocationMatcher(s)).None? <==> forall p: nat, b: nat, e: nat :: !LocationRegexAt(s, p, b, e)
    ensures Search(s, LocationMatcher(s)).Some? ==>
      exists p: nat, b: nat, e: nat ::
        && LocationPreferredAt(s, p, b, e)
        && Search(s, LocationMatcher(s)).value == s[b..e]
        && forall p': nat, b': nat, e': nat :: LocationRegexAt(s, p', b', e') ==> p <= p'
  {
    var m := LocationMatcher(s);
    forall p: nat ensures (m(p).Some? <==> exists b: nat, e: nat :: LocationRegexAt(s, p, b, e))
                       && (m(p).Some? ==> exists b: nat, e: nat :: LocationPreferredAt(s, p, b, e) && m(p).value == s[b..e])
    {
      LocationAtIsRegexMatch(s, p);
    }
    forall p: nat, b: nat, e: nat | LocationRegexAt(s, p, b, e)
      ensures p <= |s| && m(p).Some?
    {
    }
  }

  // ---------------------------------------------------------------------------
  // fallbackAnalysis

  /** `text.substring(0, 200) + '...'`. */
  function Summary(text: string): (r: string)
    ensures |r| == Min(|text|, SummaryLength) + |Ellipsis| && |r| <= SummaryLength + |Ellipsis|
    ensures r[..|r| - |Ellipsis|] == text[..Min(|text|, SummaryLength)]
    ensures r[|r| - |Ellipsis|..] == Ellipsis
    ensures text == [] ==> r == Ellipsis
  {
    text[..Min(|text|, SummaryLength)] + Ellipsis
  }

  /** `m ? m[1] : '情報なし'` for a number pattern. */
  function NumberField(text: string, key: string, run: char -> bool, unit: string): string {
    match Search(text, NumberMatcher(text, key, run, unit))
    case Some(g) => g
    case None => NoInfo
  }

  /** The deterministic facts: the three patterns, placeholders for everything
      else, and a bounded prefix of the text as the summary. */
  function FallbackAnalysis(text: string): (r: Analysis)
    ensures r.title == DefaultTitle
    ensures r.buildingArea == NoInfo && r.purpose == NoInfo && r.currentStatus == NoInfo
    ensures r.keyFeatures == [FeaturePlaceholder] && r.nearbyFacilities == []
    ensures r.summary == Summary(text)
  {
    var location := Search(text, LocationMatcher(text));
    Analysis(
      title := DefaultTitle,
      location := if location.Some? then Trim(location.value) else NoInfo,
      price := NumberField(text, PriceLabel, IsPriceChar, PriceUnit),
      landArea := NumberField(text, LandLabel, IsAreaChar, LandUnit),
      buildingArea := NoInfo,
      purpose := NoInfo,
      summary := Summary(text),
      keyFeatures := [FeaturePlaceholder],
      nearbyFacilities := [],
      currentStatus := NoInfo)
  }

  lemma RunCharsAreNotWhitespace()
    ensures forall c :: IsPriceChar(c) ==> !IsWhitespace(c)
    ensures forall c :: IsAreaChar(c) ==> !IsWhitespace(c)
    ensures !IsPriceChar(PriceUnit[0]) && !IsAreaChar(LandUnit[0])
  {
  }

  /** A number field is the group of the leftmost match of its pattern, or
      the placeholder exactly when the pattern matches nowhere. */
  lemma NumberFieldIsLeftmostMatch(text: string, key: string, run: char -> bool, unit: string)
    requires |key| > 0
    requires forall c :: run(c) ==> !IsWhitespace(c)
    requires |unit| > 0 && !run(unit[0]) && unit[|unit| - 1] != NoInfo[|NoInfo| - 1]
    ensures NumberField(text, key, run, unit) == NoInfo <==>
      forall p: nat, q: nat, e: nat :: !NumberRegexAt(text, p, key, run, unit, q, e)
    ensures NumberField(text, key, run, unit) != NoInfo ==>
      exists p: nat, q: nat, e: nat ::
        && NumberRegexAt(text, p, key, run, unit, q, e)
        && NumberField(text, key, run, unit) == text[q..e] + unit
        && forall p': nat, q': nat, e': nat :: NumberRegexAt(text, p', key, run, unit, q', e') ==> p <= p'
  {
    NumberSearchIsLeftmostMatch(text, key, run, unit);
    var r := Search(text, NumberMatcher(text, key, run, unit));
    if r.Some? {
      var p: nat, q: nat, e: nat :| NumberRegexAt(text, p, key, run, unit, q, e) && r.value == text[q..e] + unit;
      assert r.value[|r.value| - 1] == unit[|unit| - 1];
    }
  }

  /** The price is the group of the leftmost match of
      `価格[：:]\s*([0-9,]+万円)`, or the placeholder exactly when there is none. */
  lemma FallbackPrice(text: string)
    ensures FallbackAnalysis(text).price == NoInfo <==>
      forall p: nat, q: nat, e: nat :: !NumberRegexAt(text, p, PriceLabel, IsPriceChar, PriceUnit, q, e)
    ensures FallbackAnalysis(text).price != NoInfo ==>
      exists p: nat, q: nat, e: nat ::
        && NumberRegexAt(text, p, PriceLabel, IsPriceChar, PriceUnit, q, e)
        && FallbackAnalysis(text).price == text[q..e] + PriceUnit
        && forall p': nat, q': nat, e': nat ::
             NumberRegexAt(text, p', PriceLabel, IsPriceChar, PriceUnit, q', e') ==> p <= p'
  {
    RunCharsAreNotWhitespace();
    NumberFieldIsLeftmostMatch(text, PriceLabel, IsPriceChar, PriceUnit);
  }

  /** The land area is the group of the leftmost match of
      `土地[：:]\s*([0-9.]+坪)`, or the placeholder exactly when there is none. */
  lemma FallbackLandArea(text: string)
    ensures FallbackAnalysis(text).landArea == NoInfo <==>
      forall p: nat, q: nat, e: nat :: !NumberRegexAt(text, p, LandLabel, IsAreaChar, LandUnit, q, e)
    ensures FallbackAnalysis(text).landArea != NoInfo ==>
      exists p: nat, q: nat, e: nat ::
        && NumberRegexAt(text, p, LandLabel, IsAreaChar, LandUnit, q, e)
        && FallbackAnalysis(text).landArea == text[q..e] + LandUnit
        && forall p': nat, q': nat, e': nat ::
             NumberRegexAt(text, p', LandLabel, IsAreaChar, LandUnit, q', e') ==> p <= p'
  {
    RunCharsAreNotWhitespace();
    NumberFieldIsLeftmostMatch(text, LandLabel, IsAreaChar, LandUnit);
  }

  /** The location is the trimmed group of the leftmost match of
      `所在地[：:]\s*([^\n]+)`, or the placeholder when there is none; it never
      holds a line feed and may be empty. */
  lemma FallbackLocation(text: string)
    ensures (forall p: nat, b: nat, e: nat :: !LocationRegexAt(text, p, b, e)) ==>
      FallbackAnalysis(text).location == NoInfo
    ensures (exists p: nat, b: nat, e: nat :: LocationRegexAt(text, p, b, e)) ==>
      exists p: nat, b: nat, e: nat ::
        && LocationPreferredAt(text, p, b, e)
        && FallbackAnalysis(text).location == Trim(text[b..e])
        && forall p': nat, b': nat, e': nat :: LocationRegexAt(text, p', b', e') ==> p <= p'
    ensures '\n' !in FallbackAnalysis(text).location
  {
    LocationSearchIsLeftmostMatch(text);
    var r := Search(text, LocationMatcher(text));
    if r.Some? {
      var p: nat, b: nat, e: nat :| LocationPreferredAt(text, p, b, e) && r.value == text[b..e];
      assert forall k :: 0 <= k < |r.value| ==> r.value[k] == text[b + k];
      TrimKeepsOnly(r.value, '\n');
    }
  }

  // ---------------------------------------------------------------------------
  // analyzePDFWithAI

  const PromptHead :=
    "以下は不動産概要書のテキストです。この内容から重要な情報を抽出し、JSON形式で返してください。\n\n"
    + "不動産概要書のテキスト:\n"
  const PromptTail :=
    "\n\n以下のJSON形式で情報を抽出してください：\n{\n"
    + "  \"title\": \"物件の簡潔なタイトル（例：浦添牧港440坪土地）\",\n"
    + "  \"location\": \"所在地（市区町村レベル）\",\n"
    + "  \"price\": \"価格\",\n"
    + "  \"landArea\": \"土地面積\",\n"
    + "  \"buildingArea\": \"建物面積（あれば）\",\n"
    + "  \"purpose\": \"用途地域\",\n"
    + "  \"summary\": \"物件の要約（2-3文）\",\n"
    + "  \"keyFeatures\": [\"特徴1\", \"特徴2\", \"特徴3\"],\n"
    + "  \"nearbyFacilities\": [\"近隣施設1\", \"近隣施設2\"],\n"
    + "  \"currentStatus\": \"現状（空き、賃貸中など）\"\n"
    + "}"

  /** The extraction prompt: a fixed template around the first 3000
      characters of the text, so its length is bounded whatever the text. */
  function AnalysisPrompt(text: string): (r: string)
    ensures |r| == |PromptHead| + Min(|text|, PromptTextLimit) + |PromptTail|
    ensures IsPrefixAt(r, 0, PromptHead) && IsPrefixAt(r, |r| - |PromptTail|, PromptTail)
    ensures IsPrefixAt(r, |PromptHead|, text[..Min(|text|, PromptTextLimit)])
  {
    var r := PromptHead + text[..Min(|text|, PromptTextLimit)] + PromptTail;
    assert r[0..|PromptHead|] == PromptHead;
    assert r[|r| - |PromptTail|..] == PromptTail;
    assert r[|PromptHead|..|PromptHead| + Min(|text|, PromptTextLimit)] == text[..Min(|text|, PromptTextLimit)];
    r
  }

  /** Two texts that agree on their first 3000 characters give the service the
      same request. */
  lemma PromptSeesOnlyPrefix(t1: string, t2: string)
    requires t1[..Min(|t1|, PromptTextLimit)] == t2[..Min(|t2|, PromptTextLimit)]
    ensures AnalysisPrompt(t1) == AnalysisPrompt(t2)
  {
    var n := |PromptHead| + Min(|t1|, PromptTextLimit);
    assert AnalysisPrompt(t1)[..n] == AnalysisPrompt(t2)[..n];
    assert AnalysisPrompt(t1)[n..] == PromptTail == AnalysisPrompt(t2)[n..];
    assert AnalysisPrompt(t1) == AnalysisPrompt(t1)[..n] + AnalysisPrompt(t1)[n..];
    assert AnalysisPrompt(t2) == AnalysisPrompt(t2)[..n] + AnalysisPrompt(t2)[n..];
  }

  /** `analyzePDFWithAI`: with no binding, the fallback without any request;
      otherwise one request carrying the prompt, and the parsed JSON span of
      the answer when there is one and it parses, the fallback in every other
      case. The parsed value is returned as it is: nothing is promised about
      its fields. */
  function AnalyzePdfWithAi(text: string, ai: AiBinding, parse: string -> Option<Analysis>): (r: Outcome<Analysis>)
    ensures ai.Unbound? ==> r == Outcome(FallbackAnalysis(text), false, [])
    ensures ai.Bound? ==> r.calls == [UserRequest(AnalysisPrompt(text), AnalysisMaxTokens)]
    ensures !r.fromAi ==> r.value == FallbackAnalysis(text)
    ensures ai.Bound? ==>
      var reply := ai.run(UserRequest(AnalysisPrompt(text), AnalysisMaxTokens));
      && (reply.Threw? ==> r == Outcome(FallbackAnalysis(text), false, r.calls))
      && (reply.Replied? && !HasBracePair(reply.response) ==> r == Outcome(FallbackAnalysis(text), false, r.calls))
      && (r.fromAi <==> reply.Replied? && HasBracePair(reply.response)
                        && parse(JsonSpan(reply.response).value).Some?)
      && (r.fromAi ==> r.value == parse(JsonSpan(reply.response).value).value)
  {
    AskAi(ai, AnalysisPrompt(text), AnalysisMaxTokens, parse, FallbackAnalysis(text))
  }
}
