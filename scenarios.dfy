/** The pipeline end to end without the inference service: facts from the
    brochure text, the fallback plan, and the deck built from it. */
module Scenarios {
  import opened Wrappers
  import opened Text
  import opened Bindings
  import opened Inference
  import opened PdfAnalyzer
  import opened ProposalGenerator
  import opened PptxGenerator

  const InvestorAudience := "個人投資家"

  /** An empty brochure yields the default title and the no-information
      placeholder in every field a pattern would fill. */
  lemma EmptyBrochureFacts(parse: string -> Option<Analysis>)
    ensures var a := AnalyzePdfWithAi("", Unbound, parse);
      && a.calls == [] && !a.fromAi
      && a.value.title == DefaultTitle
      && a.value.location == NoInfo && a.value.price == NoInfo && a.value.landArea == NoInfo
      && a.value.buildingArea == NoInfo && a.value.purpose == NoInfo && a.value.currentStatus == NoInfo
      && a.value.summary == Ellipsis
  {
    FallbackPrice("");
    FallbackLandArea("");
    FallbackLocation("");
  }

  /** With no service the plan for those facts is the five-slide fallback:
      the cover names the audience and the overview shows the placeholders. */
  lemma EmptyBrochurePlan(parseFacts: string -> Option<Analysis>,
                          parsePlan: string -> Option<ProposalContent>, date: string)
    ensures var facts := AnalyzePdfWithAi("", Unbound, parseFacts).value;
      var plan := GenerateProposalContent(facts, InvestorAudience, Unbound, parsePlan, date);
      && plan.calls == [] && |plan.value.slides| == 5
      && Occurs(plan.value.slides[0].content[2], InvestorAudience)
      && Occurs(plan.value.slides[1].content[0], NoInfo)
      && Occurs(plan.value.slides[1].content[1], NoInfo)
      && AudienceCharacteristics(InvestorAudience) == Characteristics(Investor)
  {
    EmptyBrochureFacts(parseFacts);
    InvestorKeywordWins("", 0, "投資家");
    assert "" + InvestorKeywords[0] + "投資家" == InvestorAudience;
  }

  /** Real features and facilities replace the placeholders one for one. */
  lemma ListsReplacePlaceholders(a: Analysis, audience: string, date: string,
                                 parse: string -> Option<ProposalContent>)
    requires |a.keyFeatures| == 3 && |a.nearbyFacilities| == 2
    ensures var plan := GenerateProposalContent(a, audience, Unbound, parse, date).value;
      plan.slides[2].content == a.keyFeatures && plan.slides[3].content == a.nearbyFacilities
  {
  }

  /** The deck for the empty brochure: five slides, the cover without a page
      label, and the page labels 2 to 5 on the content slides. */
  method EmptyBrochureDeck(parseFacts: string -> Option<Analysis>,
                           parsePlan: string -> Option<ProposalContent>, date: string, logoFails: bool)
    returns (deck: Deck)
    ensures |deck.slides| == 5
    ensures NoneAt(deck.slides[0].elements, PageLabelBox)
    ensures forall i :: 1 <= i < 5 ==> OnlyAt(deck.slides[i].elements, PageLabelBox, 4)
    ensures |deck.slides[4].elements| > 4 && deck.slides[4].elements[4] == TextBox("5", PageLabelBox, PageLabelStyle)
  {
    var facts := AnalyzePdfWithAi("", Unbound, parseFacts).value;
    var plan := GenerateProposalContent(facts, InvestorAudience, Unbound, parsePlan, date).value;
    EmptyBrochurePlan(parseFacts, parsePlan, date);
    deck := RenderedLabels(plan, facts.title, logoFails);
  }

  /** Any five-slide plan renders to a deck whose page labels run 2 to 5. */
  method RenderedLabels(plan: ProposalContent, title: string, logoFails: bool) returns (deck: Deck)
    requires |plan.slides| == 5
    ensures |deck.slides| == 5
    ensures NoneAt(deck.slides[0].elements, PageLabelBox)
    ensures forall i :: 1 <= i < 5 ==> OnlyAt(deck.slides[i].elements, PageLabelBox, 4)
    ensures |deck.slides[4].elements| > 4 && deck.slides[4].elements[4] == TextBox("5", PageLabelBox, PageLabelStyle)
  {
    deck := GeneratePowerPoint(plan, title, InvestorAudience, logoFails);
    PageLabels(plan.slides[0], 0, logoFails);
    forall i | 1 <= i < 5 ensures OnlyAt(SlideElements(plan.slides[i], i, logoFails), PageLabelBox, 4) {
      PageLabels(plan.slides[i], i, logoFails);
    }
    assert Built(deck.slides[4], plan.slides[4], 4, logoFails);
    assert NatToString(5) == "5";
  }
}
