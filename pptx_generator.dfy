/** Deck assembly (src/utils/pptxGenerator.ts): a presentation object whose
    metadata, layout and slides are set step by step, slides that collect
    drawing elements, and the PDF document definition built by the same plan.
    Only the element lists are modelled, not the bytes a renderer makes of
    them. */
module PptxGenerator {
  import opened Wrappers
  import opened Text
  import opened Bindings

  const CompanyName := "株式会社おきはわアセットブリッジ"
  const ShortCompanyName := "おきはわアセットブリッジ"
  const Navy := "1F4788"
  const White := "FFFFFF"
  const BodyColor := "333333"
  const LabelColor := "666666"

  // ---------------------------------------------------------------------------
  // Drawing elements

  /** Position and size in inches. */
  datatype Box = Box(x: real, y: real, w: real, h: real)

  datatype Align = Left | Center | Right
  datatype VAlign = Top | Middle

  /** The text options the builders pass; an absent alignment is `None`. */
  datatype TextStyle = TextStyle(fontSize: nat, bold: bool, color: string,
                                 align: Option<Align>, valign: Option<VAlign>)

  /** One paragraph of a bulleted text block and its own options. */
  datatype Paragraph = Paragraph(text: string, numbered: bool, fontSize: nat,
                                 color: string, paraSpaceAfter: nat)

  datatype ShapeKind = Rect

  /** What `addImage`, `addText` and `addShape` put on a slide. The image is
      always the company logo. */
  datatype Element =
    | Image(box: Box)
    | TextBox(text: string, box: Box, style: TextStyle)
    | Paragraphs(items: seq<Paragraph>, box: Box, style: TextStyle, bullet: bool)
    | Shape(kind: ShapeKind, box: Box, fill: string)

  // ---------------------------------------------------------------------------
  // A slide

  class PptSlide {
    var background: Option<string>
    var elements: seq<Element>
    var notes: Option<string>

    constructor ()
      ensures background.None? && elements == [] && notes.None?
    {
      background := None;
      elements := [];
      notes := None;
    }

    method AddText(text: string, box: Box, style: TextStyle)
      modifies this
      ensures elements == old(elements) + [TextBox(text, box, style)]
      ensures background == old(background) && notes == old(notes)
    {
      elements := elements + [TextBox(text, box, style)];
    }

    method AddParagraphs(items: seq<Paragraph>, box: Box, style: TextStyle, bullet: bool)
      modifies this
      ensures elements == old(elements) + [Paragraphs(items, box, style, bullet)]
      ensures background == old(background) && notes == old(notes)
    {
      elements := elements + [Paragraphs(items, box, style, bullet)];
    }

    method AddShape(kind: ShapeKind, box: Box, fill: string)
      modifies this
      ensures elements == old(elements) + [Shape(kind, box, fill)]
      ensures background == old(background) && notes == old(notes)
    {
      elements := elements + [Shape(kind, box, fill)];
    }

    /** `addImage` with the logo; `fails` says whether the library throws,
        in which case the slide is left as it was. */
    method AddImage(box: Box, fails: bool) returns (threw: bool)
      modifies this
      ensures threw == fails
      ensures elements == old(elements) + (if fails then [] else [Image(box)])
      ensures background == old(background) && notes == old(notes)
    {
      threw := fails;
      if !fails {
        elements := elements + [Image(box)];
      }
    }

    method AddNotes(text: string)
      modifies this
      ensures notes == Some(text)
      ensures background == old(background) && elements == old(elements)
    {
      notes := Some(text);
    }
  }

  // ---------------------------------------------------------------------------
  // What the two slide builders draw

  const CoverLogoBox := Box(0.5, 0.5, 3.0, 0.6)
  const CoverTitleBox := Box(0.5, 2.5, 9.0, 1.5)
  const SubtitleBox := Box(1.0, 4.2, 8.0, 2.0)
  const HeaderBarBox := Box(0.0, 0.0, 10.0, 1.0)
  const HeaderLogoBox := Box(6.5, 0.2, 3.0, 0.6)
  const ContentTitleBox := Box(0.5, 0.2, 6.0, 0.6)
  const BulletsBox := Box(0.8, 1.5, 8.4, 5.0)
  const PageLabelBox := Box(9.2, 7.0, 0.5, 0.3)
  const FooterLogoBox := Box(0.3, 6.8, 2.0, 0.4)

  const CoverLogoTextStyle := TextStyle(14, true, White, None, None)
  const CoverTitleStyle := TextStyle(44, true, White, Some(Center), Some(Middle))
  const SubtitleStyle := TextStyle(18, false, White, Some(Center), Some(Top))
  const HeaderLogoTextStyle := TextStyle(12, false, White, Some(Right), None)
  const ContentTitleStyle := TextStyle(28, true, White, None, Some(Middle))
  const BulletsStyle := TextStyle(18, false, BodyColor, None, Some(Top))
  const PageLabelStyle := TextStyle(12, false, LabelColor, Some(Right), None)

  /** `data.content.map(...)`: one numbered paragraph per bullet. */
  function Bullets(content: seq<string>): seq<Paragraph> {
    seq(|content|, k requires 0 <= k < |content| => Paragraph(content[k], true, 18, BodyColor, 12))
  }

  /** The elements `addTitleSlide` draws, in order. */
  function CoverElements(data: ProposalSlide, logoFails: bool): seq<Element> {
    (if logoFails then [TextBox(CompanyName, CoverLogoBox, CoverLogoTextStyle)] else [Image(CoverLogoBox)])
    + [TextBox(data.title, CoverTitleBox, CoverTitleStyle),
       TextBox(Join(data.content, "\n"), SubtitleBox, SubtitleStyle)]
  }

  /** The header logo slot: the logo, or the short company name when the
      image fails. */
  function HeaderLogo(headerFails: bool): seq<Element> {
    if headerFails then [TextBox(ShortCompanyName, HeaderLogoBox, HeaderLogoTextStyle)] else [Image(HeaderLogoBox)]
  }

  /** The footer logo slot: the logo, or nothing when the image fails. */
  function FooterLogo(footerFails: bool): seq<Element> {
    if footerFails then [] else [Image(FooterLogoBox)]
  }

  /** The title, the bullets and the page label of a content slide. */
  function ContentMain(data: ProposalSlide, index: nat): seq<Element> {
    [TextBox(data.title, ContentTitleBox, ContentTitleStyle),
     Paragraphs(Bullets(data.content), BulletsBox, BulletsStyle, true),
     TextBox(NatToString(index + 1), PageLabelBox, PageLabelStyle)]
  }

  /** The elements `addContentSlide` draws for the slide at `index`, in order. */
  function ContentElements(data: ProposalSlide, index: nat, headerFails: bool, footerFails: bool): seq<Element> {
    [Shape(Rect, HeaderBarBox, Navy)] + HeaderLogo(headerFails) + ContentMain(data, index) + FooterLogo(footerFails)
  }

  /** `if (data.notes)`: notes that are present and not empty. */
  predicate NotesTruthy(notes: Option<string>) {
    notes.Some? && notes.value != ""
  }

  // ---------------------------------------------------------------------------
  // The slide builders

  /** `addTitleSlide`. The cover never receives speaker notes. */
  method AddTitleSlide(slide: PptSlide, data: ProposalSlide, logoFails: bool)
    modifies slide
    ensures slide.background == Some(Navy)
    ensures slide.elements == old(slide.elements) + CoverElements(data, logoFails)
    ensures slide.notes == old(slide.notes)
  {
    slide.background := Some(Navy);
    var threw := slide.AddImage(CoverLogoBox, logoFails);
    if threw {
      slide.AddText(CompanyName, CoverLogoBox, CoverLogoTextStyle);
    }
    slide.AddText(data.title, CoverTitleBox, CoverTitleStyle);
    var subtitle := Join(data.content, "\n");
    slide.AddText(subtitle, SubtitleBox, SubtitleStyle);
  }

  /** `addContentSlide`: the header and footer logos may each fail. */
  method AddContentSlide(slide: PptSlide, data: ProposalSlide, index: nat, headerFails: bool, footerFails: bool)
    modifies slide
    ensures slide.background == Some(White)
    ensures slide.elements == old(slide.elements) + ContentElements(data, index, headerFails, footerFails)
    ensures slide.notes == if NotesTruthy(data.notes) then data.notes else old(slide.notes)
  {
    slide.background := Some(White);
    slide.AddShape(Rect, HeaderBarBox, Navy);
    var threw := slide.AddImage(HeaderLogoBox, headerFails);
    if threw {
      slide.AddText(ShortCompanyName, HeaderLogoBox, HeaderLogoTextStyle);
    }
    slide.AddText(data.title, ContentTitleBox, ContentTitleStyle);
    slide.AddParagraphs(Bullets(data.content), BulletsBox, BulletsStyle, true);
    slide.AddText(NatToString(index + 1), PageLabelBox, PageLabelStyle);
    var footerThrew := slide.AddImage(FooterLogoBox, footerFails);
    if NotesTruthy(data.notes) {
      slide.AddNotes(data.notes.value);
    }
  }

  // ---------------------------------------------------------------------------
  // Properties of the drawn slides

  /** Exactly the element at position `k` of `es` lies in `box`. */
  ghost predicate OnlyAt(es: seq<Element>, box: Box, k: nat) {
    k < |es| && es[k].box == box && forall j :: 0 <= j < |es| && j != k ==> es[j].box != box
  }

  /** No element of `es` lies in `box`. */
  ghost predicate NoneAt(es: seq<Element>, box: Box) {
    forall j :: 0 <= j < |es| ==> es[j].box != box
  }

  /** The elements of `es` outside `box`, in order. */
  function Away(es: seq<Element>, box: Box): (r: seq<Element>)
    ensures |r| <= |es|
    ensures forall j :: 0 <= j < |r| ==> r[j].box != box
  {
    if |es| == 0 then [] else (if es[0].box == box then [] else [es[0]]) + Away(es[1..], box)
  }

  lemma {:induction false} AwayConcat(a: seq<Element>, b: seq<Element>, box: Box)
    ensures Away(a + b, box) == Away(a, box) + Away(b, box)
    decreases |a|
  {
    if |a| == 0 {
      assert a + b == b;
    } else {
      assert (a + b)[0] == a[0];
      assert (a + b)[1..] == a[1..] + b;
      AwayConcat(a[1..], b, box);
    }
  }

  /** Elements outside `box` all stay, elements inside it all go. */
  lemma {:induction false} AwayKeeps(es: seq<Element>, box: Box)
    requires forall j :: 0 <= j < |es| ==> es[j].box != box
    ensures Away(es, box) == es
    decreases |es|
  {
    if |es| > 0 {
      AwayKeeps(es[1..], box);
    }
  }

  lemma {:induction false} AwayDrops(es: seq<Element>, box: Box)
    requires forall j :: 0 <= j < |es| ==> es[j].box == box
    ensures Away(es, box) == []
    decreases |es|
  {
    if |es| > 0 {
      AwayDrops(es[1..], box);
    }
  }

  /** The cover's logo slot holds exactly one element: the logo, or the company
      name in its place when the image fails; the rest of the cover is drawn
      either way. */
  lemma CoverLogoSlot(data: ProposalSlide, logoFails: bool)
    ensures OnlyAt(CoverElements(data, logoFails), CoverLogoBox, 0)
    ensures CoverElements(data, logoFails)[0] ==
      if logoFails then TextBox(CompanyName, CoverLogoBox, CoverLogoTextStyle) else Image(CoverLogoBox)
    ensures Away(CoverElements(data, true), CoverLogoBox) == Away(CoverElements(data, false), CoverLogoBox)
  {
    var rest := [TextBox(data.title, CoverTitleBox, CoverTitleStyle),
                 TextBox(Join(data.content, "\n"), SubtitleBox, SubtitleStyle)];
    AwayConcat([TextBox(CompanyName, CoverLogoBox, CoverLogoTextStyle)], rest, CoverLogoBox);
    AwayConcat([Image(CoverLogoBox)], rest, CoverLogoBox);
  }

  /** The subtitle is the bullets joined by line feeds: splitting it at line
      feeds gives the bullets back when there is one or more and none holds a
      line feed of its own. */
  lemma CoverSubtitle(data: ProposalSlide, logoFails: bool)
    requires |data.content| >= 1
    requires forall k :: 0 <= k < |data.content| ==> '\n' !in data.content[k]
    ensures OnlyAt(CoverElements(data, logoFails), SubtitleBox, 2)
    ensures Split(CoverElements(data, logoFails)[2].text, '\n') == data.content
  {
    SplitJoin(data.content, '\n');
  }

  /** One numbered paragraph per bullet, in order, at size 18 with 12 points
      after it. */
  lemma ContentBullets(data: ProposalSlide, index: nat, headerFails: bool, footerFails: bool)
    ensures OnlyAt(ContentElements(data, index, headerFails, footerFails), BulletsBox, 3)
    ensures var e := ContentElements(data, index, headerFails, footerFails)[3];
      && e.Paragraphs? && |e.items| == |data.content|
      && forall k :: 0 <= k < |data.content| ==>
           e.items[k].text == data.content[k] && e.items[k].numbered
           && e.items[k].fontSize == 18 && e.items[k].paraSpaceAfter == 12
  {
  }

  /** The page label of the slide at `index` reads `index + 1`. */
  lemma ContentPageLabel(data: ProposalSlide, index: nat, headerFails: bool, footerFails: bool)
    ensures OnlyAt(ContentElements(data, index, headerFails, footerFails), PageLabelBox, 4)
    ensures DigitsValue(ContentElements(data, index, headerFails, footerFails)[4].text) == index + 1
  {
    NatToStringValue(index + 1);
  }

  /** A failed header logo gives way to the short company name in the same
      box. */
  lemma ContentHeaderLogoSlot(data: ProposalSlide, index: nat, headerFails: bool, footerFails: bool)
    ensures OnlyAt(ContentElements(data, index, headerFails, footerFails), HeaderLogoBox, 1)
    ensures ContentElements(data, index, headerFails, footerFails)[1] ==
      if headerFails then TextBox(ShortCompanyName, HeaderLogoBox, HeaderLogoTextStyle) else Image(HeaderLogoBox)
  {
  }

  /** A failed footer logo leaves its box empty. */
  lemma ContentFooterLogoSlot(data: ProposalSlide, index: nat, headerFails: bool, footerFails: bool)
    ensures footerFails <==> NoneAt(ContentElements(data, index, headerFails, footerFails), FooterLogoBox)
    ensures !footerFails ==> OnlyAt(ContentElements(data, index, headerFails, footerFails), FooterLogoBox, 5)
  {
    var es := ContentElements(data, index, headerFails, footerFails);
    if !footerFails {
      assert es[5] == Image(FooterLogoBox);
    }
  }

  /** The elements of a content slide outside the two logo boxes: the same
      whichever logo fails. */
  function ContentBody(data: ProposalSlide, index: nat): seq<Element> {
    [Shape(Rect, HeaderBarBox, Navy)] + ContentMain(data, index)
  }

  /** Removing the header logo box leaves the bar, the main part and the
      footer logo. */
  lemma AwayHeaderLogo(data: ProposalSlide, index: nat, headerFails: bool, footerFails: bool)
    ensures Away(ContentElements(data, index, headerFails, footerFails), HeaderLogoBox)
         == [Shape(Rect, HeaderBarBox, Navy)] + ContentMain(data, index) + FooterLogo(footerFails)
  {
    var bar := [Shape(Rect, HeaderBarBox, Navy)];
    var logo, main, foot := HeaderLogo(headerFails), ContentMain(data, index), FooterLogo(footerFails);
    assert ContentElements(data, index, headerFails, footerFails) == bar + logo + main + foot;
    AwayConcat(bar + logo + main, foot, HeaderLogoBox);
    AwayConcat(bar + logo, main, HeaderLogoBox);
    AwayConcat(bar, logo, HeaderLogoBox);
    AwayKeeps(bar, HeaderLogoBox);
    AwayDrops(logo, HeaderLogoBox);
    AwayKeeps(main, HeaderLogoBox);
    AwayKeeps(foot, HeaderLogoBox);
  }

  /** Neither logo failure touches any other element of a content slide. */
  lemma ContentLogoFailuresKeepRest(data: ProposalSlide, index: nat, headerFails: bool, footerFails: bool)
    ensures Away(Away(ContentElements(data, index, headerFails, footerFails), HeaderLogoBox), FooterLogoBox)
         == ContentBody(data, index)
  {
    var body, foot := ContentBody(data, index), FooterLogo(footerFails);
    AwayHeaderLogo(data, index, headerFails, footerFails);
    AwayConcat(body, foot, FooterLogoBox);
    AwayKeeps(body, FooterLogoBox);
    AwayDrops(foot, FooterLogoBox);
  }

  // ---------------------------------------------------------------------------
  // The presentation

  datatype Layout = Layout(width: real, height: real)

  const LayoutName := "A4"

  class Deck {
    var author: string
    var company: string
    var subject: string
    var title: string
    var layouts: map<string, Layout>
    var layout: string
    var slides: seq<PptSlide>

    /** `new PptxGenJS()`: the metadata is not yet set by the code (the
        library's own defaults are not modelled, since all four fields are
        overwritten), and there are no slides and no custom layouts. */
    constructor ()
      ensures author == "" && company == "" && subject == "" && title == ""
      ensures layouts == map[] && slides == []
    {
      author, company, subject, title := "", "", "", "";
      layouts := map[];
      layout := "LAYOUT_16x9";
      slides := [];
    }

    method DefineLayout(name: string, width: real, height: real)
      modifies this
      ensures layouts == old(layouts)[name := Layout(width, height)]
      ensures author == old(author) && company == old(company) && subject == old(subject)
      ensures title == old(title) && layout == old(layout) && slides == old(slides)
    {
      layouts := layouts[name := Layout(width, height)];
    }

    /** `addSlide`: a new empty slide at the end. */
    method AddSlide() returns (s: PptSlide)
      modifies this
      ensures fresh(s) && s.background.None? && s.elements == [] && s.notes.None?
      ensures slides == old(slides) + [s]
      ensures author == old(author) && company == old(company) && subject == old(subject)
      ensures title == old(title) && layouts == old(layouts) && layout == old(layout)
    {
      s := new PptSlide();
      slides := slides + [s];
    }
  }

  /** What the slide at `index` of the plan looks like once built. */
  function SlideBackground(index: nat): string {
    if index == 0 then Navy else White
  }

  function SlideElements(data: ProposalSlide, index: nat, logoFails: bool): seq<Element> {
    if index == 0 then CoverElements(data, logoFails) else ContentElements(data, index, logoFails, logoFails)
  }

  function SlideNotes(data: ProposalSlide, index: nat): Option<string> {
    if index > 0 && NotesTruthy(data.notes) then data.notes else None
  }

  ghost predicate Built(s: PptSlide, data: ProposalSlide, index: nat, logoFails: bool)
    reads s
  {
    s.background == Some(SlideBackground(index)) && s.elements == SlideElements(data, index, logoFails)
    && s.notes == SlideNotes(data, index)
  }

  /** A slide's elements outside the three logo boxes. */
  function WithoutLogos(es: seq<Element>): seq<Element> {
    Away(Away(Away(es, CoverLogoBox), HeaderLogoBox), FooterLogoBox)
  }

  /** A logo that cannot be embedded changes nothing on any slide but the
      logo boxes themselves. */
  lemma LogoFailureKeepsContent(data: ProposalSlide, index: nat)
    ensures WithoutLogos(SlideElements(data, index, true)) == WithoutLogos(SlideElements(data, index, false))
  {
    if index == 0 {
      CoverLogoSlot(data, true);
    } else {
      forall f: bool
        ensures WithoutLogos(SlideElements(data, index, f)) == ContentBody(data, index)
      {
        var es := ContentElements(data, index, f, f);
        AwayKeeps(es, CoverLogoBox);
        ContentLogoFailuresKeepRest(data, index, f, f);
        AwayKeeps(ContentBody(data, index), CoverLogoBox);
      }
    }
  }

  /** Page labels run 2, 3, ... on the content slides; the cover has none. */
  lemma PageLabels(data: ProposalSlide, index: nat, logoFails: bool)
    ensures index == 0 ==> NoneAt(SlideElements(data, index, logoFails), PageLabelBox)
    ensures index > 0 ==> OnlyAt(SlideElements(data, index, logoFails), PageLabelBox, 4)
                          && SlideElements(data, index, logoFails)[4].text == NatToString(index + 1)
  {
    if index > 0 {
      ContentPageLabel(data, index, logoFails, logoFails);
    }
  }

  /** Notes reach a slide only when it is a content slide and its notes are
      present and not empty. */
  lemma NotesRule(data: ProposalSlide, index: nat)
    ensures SlideNotes(data, index).Some? <==> index > 0 && data.notes.Some? && data.notes.value != ""
    ensures SlideNotes(data, index).Some? ==> SlideNotes(data, index) == data.notes
  {
  }

  /** The document title and subject both renderers write. */
  function DeckTitle(propertyTitle: string): string {
    propertyTitle + " 提案資料"
  }

  function Subject(propertyTitle: string, audience: string): string {
    propertyTitle + " - " + audience + "向け提案"
  }

  /** The metadata and the A4 layout of 10 by 7.5 inches. */
  ghost predicate DeckSettings(deck: Deck, propertyTitle: string, audience: string)
    reads deck
  {
    && deck.author == CompanyName && deck.company == CompanyName
    && deck.subject == Subject(propertyTitle, audience)
    && deck.title == DeckTitle(propertyTitle)
    && deck.layout == LayoutName && LayoutName in deck.layouts
    && deck.layouts[LayoutName] == Layout(10.0, 7.5)
  }

  /** The presentation `generatePowerPoint` builds for a plan: its settings,
      and one distinct built slide per planned slide, in order. */
  ghost predicate PowerPointOf(deck: Deck, content: ProposalContent, propertyTitle: string, audience: string,
                               logoFails: bool)
    reads deck, deck.slides
  {
    && DeckSettings(deck, propertyTitle, audience)
    && |deck.slides| == |content.slides|
    && (forall i :: 0 <= i < |deck.slides| ==> Built(deck.slides[i], content.slides[i], i, logoFails))
    && (forall i, j :: 0 <= i < j < |deck.slides| ==> deck.slides[i] != deck.slides[j])
  }

  /** `generatePowerPoint` up to `pptx.write`. The logo asset is the same for
      every call, so one flag says whether adding it fails. */
  method GeneratePowerPoint(content: ProposalContent, propertyTitle: string, audience: string, logoFails: bool)
    returns (deck: Deck)
    ensures fresh(deck)
    ensures PowerPointOf(deck, content, propertyTitle, audience, logoFails)
  {
    deck := new Deck();
    deck.author := CompanyName;
    deck.company := CompanyName;
    deck.subject := Subject(propertyTitle, audience);
    deck.title := DeckTitle(propertyTitle);
    deck.DefineLayout(LayoutName, 10.0, 7.5);
    deck.layout := LayoutName;
    var i := 0;
    while i < |content.slides|
      invariant 0 <= i <= |content.slides|
      invariant DeckSettings(deck, propertyTitle, audience)
      invariant |deck.slides| == i
      invariant forall j :: 0 <= j < i ==> Built(deck.slides[j], content.slides[j], j, logoFails)
      invariant forall j, k :: 0 <= j < k < i ==> deck.slides[j] != deck.slides[k]
    {
      var slide := AddBuiltSlide(deck, content.slides[i], i, logoFails);
      i := i + 1;
    }
  }

  /** One step of the `forEach`: a new slide, drawn by the cover builder at
      index 0 and by the content builder elsewhere. */
  method AddBuiltSlide(deck: Deck, data: ProposalSlide, index: nat, logoFails: bool) returns (slide: PptSlide)
    modifies deck
    ensures fresh(slide) && deck.slides == old(deck.slides) + [slide]
    ensures Built(slide, data, index, logoFails)
    ensures deck.author == old(deck.author) && deck.company == old(deck.company)
    ensures deck.subject == old(deck.subject) && deck.title == old(deck.title)
    ensures deck.layouts == old(deck.layouts) && deck.layout == old(deck.layout)
  {
    slide := deck.AddSlide();
    if index == 0 {
      AddTitleSlide(slide, data, logoFails);
    } else {
      AddContentSlide(slide, data, index, logoFails, logoFails);
    }
  }

  // ---------------------------------------------------------------------------
  // The PDF document definition

  /** A pdfmake margin: left, top, right, bottom. */
  datatype Margin = Margin(left: int, top: int, right: int, bottom: int)

  datatype ListItem = ListItem(text: string, margin: Margin)

  /** The entries `generatePDF` pushes: a styled paragraph, the empty
      paragraph that starts a new page, and a bulleted list. */
  datatype PdfEntry =
    | Para(text: string, style: string, alignment: Option<Align>, fontSize: Option<nat>, margin: Option<Margin>)
    | PageBreakBefore
    | List(items: seq<ListItem>, style: string)

  datatype DocInfo = DocInfo(title: string, author: string, subject: string)

  /** The cover entries: the company name, the cover title, the cover bullets. */
  function CoverEntries(cover: ProposalSlide): seq<PdfEntry> {
    [Para(CompanyName, "content", Some(Center), None, Some(Margin(0, 100, 0, 50))),
     Para(cover.title, "header", Some(Center), Some(32), None),
     Para(Join(cover.content, "\n"), "content", Some(Center), None, Some(Margin(0, 30, 0, 0)))]
  }

  function ListItems(content: seq<string>): seq<ListItem> {
    seq(|content|, k requires 0 <= k < |content| => ListItem(content[k], Margin(0, 5, 0, 5)))
  }

  /** The three entries of one content page. */
  function PageEntries(slide: ProposalSlide): seq<PdfEntry> {
    [PageBreakBefore, Para(slide.title, "subheader", None, None, None), List(ListItems(slide.content), "content")]
  }

  /** The entries of the content pages, in order. */
  function PagesEntries(slides: seq<ProposalSlide>): seq<PdfEntry> {
    if |slides| == 0 then [] else PagesEntries(slides[..|slides| - 1]) + PageEntries(slides[|slides| - 1])
  }

  function PdfContent(slides: seq<ProposalSlide>): seq<PdfEntry>
    requires |slides| >= 1
  {
    CoverEntries(slides[0]) + PagesEntries(slides[1..])
  }

  /** Each content page is three entries starting with a page break, so the
      document holds three entries per planned slide. */
  lemma {:induction false} PagesLayout(slides: seq<ProposalSlide>)
    ensures |PagesEntries(slides)| == 3 * |slides|
    ensures forall i :: 0 <= i < |slides| ==>
      PagesEntries(slides)[3 * i..3 * i + 3] == PageEntries(slides[i])
    decreases |slides|
  {
    if |slides| > 0 {
      var init := slides[..|slides| - 1];
      PagesLayout(init);
      forall i | 0 <= i < |slides|
        ensures PagesEntries(slides)[3 * i..3 * i + 3] == PageEntries(slides[i])
      {
        if i < |init| {
          assert PagesEntries(slides)[3 * i..3 * i + 3] == PagesEntries(init)[3 * i..3 * i + 3];
        } else {
          assert PagesEntries(slides)[3 * i..3 * i + 3] == PageEntries(slides[|slides| - 1]);
        }
      }
    }
  }

  lemma PdfLayout(slides: seq<ProposalSlide>)
    requires |slides| >= 1
    ensures |PdfContent(slides)| == 3 * |slides|
    ensures PdfContent(slides)[..3] == CoverEntries(slides[0])
    ensures forall i :: 1 <= i < |slides| ==>
      PdfContent(slides)[3 * i] == PageBreakBefore
      && PdfContent(slides)[3 * i + 1] == Para(slides[i].title, "subheader", None, None, None)
      && PdfContent(slides)[3 * i + 2] == List(ListItems(slides[i].content), "content")
  {
    var c := PdfContent(slides);
    var pages := PagesEntries(slides[1..]);
    PagesLayout(slides[1..]);
    assert c[..3] == CoverEntries(slides[0]);
    forall i | 1 <= i < |slides|
      ensures c[3 * i] == PageBreakBefore
      ensures c[3 * i + 1] == Para(slides[i].title, "subheader", None, None, None)
      ensures c[3 * i + 2] == List(ListItems(slides[i].content), "content")
    {
      var k := 3 * (i - 1);
      assert slides[1..][i - 1] == slides[i];
      assert pages[k..k + 3] == PageEntries(slides[i]);
      assert c[k + 3] == pages[k] == pages[k..k + 3][0];
      assert c[k + 4] == pages[k + 1] == pages[k..k + 3][1];
      assert c[k + 5] == pages[k + 2] == pages[k..k + 3][2];
    }
  }

  /** The page footer: company name, the page number and the page count. */
  function FooterText(currentPage: nat, pageCount: nat): string {
    CompanyName + " - " + NatToString(currentPage) + " / " + NatToString(pageCount)
  }

  /** The footer reads back as its two numbers: split at spaces it is the
      company name, a dash, the page, a slash and the count. */
  lemma FooterFields(currentPage: nat, pageCount: nat)
    ensures Split(FooterText(currentPage, pageCount), ' ')
         == [CompanyName, "-", NatToString(currentPage), "/", NatToString(pageCount)]
  {
    var p, n := NatToString(currentPage), NatToString(pageCount);
    assert ' ' !in p && ' ' !in n && ' ' !in CompanyName by {
      assert forall k :: 0 <= k < |CompanyName| ==> CompanyName[k] != ' ';
    }
    assert FooterText(currentPage, pageCount) == CompanyName + [' '] + ("-" + [' '] + (p + [' '] + ("/" + [' '] + n)));
    SplitAtFirst(CompanyName, ' ', "-" + [' '] + (p + [' '] + ("/" + [' '] + n)));
    SplitAtFirst("-", ' ', p + [' '] + ("/" + [' '] + n));
    SplitAtFirst(p, ' ', "/" + [' '] + n);
    SplitAtFirst("/", ' ', n);
    SplitNoSeparator(n, ' ');
  }

  lemma FooterInjective(p: nat, n: nat, p': nat, n': nat)
    requires FooterText(p, n) == FooterText(p', n')
    ensures p == p' && n == n'
  {
    FooterFields(p, n);
    FooterFields(p', n');
    NatToStringInjective(p, p');
    NatToStringInjective(n, n');
  }

  class DocDefinition {
    var info: DocInfo
    var content: seq<PdfEntry>
    var footer: Option<(nat, nat) -> string>

    constructor (info: DocInfo)
      ensures this.info == info && content == [] && footer.None?
    {
      this.info := info;
      content := [];
      footer := None;
    }

    /** `content.push(...)`. */
    method Push(entries: seq<PdfEntry>)
      modifies this
      ensures content == old(content) + entries
      ensures info == old(info) && footer == old(footer)
    {
      content := content + entries;
    }
  }

  /** The document definition `generatePDF` builds for a plan: the document
      information; with at least one slide, the cover and page entries and
      the page footer; without one, nothing, and `ok` false. */
  ghost predicate PdfOf(doc: DocDefinition, ok: bool, content: ProposalContent, propertyTitle: string,
                        audience: string)
    reads doc
  {
    && doc.info == DocInfo(DeckTitle(propertyTitle), CompanyName, Subject(propertyTitle, audience))
    && (ok <==> |content.slides| >= 1)
    && (ok ==> doc.content == PdfContent(content.slides) && doc.footer == Some(FooterText))
    && (!ok ==> doc.content == [] && doc.footer.None?)
  }

  /** One more pass of the page loop appends the next slide's entries. */
  lemma PagesEntriesStep(slides: seq<ProposalSlide>, i: nat)
    requires 1 <= i < |slides|
    ensures PagesEntries(slides[1..i + 1]) == PagesEntries(slides[1..i]) + PageEntries(slides[i])
  {
    assert slides[1..i + 1][..i - 1] == slides[1..i];
  }

  /** `generatePDF` up to `pdfMake.createPdf`. A plan without slides makes
      the cover lookup throw before anything is pushed; `ok` is false then. */
  method GeneratePdf(content: ProposalContent, propertyTitle: string, audience: string)
    returns (doc: DocDefinition, ok: bool)
    ensures fresh(doc)
    ensures PdfOf(doc, ok, content, propertyTitle, audience)
  {
    doc := new DocDefinition(DocInfo(DeckTitle(propertyTitle), CompanyName, Subject(propertyTitle, audience)));
    if |content.slides| == 0 {
      return doc, false;
    }
    var slides := content.slides;
    var info := doc.info;
    doc.Push(CoverEntries(slides[0]));
    for i := 1 to |slides|
      invariant doc.info == info && doc.footer.None?
      invariant doc.content == CoverEntries(slides[0]) + PagesEntries(slides[1..i])
    {
      PagesEntriesStep(slides, i);
      doc.Push(PageEntries(slides[i]));
    }
    assert slides[1..|slides|] == slides[1..];
    doc.footer := Some(FooterText);
    ok := true;
  }
}
