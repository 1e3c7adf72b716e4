# Proposal deck generator: a verified model of its core

The repository turns the text of a real-estate brochure into a proposal
deck for a named audience. It has four steps:

1. It extracts the property facts, either through a language model or
   through three label-anchored patterns.
2. It plans five slides for the audience.
3. It draws the deck as PowerPoint slides or as a PDF document definition.
4. It stores the file as a Base64 data URL and reads it back when the file
   is downloaded.

This project models those four steps in Dafny, one module per source file.
It proves what each step promises.

- `Text`: the JavaScript string operations the code relies on, over
  `seq<char>`: `includes`, `split`/`join` with one separator, `trim` and
  the `\s` class, and `${n}` for a natural number.
- `Bindings`: the `PDFAnalysis` record and the `ProposalSlide` /
  `ProposalContent` plan.
- `Inference`: the shared dispatch of both AI paths, and the greedy
  `\{[\s\S]*\}` span. The service is an oracle
  (`AiBinding = Unbound | Bound(run)`), and `JSON.parse` is a parameter
  whose `None` stands for a throw. Each outcome records whether the value
  came from the service and which requests were sent.
- `PdfAnalyzer`: `analyzePDFWithAI` and `fallbackAnalysis`. Each pattern is
  a matcher at one position plus a leftmost search. Lemmas tie each matcher
  to a ghost statement of the regular expression.
- `ProposalGenerator`: the first-match audience classifier, the prompt,
  the five-slide fallback plan (the date is a parameter), and
  `generateProposalContent`.
- `PptxGenerator`: the imperative part.
  - `PptSlide` is a class whose `Add*` methods append to an element list.
  - `Deck` is a class that holds the metadata, the layouts and the slides.
  - `GeneratePowerPoint` builds one slide per plan slide in a loop. Its
    invariant says every slide so far is built as the specification
    functions `SlideElements` / `SlideNotes` describe.
  - `addImage` takes a `fails` flag, so the logo fallbacks are proved.
  - `DocDefinition` is a class whose `Push` grows the pdfMake content
    list. `GeneratePdf` fills it in a loop and sets the page footer.
- `Base64`: Base64 as section 4 of RFC 4648 defines it, with the binary
  strings `btoa` and `atob` take and give.
- `Api`: the helpers of the HTTP routes:
  - the loops of `arrayBufferToBase64` and `base64ToArrayBuffer` over an
    `array<byte>`;
  - the stored data URL and its split;
  - format dispatch, file name and media type;
  - the required-field checks.
- `Scenarios`: an empty brochure, end to end, without the service.

Where the code and the design disagree, the model follows the code:

- The audience keywords are Japanese. An English audience such as
  "individual investor" gets the default guidance (`EnglishAudienceIsGeneral`).
- Every format other than the exact text `pptx` is rendered by
  `generatePDF`, named `.odp` and served as an OpenDocument presentation.
  No format is rejected.
- `api.ts` imports `generateODF`, which `pptxGenerator.ts` does not define.
  The non-pptx renderer is modelled as `generatePDF`.
- The stored data URL always carries the PowerPoint media type, whatever
  the format.
- The JSON span is greedy: from the first `{` to the last `}`. It is not
  a balanced-brace scan.
- Notes are attached only when they are truthy, and only on content
  slides. The cover builder never attaches notes.
- The cover has no page label. The labels on the content slides run from
  2 to n.
- On the AI paths the parsed value is returned unchecked. Nothing is
  promised about its shape or slide count.

## Model

| member | source | states |
|---|---|---|
| Text.Includes | src/utils/proposalGenerator.ts:82-112 | the executable substring test holds exactly when the word occurs at some position of the text |
| Text.Trim | src/utils/pdfAnalyzer.ts:76 | `trim` returns a contiguous part of the text with only whitespace before and after it, and neither end of the result is whitespace |
| Text.TrimKeepsOnly | src/utils/pdfAnalyzer.ts:76 | trimming introduces no character that was not in the text |
| Text.SplitJoin | src/utils/pptxGenerator.ts:92 | splitting a join at its one-character separator gives back the items when none contains the separator |
| Text.SplitAtFirst | src/routes/api.ts:161 | `split` cuts at the first separator: the part before it is the first piece |
| Text.OccursInConcat | src/utils/proposalGenerator.ts:11-46 | every piece of a template literal occurs in its text |
| Text.NatToStringInjective | src/utils/pptxGenerator.ts:180 | different page numbers have different decimal texts |
| Text.NatToStringValue | src/utils/pptxGenerator.ts:180 | the decimal text of n reads back as n |
| Inference.JsonSpan | src/utils/pdfAnalyzer.ts:50 | there is no span exactly when no `{` precedes a `}`; otherwise the span runs from the first `{` to a `}` after which none follows |
| Inference.JsonSpanOfWrapped | src/utils/proposalGenerator.ts:62 | an answer that is one braced object between brace-free prose yields exactly that object |
| Inference.AskAi | src/utils/proposalGenerator.ts:48-73 | one request when bound, none when not; the value is the parsed span exactly when the call replied, a span exists and it parses; in every other case it is the fallback |
| PdfAnalyzer.NumberAtIsRegexMatch | src/utils/pdfAnalyzer.ts:70-72 | the number matcher at a position succeeds exactly when the label, separator, whitespace, a maximal non-empty run and the unit follow there, and returns the run with the unit |
| PdfAnalyzer.LocationAtIsRegexMatch | src/utils/pdfAnalyzer.ts:71 | the location matcher succeeds exactly when the regular expression matches at that position, and returns its capture |
| PdfAnalyzer.Search | src/utils/pdfAnalyzer.ts:70-72 | the search returns the match at the leftmost matching position, and none when no position matches |
| PdfAnalyzer.NumberSearchIsLeftmostMatch | src/utils/pdfAnalyzer.ts:70-72 | the price and land patterns find nothing exactly when no position matches the regular expression; otherwise they find the capture at the leftmost position |
| PdfAnalyzer.LocationSearchIsLeftmostMatch | src/utils/pdfAnalyzer.ts:71 | the same for the location pattern |
| PdfAnalyzer.Summary | src/utils/pdfAnalyzer.ts:81 | the summary is the first min(200, length) characters followed by `...`, at most 203 characters, and `...` for empty text |
| PdfAnalyzer.FallbackAnalysis | src/utils/pdfAnalyzer.ts:74-85 | fixed title; no-information building area, zoning and status; one feature placeholder; no facilities; the summary rule |
| PdfAnalyzer.FallbackPrice | src/utils/pdfAnalyzer.ts:70-77 | price is the no-information text exactly when no position matches `価格[：:]\s*([0-9,]+万円)`, otherwise the leftmost capture |
| PdfAnalyzer.FallbackLandArea | src/utils/pdfAnalyzer.ts:72-78 | the same for the land area with `土地[：:]\s*([0-9.]+坪)` |
| PdfAnalyzer.FallbackLocation | src/utils/pdfAnalyzer.ts:71-76 | no match gives the no-information text; a match gives the trimmed leftmost capture; the location never holds a newline |
| PdfAnalyzer.AnalysisPrompt | src/utils/pdfAnalyzer.ts:16-33 | the prompt is the fixed head, the first min(3000, length) characters of the text and the fixed tail |
| PdfAnalyzer.PromptSeesOnlyPrefix | src/utils/pdfAnalyzer.ts:19 | texts that agree on their first 3000 characters give the same prompt |
| PdfAnalyzer.AnalyzePdfWithAi | src/utils/pdfAnalyzer.ts:6-61 | an absent binding gives exactly the fallback with no request; otherwise one request, and the parsed span is returned exactly when the call replied, a brace span exists and it parses; in every other case the fallback |
| ProposalGenerator.ToLower | src/utils/proposalGenerator.ts:80 | lower-casing keeps the length and maps each character on its own |
| ProposalGenerator.LowerKeepsKeywordOccurrences | src/utils/proposalGenerator.ts:80-112 | lower-casing changes no occurrence of a keyword without ASCII letters |
| ProposalGenerator.IncludesAny | src/utils/proposalGenerator.ts:82-112 | the `\|\|` of `includes` tests holds exactly when one keyword of the group occurs |
| ProposalGenerator.Classify | src/utils/proposalGenerator.ts:79-119 | each profile is chosen exactly when its group matches and no earlier group does; the default exactly when none of the eight keywords occurs |
| ProposalGenerator.InvestorKeywordWins | src/utils/proposalGenerator.ts:82-88 | any text containing an investor keyword gets the investor guidance, whatever else it contains |
| ProposalGenerator.EnglishAudienceIsGeneral | src/utils/proposalGenerator.ts:114-118 | the English audience "individual investor" gets the default guidance |
| ProposalGenerator.ContentPrompt | src/utils/proposalGenerator.ts:11-46 | the prompt contains the audience, the facts block and the audience's guidance |
| ProposalGenerator.FallbackContent | src/utils/proposalGenerator.ts:124-172 | five slides with the fixed titles in order; a four-bullet cover naming title, location, audience and date; a four-bullet overview with price, land area, zoning and status whose notes are the summary; no other notes; the placeholder rules; the fixed final slide |
| ProposalGenerator.FallbackIgnoresBuildingArea | src/utils/proposalGenerator.ts:124-172 | plans for facts that differ only in building area are equal |
| ProposalGenerator.GenerateProposalContent | src/utils/proposalGenerator.ts:6-74 | one request with the prompt and 3072 tokens when bound; the parsed span is returned exactly when the call replied, a brace span exists and it parses; in every other case the five-slide fallback |
| PptxGenerator.PptSlide.AddText | src/utils/pptxGenerator.ts:79-89 | appends one text element and changes nothing else |
| PptxGenerator.PptSlide.AddParagraphs | src/utils/pptxGenerator.ts:157-176 | appends one paragraph list and changes nothing else |
| PptxGenerator.PptSlide.AddShape | src/utils/pptxGenerator.ts:113-119 | appends one shape and changes nothing else |
| PptxGenerator.PptSlide.AddImage | src/utils/pptxGenerator.ts:56-76 | appends the image when the library does not throw, and leaves the slide as it was when it does |
| PptxGenerator.PptSlide.AddNotes | src/utils/pptxGenerator.ts:204-206 | sets the notes and changes nothing else |
| PptxGenerator.AddTitleSlide | src/utils/pptxGenerator.ts:51-103 | navy background; appends the cover elements; keeps the notes |
| PptxGenerator.AddContentSlide | src/utils/pptxGenerator.ts:108-207 | white background; appends the content elements; notes set exactly when they are truthy |
| PptxGenerator.CoverLogoSlot | src/utils/pptxGenerator.ts:53-76 | exactly one element, the first, lies in the cover logo box: the logo, or the company name when the image throws |
| PptxGenerator.CoverSubtitle | src/utils/pptxGenerator.ts:92-102 | the subtitle splits at newlines back into the bullets |
| PptxGenerator.ContentBullets | src/utils/pptxGenerator.ts:157-176 | one numbered paragraph per bullet, in order, at size 18 with 12 points after |
| PptxGenerator.ContentPageLabel | src/utils/pptxGenerator.ts:179-187 | exactly one element in the label box, and it reads as index + 1 |
| PptxGenerator.ContentHeaderLogoSlot | src/utils/pptxGenerator.ts:122-142 | exactly one element in the header logo box: the image, or the short company name when it throws |
| PptxGenerator.ContentFooterLogoSlot | src/utils/pptxGenerator.ts:190-201 | the footer logo box is empty exactly when the image throws |
| PptxGenerator.ContentLogoFailuresKeepRest | src/utils/pptxGenerator.ts:122-201 | outside the two logo boxes a content slide is the same whichever logo fails |
| PptxGenerator.LogoFailureKeepsContent | src/utils/pptxGenerator.ts:51-207 | outside the logo boxes every slide is the same whether the logo fails or not |
| PptxGenerator.PageLabels | src/utils/pptxGenerator.ts:31-41 | the cover has no page label; the slide at index i > 0 has one, the text of i + 1 |
| PptxGenerator.NotesRule | src/utils/pptxGenerator.ts:204-206 | a built slide has notes exactly when it is a content slide with non-empty notes, and then they are the planned notes |
| PptxGenerator.Deck.constructor | src/utils/pptxGenerator.ts:18 | a new presentation has no slides and no custom layouts; its metadata is not yet set by the code |
| PptxGenerator.Deck.DefineLayout | src/utils/pptxGenerator.ts:27 | adds the named layout and changes nothing else |
| PptxGenerator.Deck.AddSlide | src/utils/pptxGenerator.ts:32 | appends one fresh empty slide and changes nothing else |
| PptxGenerator.GeneratePowerPoint | src/utils/pptxGenerator.ts:12-46 | the metadata, the A4 layout of 10 by 7.5, one distinct slide per plan slide in order, each built by the cover builder at index 0 and by the content builder elsewhere |
| PptxGenerator.AddBuiltSlide | src/utils/pptxGenerator.ts:32-40 | appends one fresh slide drawn by the cover builder at index 0 and by the content builder elsewhere, and leaves the presentation settings as they were |
| PptxGenerator.PagesLayout | src/utils/pptxGenerator.ts:274-288 | three entries per content slide, block i being that slide's entries |
| PptxGenerator.PdfLayout | src/utils/pptxGenerator.ts:251-288 | three cover entries, then per further slide a page break, its title and its bullet list |
| PptxGenerator.FooterFields | src/utils/pptxGenerator.ts:291-298 | the footer splits at spaces into the company name, a dash, the page, a slash and the page count |
| PptxGenerator.FooterInjective | src/utils/pptxGenerator.ts:293 | different page numbers or counts give different footers |
| PptxGenerator.DocDefinition.Push | src/utils/pptxGenerator.ts:252 | appends the entries and changes nothing else |
| PptxGenerator.GeneratePdf | src/utils/pptxGenerator.ts:212-298 | the document information; with at least one slide the cover and page entries and the footer; without a slide nothing is pushed |
| Base64.DecodeChar | src/routes/api.ts:247 | a character decodes only to the sextet that encodes to it |
| Base64.SextetRoundTrip | src/routes/api.ts:243-247 | every sextet decodes back from its character |
| Base64.Encode | src/routes/api.ts:243 | the text has 4 characters per started group of 3 bytes, each from the alphabet or the pad |
| Base64.DecodeQuad | src/routes/api.ts:247 | a decoded group is 1 to 3 bytes, and only the last may be short |
| Base64.Decode | src/routes/api.ts:247 | only text whose length is a multiple of 4 decodes |
| Base64.BlockRoundTrip | src/routes/api.ts:243-247 | a full group of three bytes decodes back from its four characters |
| Base64.EncodeDecode | src/routes/api.ts:243-247 | decoding the encoding of any bytes gives them back |
| Base64.NoCommaInEncoding | src/routes/api.ts:161 | no encoding holds a comma |
| Base64.BinaryString | src/routes/api.ts:240-242 | one character per byte, with code equal to the byte |
| Base64.Btoa | src/routes/api.ts:243 | `btoa` succeeds exactly on binary strings |
| Base64.Atob | src/routes/api.ts:247 | `atob` succeeds exactly on decodable text and gives the binary string of the bytes |
| Base64.BtoaOfBinaryString | src/routes/api.ts:240-243 | `btoa` of the bytes' binary string is their encoding |
| Base64.AtobBtoa | src/routes/api.ts:243-247 | `atob(btoa(s)) == s` for every binary string |
| Api.ArrayBufferToBase64 | src/routes/api.ts:237-244 | the result is the encoding of the buffer's bytes |
| Api.Base64ToArrayBuffer | src/routes/api.ts:246-253 | a fresh array holding the decoded bytes exactly when the text decodes |
| Api.StoredBase64OfFileUrl | src/routes/api.ts:108-161 | the stored URL splits at commas into the prefix and the encoding, so the second piece is the encoding |
| Api.UrlWithoutCommaFails | src/routes/api.ts:161-162 | a URL without a comma yields no bytes |
| Api.StoreAndDownload | src/routes/api.ts:84-162 | storing a file and reading it back gives the same bytes |
| Api.FormatAgreement | src/routes/api.ts:71-174 | renderer, extension, file name and media type are chosen by the same test, and the name ends in the extension |
| Api.FilenameInjective | src/routes/api.ts:164-167 | the download name determines the title and the extension |
| Api.RenderProposal | src/routes/api.ts:71-81 | "pptx" yields exactly the deck `generatePowerPoint` builds from the plan, title and audience (`PowerPointOf`); any other format yields the document `generatePDF` builds (`PdfOf`), with extension `odp` |
| Api.CheckGenerateRequest | src/routes/api.ts:56-58 | the request proceeds exactly when all five required fields are truthy, else 400 |
| Api.CheckAnalyzeRequest | src/routes/api.ts:18-20 | the request proceeds exactly when the URL is truthy, else 400 |
| Api.EmptyAudienceRejected | src/routes/api.ts:56-58 | an empty audience is refused with 400 |
| Scenarios.EmptyBrochureFacts | src/utils/pdfAnalyzer.ts:11-85 | without the service an empty brochure gives the default title, the no-information text in every pattern field and `...` as summary |
| Scenarios.EmptyBrochurePlan | src/utils/proposalGenerator.ts:124-147 | its plan for an individual investor has five slides, names the audience on the cover and shows the no-information text in the overview; the audience classifies as investor |
| Scenarios.ListsReplacePlaceholders | src/utils/proposalGenerator.ts:150-158 | three features and two facilities appear as they are on slides three and four |
| Scenarios.RenderedLabels | src/utils/pptxGenerator.ts:179-187 | a five-slide plan renders with no label on the cover and the label `5` on the last slide |
| Scenarios.EmptyBrochureDeck | src/utils/pptxGenerator.ts:12-46 | the empty brochure's deck has five slides labelled as above |

## Left out

- Network and storage: `fetch`, the D1 SQL inserts, selects and usage
  counter, `uuidv4`, `parseInt` of query parameters, and HTTP responses.
  The routes are modelled only through their helpers and their
  required-field checks.
- `extractTextFromPDF` is network I/O; the brochure text is a parameter.
- The language model (`ai.run`) is an oracle parameter, and `JSON.parse`
  is a parameter that may fail. The parsed value is never validated, so
  nothing is proved about its shape.
- Inference.AskAi, PdfAnalyzer.AnalyzePdfWithAi and
  ProposalGenerator.GenerateProposalContent: the parse oracle returns a
  well-formed `Analysis` or `ProposalContent` record or fails. A JSON
  answer of another shape, such as `{"x":1}`, is returned by the source as
  it is. The `TypeError` it causes later (`content.slides.forEach`, or
  `analysis.keyFeatures.join` outside the `try`) and the route's 500
  answer are not modelled.
- Console logging.
- `pptx.write` and `pdfMake.createPdf(...).getBuffer` produce real file
  bytes. The model stops at the element lists. The bytes handed to the
  Base64 helpers are an arbitrary `array<byte>`.
- The logo data in `./logo` is not part of this model. An image element
  carries only its box.
- The pdfMake `pageSize`, `pageMargins`, `defaultStyle` and `styles`
  constants are not modelled. Entries refer to styles by name.
- The footer's `alignment`, `fontSize` and `margin` are not modelled;
  only its text is.
- The date: `new Date().toLocaleDateString('ja-JP')` is a parameter.
- The unused `lines` filter in `fallbackAnalysis` is dropped; nothing
  reads it.
- `Content-Disposition` and `encodeURIComponent` of the file name are not
  modelled; only the name itself is.
- ProposalGenerator.ToLower: only ASCII letters are lowered. The keywords
  hold no cased letters, so classification does not depend on the rest.
- Text: JavaScript strings are UTF-16 code units, while Dafny's `char` is a
  Unicode scalar value. Positions and lengths differ for characters
  outside the Basic Multilingual Plane, for example in the 3000 and 200
  character limits.
- Base64.Decode: `atob` is forgiving. It skips ASCII whitespace and accepts
  missing padding. The model decodes only strict, padded text, which is
  all `btoa` produces.
- Base64.Btoa: a character above U+00FF makes `btoa` throw, which the
  model states as `None`. The route only passes binary strings.
- PptxGenerator.GeneratePowerPoint: one `logoFails` flag stands for every
  logo `addImage` call, because the same asset is added each time.
- PptxGenerator.PptSlide: the slide's position, font and colour options are
  recorded as given; PptxGenJS's rendering of them is not modelled.
