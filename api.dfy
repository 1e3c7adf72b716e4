/** The helpers of the HTTP routes (src/routes/api.ts): the byte loops around
    `btoa` / `atob`, the data URL a generated file is stored under and read
    back from, the choice of renderer, extension and media type by the
    requested format, and the required-field checks. */
module Api {
  import opened Wrappers
  import opened Text
  import opened Bindings
  import opened Base64
  import opened PptxGenerator

  // ---------------------------------------------------------------------------
  // Bytes and Base64 text

  /** `arrayBufferToBase64`: the binary string of the bytes, then `btoa`. */
  method ArrayBufferToBase64(buffer: array<byte>) returns (r: string)
    ensures r == Encode(buffer[..])
  {
    var binary := "";
    for i := 0 to buffer.Length
      invariant binary == BinaryString(buffer[..i])
    {
      assert buffer[..i + 1] == buffer[..i] + [buffer[i]];
      binary := binary + [(buffer[i] as int) as char];
    }
    assert buffer[..buffer.Length] == buffer[..];
    BtoaOfBinaryString(buffer[..]);
    r := Btoa(binary).value;
  }

  /** `base64ToArrayBuffer`: `atob`, then each character code stored into a
      byte array (`Uint8Array` keeps the code modulo 256). `None` when `atob`
      throws. */
  method Base64ToArrayBuffer(base64: string) returns (r: Option<array<byte>>)
    ensures r.Some? <==> Decode(base64).Some?
    ensures r.Some? ==> fresh(r.value) && r.value[..] == Decode(base64).value
  {
    var decoded := Atob(base64);
    if decoded.None? {
      return None;
    }
    var binaryString := decoded.value;
    var bytes := new byte[|binaryString|];
    for i := 0 to |binaryString|
      invariant bytes[..i] == Decode(base64).value[..i]
    {
      bytes[i] := ((binaryString[i] as int) % 256) as byte;
    }
    assert bytes[..] == bytes[..|binaryString|];
    return Some(bytes);
  }

  // ---------------------------------------------------------------------------
  // The stored data URL

  const PptxMediaType := "application/vnd." + "openxmlformats-" + "officedocument." + "presentationml." + "presentation"
  const OdpMediaType := "application/vnd.oasis.opendocument.presentation"

  /** Every stored file is labelled as a PowerPoint file, whatever its format. */
  const DataUrlPrefix := "data:" + PptxMediaType + ";base64"

  /** The `file_url` column written for a generated file. */
  function FileUrl(base64: string): string {
    DataUrlPrefix + "," + base64
  }

  /** `file_url.split(',')[1]`: the second piece, or the text "undefined"
      that `atob(undefined)` would receive when there is none. */
  function StoredBase64(fileUrl: string): string {
    var pieces := Split(fileUrl, ',');
    if |pieces| >= 2 then pieces[1] else "undefined"
  }

  /** The prefix holds no comma and the encoding holds none, so splitting the
      stored URL at commas recovers exactly the Base64 text. */
  lemma StoredBase64OfFileUrl(bs: seq<byte>)
    ensures Split(FileUrl(Encode(bs)), ',') == [DataUrlPrefix, Encode(bs)]
    ensures StoredBase64(FileUrl(Encode(bs))) == Encode(bs)
  {
    assert ',' !in DataUrlPrefix by {
      assert ',' !in "data:" && ',' !in ";base64";
      assert ',' !in "application/vnd." && ',' !in "openxmlformats-" && ',' !in "officedocument.";
      assert ',' !in "presentationml." && ',' !in "presentation";
    }
    NoCommaInEncoding(bs);
    assert FileUrl(Encode(bs)) == DataUrlPrefix + [','] + Encode(bs);
    SplitAtFirst(DataUrlPrefix, ',', Encode(bs));
    SplitNoSeparator(Encode(bs), ',');
  }

  /** A row without a comma in its URL cannot be downloaded: `atob` rejects
      "undefined". */
  lemma UrlWithoutCommaFails(fileUrl: string)
    requires ',' !in fileUrl
    ensures Decode(StoredBase64(fileUrl)).None?
  {
    SplitNoSeparator(fileUrl, ',');
    assert |"undefined"| == 9;
  }

  /** Storing a generated file and downloading it gives back its bytes. */
  method StoreAndDownload(buffer: array<byte>) returns (r: Option<array<byte>>)
    ensures r.Some? && r.value[..] == buffer[..]
  {
    var base64File := ArrayBufferToBase64(buffer);
    var fileUrl := FileUrl(base64File);
    StoredBase64OfFileUrl(buffer[..]);
    EncodeDecode(buffer[..]);
    r := Base64ToArrayBuffer(StoredBase64(fileUrl));
  }

  // ---------------------------------------------------------------------------
  // Format, file name and media type

  datatype Renderer = PowerPointRenderer | PdfRenderer

  /** Only the exact text "pptx" selects the PowerPoint renderer. */
  function SelectRenderer(format: string): Renderer {
    if format == "pptx" then PowerPointRenderer else PdfRenderer
  }

  function Extension(format: string): string {
    if format == "pptx" then "pptx" else "odp"
  }

  /** The download name: the property title, `_提案資料.` and the extension. */
  function DownloadFilename(propertyTitle: string, format: string): string {
    propertyTitle + "_提案資料." + Extension(format)
  }

  function ContentType(format: string): string {
    if format == "pptx" then PptxMediaType else OdpMediaType
  }

  /** Generation and download apply the same test to the stored format:
      the renderer, the extension, the name and the media type agree. */
  lemma FormatAgreement(propertyTitle: string, format: string)
    ensures SelectRenderer(format) == PowerPointRenderer <==> Extension(format) == "pptx"
    ensures ContentType(format) == PptxMediaType <==> SelectRenderer(format) == PowerPointRenderer
    ensures Extension(format) == "odp" <==> SelectRenderer(format) == PdfRenderer
    ensures var name := DownloadFilename(propertyTitle, format);
      |name| > |Extension(format)| && name[|name| - |Extension(format)|..] == Extension(format)
  {
  }

  /** The download name determines the title and the extension. */
  lemma FilenameInjective(t1: string, f1: string, t2: string, f2: string)
    requires DownloadFilename(t1, f1) == DownloadFilename(t2, f2)
    ensures t1 == t2 && Extension(f1) == Extension(f2)
  {
    var n := DownloadFilename(t1, f1);
    assert n[|n| - 1] == Extension(f1)[|Extension(f1)| - 1];
    assert n[|n| - 1] == Extension(f2)[|Extension(f2)| - 1];
    var suffix := "_提案資料." + Extension(f1);
    assert n == t1 + suffix && n == t2 + suffix;
    assert t1 == n[..|n| - |suffix|] == t2;
  }

  /** The file the generate-proposal route renders: a deck for "pptx", a PDF
      document definition for every other format. */
  datatype Rendered = Deck(deck: PptxGenerator.Deck) | Document(doc: DocDefinition, ok: bool)

  /** Exactly the renderer the format selects, applied to the plan, the
      property title and the audience. */
  method RenderProposal(content: ProposalContent, propertyTitle: string, audience: string,
                        format: string, logoFails: bool)
    returns (r: Rendered, extension: string)
    ensures extension == Extension(format)
    ensures r.Deck? <==> SelectRenderer(format) == PowerPointRenderer
    ensures r.Deck? ==> fresh(r.deck) && PowerPointOf(r.deck, content, propertyTitle, audience, logoFails)
    ensures r.Document? ==> fresh(r.doc) && PdfOf(r.doc, r.ok, content, propertyTitle, audience)
  {
    if format == "pptx" {
      var deck := GeneratePowerPoint(content, propertyTitle, audience, logoFails);
      r, extension := Deck(deck), "pptx";
    } else {
      var doc, ok := GeneratePdf(content, propertyTitle, audience);
      r, extension := Document(doc, ok), "odp";
    }
  }

  // ---------------------------------------------------------------------------
  // Required fields

  /** A field of a JSON request body. JSON has no NaN, so a number is falsy
      exactly when it is zero. */
  datatype JsonValue = Absent | Null | Bool(b: bool) | Number(n: real) | Str(s: string) | Array | Object

  predicate JsonTruthy(v: JsonValue) {
    match v
    case Absent => false
    case Null => false
    case Bool(b) => b
    case Number(n) => n != 0.0
    case Str(s) => s != ""
    case Array => true
    case Object => true
  }

  datatype GenerateRequest = GenerateRequest(pdfUrl: JsonValue, pdfFilename: JsonValue, targetAudience: JsonValue,
                                             format: JsonValue, analysis: JsonValue)

  function RequiredFields(req: GenerateRequest): seq<JsonValue> {
    [req.pdfUrl, req.pdfFilename, req.targetAudience, req.format, req.analysis]
  }

  datatype Verdict = Proceed | Reject(status: nat, error: string)

  /** generate-proposal stops with 400 before any generation when a required
      field is falsy. */
  function CheckGenerateRequest(req: GenerateRequest): (r: Verdict)
    ensures r.Proceed? <==> forall v :: v in RequiredFields(req) ==> JsonTruthy(v)
    ensures r.Reject? ==> r.status == 400
  {
    if !JsonTruthy(req.pdfUrl) || !JsonTruthy(req.pdfFilename) || !JsonTruthy(req.targetAudience)
       || !JsonTruthy(req.format) || !JsonTruthy(req.analysis)
    then Reject(400, "Missing required fields")
    else Proceed
  }

  /** analyze-pdf stops with 400 when the URL is falsy. */
  function CheckAnalyzeRequest(pdfUrl: JsonValue): (r: Verdict)
    ensures r.Proceed? <==> JsonTruthy(pdfUrl)
    ensures r.Reject? ==> r.status == 400
  {
    if !JsonTruthy(pdfUrl) then Reject(400, "PDF URL is required") else Proceed
  }

  /** An empty audience is refused even when every other field is present. */
  lemma EmptyAudienceRejected(req: GenerateRequest)
    requires req.targetAudience == Str("")
    ensures CheckGenerateRequest(req) == Reject(400, "Missing required fields")
  {
  }
}
