/**
  `extract_text`: normalise the file type, pick the extractor from the
  extension table and return its text.  What the parsers (PyMuPDF,
  python-pptx, python-docx, pandas, the Vision service) deliver is an input;
  the model keeps how the fragments are filtered and joined, when the
  result counts as empty, and how every failure is reported.
 */
module TextExtractor {
  import opened Wrappers
  import opened Exceptions
  import opened PyStrings
  import opened ObjectStore
  import opened FormatNames

  /** The extractors of `EXTENSION_HANDLER_MAP`. */
  datatype Extractor = PdfText | ImageText | DocxText | CsvText | XlsxText | PptxText | PlainText

  const HandlerMap: map<string, Extractor> := map[
    "pdf" := PdfText,
    "png" := ImageText,
    "jpg" := ImageText,
    "jpeg" := ImageText,
    "webp" := ImageText,
    "docx" := DocxText,
    "csv" := CsvText,
    "xlsx" := XlsxText,
    "pptx" := PptxText,
    "txt" := PlainText,
    "md" := PlainText
  ]

  const TopPrefix := "Failed to extract text: "
  const UnsupportedPrefix := "Unsupported file type: ."

  /** The text each extractor puts in front of whatever was raised inside it. */
  function FailurePrefix(x: Extractor): string {
    match x
    case PdfText => "PDF text extraction failed: "
    case ImageText => "Image text extraction failed: "
    case DocxText => "DOCX extraction failed: "
    case CsvText => "CSV extraction failed: "
    case XlsxText => "XLSX extraction failed: "
    case PptxText => "PPTX extraction failed: "
    case PlainText => "Text extraction failed: "
  }

  /** A shape of a slide: its `text`, when the shape has that attribute. */
  datatype Shape = Shape(text: Option<string>)

  /** A sheet as pandas read it: whether the frame is empty, and its `to_json(orient="records")` text. */
  datatype Table = Table(empty: bool, json: string)

  /** The Vision reply: status code, body text, and `fullTextAnnotation.text` when both keys are present. */
  datatype VisionReply = VisionReply(status: int, body: string, fullText: Option<string>)

  /**
    What the outside world delivers to one call, each as a value or the text
    of the exception raised: the download, and what each parser made of the
    downloaded bytes (only the chosen extractor's parser is consulted).
   */
  datatype Sources = Sources(
    download: Result<seq<byte>, string>,
    pages: Result<seq<string>, string>,
    slides: Result<seq<seq<Shape>>, string>,
    paragraphs: Result<seq<string>, string>,
    table: Result<Table, string>,
    decoded: Result<string, string>,
    token: Result<string, string>,
    vision: Result<VisionReply, string>)

  // ---------------------------------------------------------------------------
  // The fragment rules
  // ---------------------------------------------------------------------------

  /** The fragments whose strip is non-empty, unstripped, in order. */
  function NonBlank(parts: seq<string>): seq<string> {
    if parts == [] then []
    else NonBlank(parts[..|parts| - 1]) + (if IsBlank(parts[|parts| - 1]) then [] else [parts[|parts| - 1]])
  }

  /** What one shape contributes: its stripped text, when it has text that is not blank. */
  function ShapeText(shape: Shape): seq<string> {
    if shape.text.Some? && Strip(shape.text.value) != "" then [Strip(shape.text.value)] else []
  }

  function SlideTexts(shapes: seq<Shape>): seq<string> {
    if shapes == [] then [] else SlideTexts(shapes[..|shapes| - 1]) + ShapeText(shapes[|shapes| - 1])
  }

  /** The shape texts of a deck in slide-then-shape order. */
  function DeckTexts(slides: seq<seq<Shape>>): seq<string> {
    if slides == [] then [] else DeckTexts(slides[..|slides| - 1]) + SlideTexts(slides[|slides| - 1])
  }

  /** One more shape of a slide adds that shape's text. */
  lemma SlideTextsStep(shapes: seq<Shape>, j: nat)
    requires j < |shapes|
    ensures SlideTexts(shapes[..j + 1]) == SlideTexts(shapes[..j]) + ShapeText(shapes[j])
  {
    assert shapes[..j + 1][..j] == shapes[..j];
  }

  /** One more slide of a deck adds that slide's texts. */
  lemma DeckTextsStep(slides: seq<seq<Shape>>, i: nat)
    requires i < |slides|
    ensures DeckTexts(slides[..i + 1]) == DeckTexts(slides[..i]) + SlideTexts(slides[i])
  {
    assert slides[..i + 1][..i] == slides[..i];
  }

  /** The inner loop of `extract_text_from_pptx_file`: append one slide's shape texts. */
  method AppendSlideTexts(texts: seq<string>, shapes: seq<Shape>) returns (out: seq<string>)
    ensures out == texts + SlideTexts(shapes)
  {
    out := texts;
    var j := 0;
    while j < |shapes|
      invariant 0 <= j <= |shapes|
      invariant out == texts + SlideTexts(shapes[..j])
    {
      var shape := shapes[j];
      SlideTextsStep(shapes, j);
      if shape.text.Some? {
        var text := Strip(shape.text.value);
        if text != "" {
          out := out + [text];
        }
      }
      j := j + 1;
    }
    assert shapes[..|shapes|] == shapes;
  }

  /** The outer loop of `extract_text_from_pptx_file` that fills `extracted_texts`, slide by slide. */
  method CollectShapeTexts(slides: seq<seq<Shape>>) returns (texts: seq<string>)
    ensures texts == DeckTexts(slides)
  {
    texts := [];
    var i := 0;
    while i < |slides|
      invariant 0 <= i <= |slides|
      invariant texts == DeckTexts(slides[..i])
    {
      texts := AppendSlideTexts(texts, slides[i]);
      DeckTextsStep(slides, i);
      i := i + 1;
    }
    assert slides[..|slides|] == slides;
  }

  // ---------------------------------------------------------------------------
  // The extractors
  // ---------------------------------------------------------------------------

  /** Fail with `message` when the text's strip is empty, else return the text. */
  function RejectBlank(text: string, message: string): Result<string, string> {
    if Strip(text) == "" then Err(message) else Ok(text)
  }

  /**
    What an extractor's `try` block returns, or the text of what it raised:
    a failed download or parse, the blank-output `ValueError`, the Vision
    status error.
   */
  function Body(x: Extractor, src: Sources): Result<string, string> {
    if x == ImageText then
      match src.token
      case Err(m) => Err(m)
      case Ok(_) =>
        match src.vision
        case Err(m) => Err(m)
        case Ok(reply) =>
          if reply.status != 200 then Err("Vision API error: " + reply.body)
          else RejectBlank(if reply.fullText.Some? then reply.fullText.value else "", "No text found in image.")
    else
      match src.download
      case Err(m) => Err(m)
      case Ok(_) => Parsed(x, src)
  }

  /** The part after a successful download, for the extractors that download. */
  function Parsed(x: Extractor, src: Sources): Result<string, string>
    requires x != ImageText
  {
    match x
    case PdfText =>
      (match src.pages
       case Err(m) => Err(m)
       case Ok(pages) => RejectBlank(Join("\n\n", NonBlank(pages)), "No text found in PDF."))
    case PptxText =>
      (match src.slides
       case Err(m) => Err(m)
       case Ok(slides) => RejectBlank(Join("\n", DeckTexts(slides)), "PPTX file contains no extractable text."))
    case DocxText =>
      (match src.paragraphs
       case Err(m) => Err(m)
       case Ok(paragraphs) => RejectBlank(Join("\n", NonBlank(paragraphs)), "DOCX file contains no extractable text."))
    case XlsxText =>
      (match src.table
       case Err(m) => Err(m)
       case Ok(t) => if t.empty then Err("XLSX file is empty or unreadable.") else Ok(t.json))
    case CsvText =>
      (match src.table
       case Err(m) => Err(m)
       case Ok(t) => if t.empty then Err("CSV file is empty or unreadable.") else Ok(t.json))
    case PlainText =>
      (match src.decoded
       case Err(m) => Err(m)
       case Ok(text) => RejectBlank(Strip(text), "File is empty or unreadable."))
  }

  /** An extractor: the body, with anything raised re-raised as a `RuntimeError` carrying its prefix. */
  function Extract(x: Extractor, src: Sources): Result<string, Exception> {
    match Body(x, src)
    case Err(m) => Err(RuntimeError(FailurePrefix(x) + m))
    case Ok(text) => Ok(text)
  }

  /**
    `extract_text`, with the file type as a parameter.  Whatever goes wrong,
    including an unsupported type, is re-raised as a `RuntimeError` that
    starts with `Failed to extract text: `.
   */
  function ExtractText(fileType: string, src: Sources): Result<string, Exception> {
    var ext := Normalise(fileType);
    if ext in HandlerMap then
      match Extract(HandlerMap[ext], src)
      case Err(e) => Err(RuntimeError(TopPrefix + e.msg))
      case Ok(text) => Ok(text)
    else
      Err(RuntimeError(TopPrefix + UnsupportedPrefix + ext))
  }

  // ---------------------------------------------------------------------------
  // Facts
  // ---------------------------------------------------------------------------

  /** `NonBlank` keeps exactly the non-blank fragments: each kept one is not blank, and none is left only if all are. */
  lemma {:induction false} NonBlankSpec(parts: seq<string>)
    ensures forall k :: 0 <= k < |NonBlank(parts)| ==> !IsBlank(NonBlank(parts)[k])
    ensures forall p :: p in NonBlank(parts) ==> p in parts
    ensures NonBlank(parts) == [] <==> forall k :: 0 <= k < |parts| ==> IsBlank(parts[k])
  {
    if parts != [] {
      var init, last := parts[..|parts| - 1], parts[|parts| - 1];
      NonBlankSpec(init);
      assert forall k :: 0 <= k < |init| ==> init[k] == parts[k];
    }
  }

  /** Every collected shape text is stripped and non-empty. */
  lemma {:induction false} SlideTextsClean(shapes: seq<Shape>)
    ensures forall k :: 0 <= k < |SlideTexts(shapes)| ==>
      SlideTexts(shapes)[k] != "" && Strip(SlideTexts(shapes)[k]) == SlideTexts(shapes)[k]
  {
    if shapes != [] {
      var last := shapes[|shapes| - 1];
      SlideTextsClean(shapes[..|shapes| - 1]);
      if last.text.Some? {
        StripIdempotent(last.text.value);
      }
    }
  }

  lemma {:induction false} DeckTextsClean(slides: seq<seq<Shape>>)
    ensures forall k :: 0 <= k < |DeckTexts(slides)| ==>
      DeckTexts(slides)[k] != "" && Strip(DeckTexts(slides)[k]) == DeckTexts(slides)[k]
  {
    if slides != [] {
      DeckTextsClean(slides[..|slides| - 1]);
      SlideTextsClean(slides[|slides| - 1]);
    }
  }

  /** A stripped, non-empty text is not blank. */
  lemma CleanIsNotBlank(t: string)
    requires t != "" && Strip(t) == t
    ensures !IsBlank(t)
  {
    StripBlankIff(t);
  }

  /**
    The PDF extractor succeeds exactly when the download and the parse
    succeed and some page is not blank; it returns the `"\n\n"`-join of the
    non-blank pages as they are.
   */
  lemma PdfResult(src: Sources)
    requires src.download.Ok? && src.pages.Ok?
    ensures Body(PdfText, src).Ok? <==> exists k :: 0 <= k < |src.pages.value| && !IsBlank(src.pages.value[k])
    ensures Body(PdfText, src).Ok? ==> Body(PdfText, src).value == Join("\n\n", NonBlank(src.pages.value))
  {
    var kept := NonBlank(src.pages.value);
    NonBlankSpec(src.pages.value);
    JoinBlankIff("\n\n", kept);
    StripBlankIff(Join("\n\n", kept));
  }

  /** The DOCX extractor: the `"\n"`-join of the non-blank paragraphs, kept unstripped. */
  lemma DocxResult(src: Sources)
    requires src.download.Ok? && src.paragraphs.Ok?
    ensures Body(DocxText, src).Ok? <==> exists k :: 0 <= k < |src.paragraphs.value| && !IsBlank(src.paragraphs.value[k])
    ensures Body(DocxText, src).Ok? ==> Body(DocxText, src).value == Join("\n", NonBlank(src.paragraphs.value))
  {
    var kept := NonBlank(src.paragraphs.value);
    NonBlankSpec(src.paragraphs.value);
    JoinBlankIff("\n", kept);
    StripBlankIff(Join("\n", kept));
  }

  /** The PPTX extractor: the `"\n"`-join of the stripped shape texts; it fails exactly when there are none. */
  lemma PptxResult(src: Sources)
    requires src.download.Ok? && src.slides.Ok?
    ensures Body(PptxText, src).Ok? <==> DeckTexts(src.slides.value) != []
    ensures Body(PptxText, src).Ok? ==> Body(PptxText, src).value == Join("\n", DeckTexts(src.slides.value))
  {
    var texts := DeckTexts(src.slides.value);
    DeckTextsClean(src.slides.value);
    forall k | 0 <= k < |texts|
      ensures !IsBlank(texts[k])
    {
      CleanIsNotBlank(texts[k]);
    }
    JoinBlankIff("\n", texts);
    StripBlankIff(Join("\n", texts));
  }

  /** A plain-text file yields its stripped text; a missing Vision annotation counts as no text. */
  lemma PlainAndImageResults(src: Sources)
    ensures src.download.Ok? && src.decoded.Ok? ==>
      Body(PlainText, src) == if Strip(src.decoded.value) == "" then Err("File is empty or unreadable.")
                              else Ok(Strip(src.decoded.value))
    ensures src.token.Ok? && src.vision.Ok? && src.vision.value.status == 200 && src.vision.value.fullText.None? ==>
      Body(ImageText, src) == Err("No text found in image.")
  {
    if src.decoded.Ok? {
      StripIdempotent(src.decoded.value);
    }
  }

  /** Every extractor that checks for blank output returns text whose strip is not empty. */
  lemma SuccessIsNotBlank(x: Extractor, src: Sources)
    requires x != CsvText && x != XlsxText
    requires Extract(x, src).Ok?
    ensures Strip(Extract(x, src).value) != ""
  {
    if x == PlainText && src.decoded.Ok? {
      StripIdempotent(src.decoded.value);
    }
  }

  /**
    The image extractor does not download the file: it passes the URL to the
    Vision service, so its result does not depend on the download.
   */
  lemma ImageNeedsNoDownload(src: Sources, other: Result<seq<byte>, string>)
    ensures Body(ImageText, src.(download := other)) == Body(ImageText, src)
  {
  }

  /**
    The table holds exactly eleven extensions; the four image types share the
    image extractor and `txt`/`md` share the plain one.
   */
  lemma TableContents(ext: string)
    ensures ext in HandlerMap <==> ext in {"pdf", "png", "jpg", "jpeg", "webp", "docx", "csv", "xlsx", "pptx", "txt", "md"}
    ensures ext in {"png", "jpg", "jpeg", "webp"} ==> HandlerMap[ext] == ImageText
    ensures ext in {"txt", "md"} ==> HandlerMap[ext] == PlainText
  {
  }

  /** `extract_text` only ever fails with a `RuntimeError` that starts with its own prefix. */
  lemma FailuresAreRuntimeErrors(fileType: string, src: Sources)
    ensures ExtractText(fileType, src).Err? ==>
      ExtractText(fileType, src).error.RuntimeError? && StartsWith(ExtractText(fileType, src).error.msg, TopPrefix)
  {
    var r := ExtractText(fileType, src);
    var ext := Normalise(fileType);
    var m := if ext !in HandlerMap then UnsupportedPrefix + ext
             else if Extract(HandlerMap[ext], src).Err? then Extract(HandlerMap[ext], src).error.msg
             else "";
    if r.Err? {
      assert r.error == RuntimeError(TopPrefix + m);
      assert (TopPrefix + m)[..|TopPrefix|] == TopPrefix;
    }
  }

  /** An unsupported type is reported with its normalised name and a dot in front. */
  lemma UnsupportedType(fileType: string, src: Sources)
    requires Normalise(fileType) !in HandlerMap
    ensures ExtractText(fileType, src) == Err(RuntimeError(TopPrefix + UnsupportedPrefix + Normalise(fileType)))
  {
  }

  /** An extractor failure reaches the caller wrapped twice: the top prefix, then the extractor's own. */
  lemma ExtractorFailureWrappedTwice(fileType: string, src: Sources)
    requires Normalise(fileType) in HandlerMap
    requires Body(HandlerMap[Normalise(fileType)], src).Err?
    ensures ExtractText(fileType, src) ==
      Err(RuntimeError(TopPrefix + FailurePrefix(HandlerMap[Normalise(fileType)]) + Body(HandlerMap[Normalise(fileType)], src).error))
  {
    var x := HandlerMap[Normalise(fileType)];
    assert TopPrefix + (FailurePrefix(x) + Body(x, src).error) == TopPrefix + FailurePrefix(x) + Body(x, src).error;
  }
}
