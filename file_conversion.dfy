/**
  `convert_file_format`: normalise the two format names, look the pair up in
  the conversion table, run the converter and upload its bytes.  The
  converters' own work (Spire, pandas, temporary files) is a library
  function of the input bytes; this module models what surrounds it.
 */
module FileConversion {
  import opened Wrappers
  import opened Exceptions
  import opened PyStrings
  import opened Timestamps
  import opened ObjectStore
  import Utils
  import opened FormatNames

  datatype FileConvertInput = FileConvertInput(fileUrl: string, inputFormat: string, outputFormat: string)

  /** The nine converters of `conversion_map`. */
  datatype Converter =
    | DocxToPdf | CsvToPdf | CsvToXlsx | XlsxToCsv | XlsxToPdf | PptxToPdf | PdfToDocx | PdfToPptx | PdfToXlsx

  /** `conversion_map`, keyed on normalised (input, output) pairs. */
  const ConversionMap: map<(string, string), Converter> := map[
    ("docx", "pdf") := DocxToPdf,
    ("csv", "pdf") := CsvToPdf,
    ("csv", "xlsx") := CsvToXlsx,
    ("xlsx", "csv") := XlsxToCsv,
    ("xlsx", "pdf") := XlsxToPdf,
    ("pptx", "pdf") := PptxToPdf,
    ("pdf", "docx") := PdfToDocx,
    ("pdf", "pptx") := PdfToPptx,
    ("pdf", "xlsx") := PdfToXlsx
  ]

  /** The (input, output) formats a converter reads and writes. */
  function Formats(c: Converter): (string, string) {
    match c
    case DocxToPdf => ("docx", "pdf")
    case CsvToPdf => ("csv", "pdf")
    case CsvToXlsx => ("csv", "xlsx")
    case XlsxToCsv => ("xlsx", "csv")
    case XlsxToPdf => ("xlsx", "pdf")
    case PptxToPdf => ("pptx", "pdf")
    case PdfToDocx => ("pdf", "docx")
    case PdfToPptx => ("pdf", "pptx")
    case PdfToXlsx => ("pdf", "xlsx")
  }

  /** The text each converter puts in front of a failure, as in `Failed to convert DOCX to PDF: `. */
  function FailurePrefix(c: Converter): string {
    match c
    case DocxToPdf => "Failed to convert DOCX to PDF: "
    case CsvToPdf => "Failed to convert CSV to PDF: "
    case CsvToXlsx => "Failed to convert CSV to XLSX: "
    case XlsxToCsv => "Failed to convert XLSX to CSV: "
    case XlsxToPdf => "Failed to convert XLSX to PDF: "
    case PptxToPdf => "Failed to convert PPTX to PDF: "
    case PdfToDocx => "Failed to convert PDF to DOCX: "
    case PdfToPptx => "Failed to convert PDF to PPTX: "
    case PdfToXlsx => "Failed to convert PDF to XLSX: "
  }

  function UnsupportedMessage(input: FileConvertInput): string {
    "Conversion from " + input.inputFormat + " to " + input.outputFormat + " is not supported."
  }

  /**
    What the conversion library does with some input bytes for a one-step
    conversion `c`, including writing and reading the temporary files: the
    produced bytes, or the text of the exception it raised.
   */
  type Library = (Converter, seq<byte>) -> Result<seq<byte>, string>

  /**
    A one-step converter: download, then the library step, any failure
    re-raised as a `RuntimeError` naming the pair.
   */
  function ConvertDirect(c: Converter, download: Result<seq<byte>, string>, lib: Library): Result<seq<byte>, Exception> {
    match download
    case Err(m) => Err(RuntimeError(FailurePrefix(c) + m))
    case Ok(bytes) =>
      match lib(c, bytes)
      case Err(m) => Err(RuntimeError(FailurePrefix(c) + m))
      case Ok(out) => Ok(out)
  }

  /**
    The converter for `c`, run on the downloaded bytes or on the text of the
    download error.  `csv -> pdf` first runs the `csv -> xlsx` converter and
    then the Spire steps of `xlsx -> pdf` on its output.
   */
  function Convert(c: Converter, download: Result<seq<byte>, string>, lib: Library): Result<seq<byte>, Exception> {
    if c == CsvToPdf then
      match ConvertDirect(CsvToXlsx, download, lib)
      case Err(e) => Err(RuntimeError(FailurePrefix(c) + e.msg))
      case Ok(xlsx) =>
        match lib(XlsxToPdf, xlsx)
        case Err(m) => Err(RuntimeError(FailurePrefix(c) + m))
        case Ok(pdf) => Ok(pdf)
    else
      ConvertDirect(c, download, lib)
  }

  /** What one call did: whether the file was downloaded, the storage requests made, and the result. */
  datatype Run = Run(downloaded: bool, requests: seq<Call>, result: Result<string, Exception>)

  /**
    `convert_file_format`.  The storage key is built from the raw
    `output_format`, not its normalised form; the bucket is the configured
    bucket name, the instant and uuid are inputs.
   */
  function ConvertFileFormat(input: FileConvertInput, bucket: string, now: DateTime, uid: string,
                             download: Result<seq<byte>, string>, lib: Library, replies: UploadReplies): Run
    requires Valid(now)
  {
    var pair := (Normalise(input.inputFormat), Normalise(input.outputFormat));
    if pair !in ConversionMap then
      Run(false, [], Err(ValueError(UnsupportedMessage(input))))
    else
      match Convert(ConversionMap[pair], download, lib)
      case Err(e) => Run(true, [], Err(e))
      case Ok(bytes) =>
        var key := Utils.UniqueObjectKey(now, uid, input.outputFormat);
        Run(true,
            Utils.UploadCalls(bucket, key, bytes, Utils.DefaultContentType, Utils.DefaultExpirySeconds, replies),
            Utils.UploadOutcome(replies))
  }

  // ---------------------------------------------------------------------------
  // Facts
  // ---------------------------------------------------------------------------

  /** The table holds exactly the nine listed pairs, and each maps to the converter for that pair. */
  lemma TableIsExactlyTheConverters(src: string, dst: string)
    ensures (src, dst) in ConversionMap <==> exists c :: Formats(c) == (src, dst)
    ensures (src, dst) in ConversionMap ==> Formats(ConversionMap[(src, dst)]) == (src, dst)
    ensures src == dst ==> (src, dst) !in ConversionMap
  {
    if exists c :: Formats(c) == (src, dst) {
      var c :| Formats(c) == (src, dst);
      match c
      case DocxToPdf =>
      case CsvToPdf =>
      case CsvToXlsx =>
      case XlsxToCsv =>
      case XlsxToPdf =>
      case PptxToPdf =>
      case PdfToDocx =>
      case PdfToPptx =>
      case PdfToXlsx =>
    }
    if (src, dst) in ConversionMap {
      assert Formats(ConversionMap[(src, dst)]) == (src, dst);
    }
  }

  /**
    An unsupported pair raises `ValueError` naming the formats as the caller
    wrote them, before anything is downloaded or stored.
   */
  lemma UnsupportedPairRejected(input: FileConvertInput, bucket: string, now: DateTime, uid: string,
                                download: Result<seq<byte>, string>, lib: Library, replies: UploadReplies)
    requires Valid(now)
    requires (Normalise(input.inputFormat), Normalise(input.outputFormat)) !in ConversionMap
    ensures var run := ConvertFileFormat(input, bucket, now, uid, download, lib, replies);
      && !run.downloaded && run.requests == []
      && run.result == Err(ValueError("Conversion from " + input.inputFormat + " to " + input.outputFormat + " is not supported."))
  {
  }

  /** Every converter failure is a `RuntimeError` whose text starts with its pair's prefix. */
  lemma {:induction false} ConverterFailuresWrapped(c: Converter, download: Result<seq<byte>, string>, lib: Library)
    ensures Convert(c, download, lib).Err? ==>
      Convert(c, download, lib).error.RuntimeError? && StartsWith(Convert(c, download, lib).error.msg, FailurePrefix(c))
  {
    var r := Convert(c, download, lib);
    if r.Err? {
      var first := ConvertDirect(if c == CsvToPdf then CsvToXlsx else c, download, lib);
      var m :=
        if download.Err? then (if c == CsvToPdf then first.error.msg else download.error)
        else if c != CsvToPdf then lib(c, download.value).error
        else if first.Err? then first.error.msg
        else lib(XlsxToPdf, first.value).error;
      assert r.error == RuntimeError(FailurePrefix(c) + m);
      assert (FailurePrefix(c) + m)[..|FailurePrefix(c)|] == FailurePrefix(c);
    }
  }

  /**
    `csv -> pdf` is `xlsx -> pdf` applied to what `csv -> xlsx` produced; a
    failure of the first step is reported inside the `CSV to PDF` message.
   */
  lemma CsvToPdfThroughXlsx(download: Result<seq<byte>, string>, lib: Library)
    ensures match Convert(CsvToXlsx, download, lib)
      case Err(e) => Convert(CsvToPdf, download, lib) == Err(RuntimeError(FailurePrefix(CsvToPdf) + e.msg))
      case Ok(xlsx) =>
        (Convert(CsvToPdf, download, lib).Ok? <==> Convert(XlsxToPdf, Ok(xlsx), lib).Ok?)
        && (Convert(CsvToPdf, download, lib).Ok? ==> Convert(CsvToPdf, download, lib) == Convert(XlsxToPdf, Ok(xlsx), lib))
  {
  }

  /** A download failure on the `csv -> pdf` path carries both prefixes, outer first. */
  lemma CsvToPdfDownloadFailure(m: string, lib: Library)
    ensures Convert(CsvToPdf, Err(m), lib) == Err(RuntimeError(FailurePrefix(CsvToPdf) + FailurePrefix(CsvToXlsx) + m))
  {
    assert FailurePrefix(CsvToPdf) + (FailurePrefix(CsvToXlsx) + m) == FailurePrefix(CsvToPdf) + FailurePrefix(CsvToXlsx) + m;
  }

  /**
    A supported pair downloads the file; a successful conversion stores the
    bytes under a key built from the raw `output_format` with the default
    content type, and the result is the upload's.
   */
  lemma SupportedPairUploads(input: FileConvertInput, bucket: string, now: DateTime, uid: string,
                             download: Result<seq<byte>, string>, lib: Library, replies: UploadReplies)
    requires Valid(now)
    requires (Normalise(input.inputFormat), Normalise(input.outputFormat)) in ConversionMap
    ensures var c := ConversionMap[(Normalise(input.inputFormat), Normalise(input.outputFormat))];
      var run := ConvertFileFormat(input, bucket, now, uid, download, lib, replies);
      && run.downloaded
      && (Convert(c, download, lib).Err? ==> run.requests == [] && run.result == Err(Convert(c, download, lib).error))
      && (Convert(c, download, lib).Ok? ==>
            && run.requests[0] == Call.PutObject(bucket, Utils.UniqueObjectKey(now, uid, input.outputFormat),
                                                 Convert(c, download, lib).value, Utils.DefaultContentType)
            && run.result == Utils.UploadOutcome(replies))
  {
  }

  /** A dotted `output_format` such as `.PDF` yields a key ending in `..PDF`: the raw text goes into the key. */
  lemma RawOutputFormatInKey(input: FileConvertInput, bucket: string, now: DateTime, uid: string,
                             download: Result<seq<byte>, string>, lib: Library, replies: UploadReplies)
    requires Valid(now)
    requires (Normalise(input.inputFormat), Normalise(input.outputFormat)) in ConversionMap
    requires StartsWith(input.outputFormat, ".")
    requires Convert(ConversionMap[(Normalise(input.inputFormat), Normalise(input.outputFormat))], download, lib).Ok?
    ensures var run := ConvertFileFormat(input, bucket, now, uid, download, lib, replies);
      run.requests[0].PutObject? && EndsWith(run.requests[0].key, ".." + input.outputFormat[1..])
  {
    Utils.KeyDoublesLeadingDot(now, uid, input.outputFormat);
  }
}
