/**
  `compress_file`: normalise the file type, pick the compressor from the
  extension table, compress, and upload the result.  PIL and Ghostscript are
  inputs; the model keeps which encoder settings are chosen, the Ghostscript
  command line, the error texts and the storage key.
 */
module FileCompression {
  import opened Wrappers
  import opened Exceptions
  import opened PyStrings
  import opened Timestamps
  import opened ObjectStore
  import opened FormatNames
  import Utils

  datatype Compressor = PdfCompressor | ImageCompressor

  const CompressionMap: map<string, Compressor> := map[
    "pdf" := PdfCompressor,
    "png" := ImageCompressor,
    "jpg" := ImageCompressor,
    "jpeg" := ImageCompressor,
    "webp" := ImageCompressor
  ]

  const TopPrefix := "Failed to compress file: "
  const ImagePrefix := "Image compression failed: "
  const GhostscriptPrefix := "Ghostscript compression failed: "
  const PdfPrefix := "PDF compression failed: "
  /** What `str(e)` says when `img.format` is `None` and `.lower()` is called on it. */
  const NoFormatMessage := "'NoneType' object has no attribute 'lower'"

  /** The arguments of one `img.save(...)` call. */
  datatype SaveSettings = SaveSettings(format: string, quality: Option<int>, optimize: bool)

  /**
    The encoder settings for a decoded image format: quality 60 with
    optimisation for JPEG and WebP (in the decoder's own spelling), PNG with
    optimisation only, and none for any other format.
   */
  function ImageRule(format: string): Option<SaveSettings> {
    var f := Lower(format);
    if f in {"jpeg", "jpg", "webp"} then Some(SaveSettings(format, Some(60), true))
    else if f == "png" then Some(SaveSettings("PNG", None, true))
    else None
  }

  /** How the Ghostscript process ended: its exit status and the output file, or an exception (no `gs` binary, say). */
  datatype GsOutcome = Exited(status: int, output: seq<byte>, errorText: string) | GsRaised(msg: string)

  /**
    What the outside world delivers: the download, the decoded image format
    (`None` when PIL reports none) or the open error, what `img.save` writes
    for given settings, the names of the two temporary PDF files (or the
    text of the error creating or writing them), and how Ghostscript ends
    for a given command line.  `errorText` is what `str(CalledProcessError)`
    gives for a nonzero status.
   */
  datatype Sources = Sources(
    download: Result<seq<byte>, string>,
    decodedFormat: Result<Option<string>, string>,
    save: SaveSettings -> Result<seq<byte>, string>,
    temps: Result<(string, string), string>,
    gs: seq<string> -> GsOutcome)

  /** What one compressor did: the command lines it ran, in order, and its bytes or exception. */
  datatype Attempt = Attempt(commands: seq<seq<string>>, result: Result<seq<byte>, Exception>)

  /** The fixed Ghostscript command line with the two temporary file names. */
  function GhostscriptCommand(inPath: string, outPath: string): (cmd: seq<string>)
    ensures |cmd| == 9 && cmd[0] == "gs" && cmd[8] == inPath
    ensures cmd[1..7] == ["-sDEVICE=pdfwrite", "-dCompatibilityLevel=1.4", "-dPDFSETTINGS=/ebook",
                          "-dNOPAUSE", "-dQUIET", "-dBATCH"]
    ensures cmd[7] == "-sOutputFile=" + outPath
  {
    ["gs", "-sDEVICE=pdfwrite", "-dCompatibilityLevel=1.4", "-dPDFSETTINGS=/ebook",
     "-dNOPAUSE", "-dQUIET", "-dBATCH", "-sOutputFile=" + outPath, inPath]
  }

  /** `compress_image_file`: the rule chosen by the decoded format; an unknown format returns the download unchanged. */
  function CompressImage(src: Sources): Result<seq<byte>, Exception> {
    match src.download
    case Err(m) => Err(RuntimeError(ImagePrefix + m))
    case Ok(original) =>
      match src.decodedFormat
      case Err(m) => Err(RuntimeError(ImagePrefix + m))
      case Ok(format) =>
        if format.None? then Err(RuntimeError(ImagePrefix + NoFormatMessage))
        else
          match ImageRule(format.value)
          case None => Ok(original)
          case Some(settings) =>
            match src.save(settings)
            case Err(m) => Err(RuntimeError(ImagePrefix + m))
            case Ok(out) => Ok(out)
  }

  /**
    `compress_pdf_file`: once the download is written to the input temporary
    file, Ghostscript runs on it with the output temporary file as target.
    A nonzero status is a `CalledProcessError` and gets its own prefix;
    anything else raised gets the PDF prefix.
   */
  function CompressPdf(src: Sources): Attempt {
    match src.download
    case Err(m) => Attempt([], Err(RuntimeError(PdfPrefix + m)))
    case Ok(_) =>
      match src.temps
      case Err(m) => Attempt([], Err(RuntimeError(PdfPrefix + m)))
      case Ok(names) =>
        var cmd := GhostscriptCommand(names.0, names.1);
        match src.gs(cmd)
        case GsRaised(m) => Attempt([cmd], Err(RuntimeError(PdfPrefix + m)))
        case Exited(status, output, text) =>
          Attempt([cmd], if status != 0 then Err(RuntimeError(GhostscriptPrefix + text)) else Ok(output))
  }

  /** The compressor of the table entry; the image compressor runs no command. */
  function Compress(c: Compressor, src: Sources): Attempt {
    match c
    case PdfCompressor => CompressPdf(src)
    case ImageCompressor => Attempt([], CompressImage(src))
  }

  /** What one call did: whether a compressor ran, the commands it ran, the storage requests made, and the result. */
  datatype Run = Run(compressed: bool, commands: seq<seq<string>>, requests: seq<Call>, result: Result<string, Exception>)

  /**
    `compress_file`, with the file type as a parameter.  The key is built
    from the normalised extension.  Every failure, the upload's included,
    is re-raised as a `RuntimeError` that starts with `Failed to compress file: `.
   */
  function CompressFile(fileType: string, bucket: string, now: DateTime, uid: string,
                        src: Sources, replies: UploadReplies): Run
    requires Valid(now)
  {
    var ext := Normalise(fileType);
    if ext !in CompressionMap then
      Run(false, [], [], Err(RuntimeError(TopPrefix + "Unsupported file type: ." + ext)))
    else
      var attempt := Compress(CompressionMap[ext], src);
      match attempt.result
      case Err(e) => Run(true, attempt.commands, [], Err(RuntimeError(TopPrefix + e.msg)))
      case Ok(bytes) =>
        var key := Utils.UniqueObjectKey(now, uid, ext);
        var calls := Utils.UploadCalls(bucket, key, bytes, Utils.DefaultContentType, Utils.DefaultExpirySeconds, replies);
        match Utils.UploadOutcome(replies)
        case Err(e) => Run(true, attempt.commands, calls, Err(RuntimeError(TopPrefix + e.msg)))
        case Ok(url) => Run(true, attempt.commands, calls, Ok(url))
  }

  // ---------------------------------------------------------------------------
  // Facts
  // ---------------------------------------------------------------------------

  /** The table holds exactly `pdf` and the four image extensions. */
  lemma SupportedTypes(fileType: string)
    ensures Normalise(fileType) in CompressionMap <==> Normalise(fileType) in {"pdf", "png", "jpg", "jpeg", "webp"}
    ensures Normalise(fileType) in CompressionMap ==>
      (CompressionMap[Normalise(fileType)] == PdfCompressor <==> Normalise(fileType) == "pdf")
  {
  }

  /**
    The encoder rule depends on the decoded format only, case-insensitively:
    quality 60 and optimisation for jpeg/jpg/webp, optimisation for png, no
    re-encoding for anything else.
   */
  lemma ImageRuleCases(format: string)
    ensures Lower(format) in {"jpeg", "jpg", "webp"} ==> ImageRule(format) == Some(SaveSettings(format, Some(60), true))
    ensures Lower(format) == "png" ==> ImageRule(format) == Some(SaveSettings("PNG", None, true))
    ensures ImageRule(format).None? <==> Lower(format) !in {"jpeg", "jpg", "webp", "png"}
    ensures ImageRule(format).Some? ==> ImageRule(format).value.optimize
  {
  }

  /** A decoded format without a rule (GIF, BMP, ...) gives back exactly the downloaded bytes. */
  lemma UnknownFormatKeepsOriginal(src: Sources)
    requires src.download.Ok? && src.decodedFormat.Ok? && src.decodedFormat.value.Some?
    requires ImageRule(src.decodedFormat.value.value).None?
    ensures CompressImage(src) == Ok(src.download.value)
  {
  }

  /**
    A `.pdf` request runs exactly one command, the fixed Ghostscript line on
    the two temporary files, once the download and the staging succeeded,
    and none otherwise; the result is what that process ended with.
   */
  lemma PdfRunsGhostscript(fileType: string, bucket: string, now: DateTime, uid: string, src: Sources, replies: UploadReplies)
    requires Valid(now)
    requires Normalise(fileType) == "pdf"
    ensures var run := CompressFile(fileType, bucket, now, uid, src, replies);
      && (run.commands != [] <==> src.download.Ok? && src.temps.Ok?)
      && (run.commands != [] ==>
            && run.commands == [GhostscriptCommand(src.temps.value.0, src.temps.value.1)]
            && run.commands[0][8] == src.temps.value.0
            && run.commands[0][7] == "-sOutputFile=" + src.temps.value.1
            && var out := src.gs(run.commands[0]);
               (Compress(PdfCompressor, src).result.Ok? <==> out.Exited? && out.status == 0)
               && (Compress(PdfCompressor, src).result.Ok? ==> Compress(PdfCompressor, src).result.value == out.output))
  {
  }

  /** The image compressor runs no external command, whatever the outcome. */
  lemma ImagesRunNoCommand(fileType: string, bucket: string, now: DateTime, uid: string, src: Sources, replies: UploadReplies)
    requires Valid(now)
    requires Normalise(fileType) in CompressionMap && CompressionMap[Normalise(fileType)] == ImageCompressor
    ensures CompressFile(fileType, bucket, now, uid, src, replies).commands == []
  {
  }

  /**
    Which image extension the caller named does not matter: a `.png` request
    whose content decodes as JPEG is re-encoded as JPEG.
   */
  lemma ImageRuleIgnoresFileType(t1: string, t2: string, src: Sources)
    requires Normalise(t1) in CompressionMap && CompressionMap[Normalise(t1)] == ImageCompressor
    requires Normalise(t2) in CompressionMap && CompressionMap[Normalise(t2)] == ImageCompressor
    ensures Compress(CompressionMap[Normalise(t1)], src) == Compress(CompressionMap[Normalise(t2)], src)
  {
  }

  /** A nonzero Ghostscript status is reported with the Ghostscript prefix inside the top prefix. */
  lemma GhostscriptFailure(fileType: string, bucket: string, now: DateTime, uid: string, src: Sources, replies: UploadReplies)
    requires Valid(now)
    requires Normalise(fileType) == "pdf"
    requires src.download.Ok? && src.temps.Ok?
    requires var out := src.gs(GhostscriptCommand(src.temps.value.0, src.temps.value.1));
      out.Exited? && out.status != 0
    ensures var out := src.gs(GhostscriptCommand(src.temps.value.0, src.temps.value.1));
      var run := CompressFile(fileType, bucket, now, uid, src, replies);
      run.requests == [] && run.result == Err(RuntimeError(TopPrefix + GhostscriptPrefix + out.errorText))
  {
    var out := src.gs(GhostscriptCommand(src.temps.value.0, src.temps.value.1));
    assert TopPrefix + (GhostscriptPrefix + out.errorText) == TopPrefix + GhostscriptPrefix + out.errorText;
  }

  /** `compress_file` only ever fails with a `RuntimeError` that starts with its own prefix. */
  lemma FailuresAreRuntimeErrors(fileType: string, bucket: string, now: DateTime, uid: string, src: Sources, replies: UploadReplies)
    requires Valid(now)
    ensures var r := CompressFile(fileType, bucket, now, uid, src, replies).result;
      r.Err? ==> r.error.RuntimeError? && StartsWith(r.error.msg, TopPrefix)
  {
    var r := CompressFile(fileType, bucket, now, uid, src, replies).result;
    var ext := Normalise(fileType);
    var m := if ext !in CompressionMap then "Unsupported file type: ." + ext
             else if Compress(CompressionMap[ext], src).result.Err? then Compress(CompressionMap[ext], src).result.error.msg
             else if Utils.UploadOutcome(replies).Err? then Utils.UploadOutcome(replies).error.msg
             else "";
    if r.Err? {
      assert r.error == RuntimeError(TopPrefix + m);
      assert (TopPrefix + m)[..|TopPrefix|] == TopPrefix;
    }
  }

  /**
    A compressed file is stored under a key built from the normalised
    extension, so `.PDF` and `pdf` give the same key; nothing is stored
    when the type is unsupported or compression fails.
   */
  lemma KeyUsesNormalisedExtension(fileType: string, bucket: string, now: DateTime, uid: string, src: Sources, replies: UploadReplies)
    requires Valid(now)
    ensures var run := CompressFile(fileType, bucket, now, uid, src, replies);
      && (run.requests != [] <==> Normalise(fileType) in CompressionMap && Compress(CompressionMap[Normalise(fileType)], src).result.Ok?)
      && (run.requests != [] ==>
            run.requests[0] == Call.PutObject(bucket, Utils.UniqueObjectKey(now, uid, Normalise(fileType)),
                                              Compress(CompressionMap[Normalise(fileType)], src).result.value, Utils.DefaultContentType))
      && CompressFile("." + fileType, bucket, now, uid, src, replies) == run
  {
    NormaliseIdempotent(fileType);
  }
}
