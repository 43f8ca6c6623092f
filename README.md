# docAgent MCP server: a Dafny model of its decision logic

docAgent is a set of document tools behind an MCP server. This project models
the parts of it that decide things, and proves what they promise:

- **The sandboxed Python runtime.** `exec_py_runtime` stages code in a
  temporary file, checks `docker --version` and `docker inspect`, runs a
  fixed `docker run` command and turns every failure inside its `try` block
  into one of four exception classes (the `print` of the code before the
  `try` is not covered by the handlers). It then reads the container's output: the URL lines after the
  `=== Uploaded Files ===` marker. Modelled in `PyRuntime`: a `Host` class
  for files and processes, a loop method for the output parser, and
  functions for the outcome.
- **The watcher inside the container.** It filters created files by name,
  uploads each accepted file under a timestamp-and-uuid key, remembers the
  presigned URLs in a set, polls for a `.done` file and finally prints the
  marker and the URLs. Modelled in `Watcher`: an `UploadHandler` class and a
  polling loop over a finite sequence of events. `Protocol` proves that the
  report, read back by the host's parser, gives the watcher's URLs.
- **The host's storage helpers** (`Utils`). They build the storage key, put
  the bytes, and then presign the same key.
- **Four dispatchers**, in `FileConversion`, `TextExtractor`,
  `FileCompression` and `GeneratePlot`. Each one normalises a format name,
  looks it up in a fixed table, and checks or joins what the libraries
  return. Each one also wraps every failure in its own message.

Support modules:

- `PyStrings`: the Python `str` behaviour the code relies on (`strip`,
  `lower`, `lstrip(".")`, `join`, `splitlines`, `print`).
- `Timestamps`: `strftime("%Y%m%d%H%M%S")`.
- `FormatNames`: `lower().lstrip(".")`.
- `ObjectStore`: a storage client that records each request it is sent.
- `Wrappers` and `Exceptions`: results, and the Python exception classes.

Everything outside the program's own logic is an input to the model. This
covers Docker, S3, HTTP downloads, Google Vision and the format libraries.
Each such input is the value the outside world returns, or the text of the
exception it raises. The clock and `uuid4` are parameters.

## Model

| member | source | states |
|---|---|---|
| PyRuntime.CollectUploadedUrls | app/tools/py_runtime.py:79-85 | the `collecting` loop returns exactly `ExpectedUrls(lines)`: the stripped `http` lines after the first marker line, in order |
| PyRuntime.FirstMarker | app/tools/py_runtime.py:79-83 | the index of the line that raises the flag is inside the list |
| PyRuntime.FirstMarkerSpec | app/tools/py_runtime.py:79-83 | the flag is raised at a marker line that no earlier line matches; without a marker line it is never raised |
| PyRuntime.FirstMarkerSnoc | app/tools/py_runtime.py:80-83 | after one more line, the flag is raised if it was raised before, or if that line is a marker |
| PyRuntime.HttpLinesAppend | app/tools/py_runtime.py:84-85 | keeping the URL lines distributes over concatenation, so the order of the lines is kept |
| PyRuntime.CollectSnoc | app/tools/py_runtime.py:80-85 | one more line adds nothing before the marker; it adds nothing if it is the marker or not an `http` line; otherwise it adds its stripped text at the end |
| PyRuntime.ExpectedUrlsSnoc | app/tools/py_runtime.py:80-85 | one more line adds its stripped URL text only once a marker has been seen |
| PyRuntime.HttpLinesAreUrls | app/tools/py_runtime.py:84-85 | every collected entry starts with `http` and is its own strip |
| PyRuntime.HttpLinesOfUrls | app/tools/py_runtime.py:84-85 | lines that are URLs with no whitespace are all collected, unchanged and in order |
| PyRuntime.MarkerIsNotUrl | app/tools/py_runtime.py:81-85 | a marker line is never collected, because it is skipped before the URL test |
| PyRuntime.LinesBeforeMarkerIgnored | app/tools/py_runtime.py:79-85 | lines with no marker, put in front, never change what is collected |
| PyRuntime.FirstMarkerAfter | app/tools/py_runtime.py:79-83 | marker-free lines in front shift the first marker by their count |
| PyRuntime.MarkerFirst | app/tools/py_runtime.py:80-85 | output that opens with the marker yields the URL lines of everything after it |
| PyRuntime.HttpLinesAcrossMarker | app/tools/py_runtime.py:81-85 | a marker line between two blocks contributes nothing itself |
| PyRuntime.SecondMarkerDoesNotReset | app/tools/py_runtime.py:80-85 | a second marker does not restart collection: the URLs after both markers are kept |
| PyRuntime.NoUrlsGiveEmptyResult | app/tools/py_runtime.py:87-90 | no marker or no URL line gives the empty string as a success, not an error |
| PyRuntime.ReportBlockParsesBack | app/tools/py_runtime.py:79-85 | marker-free lines, then the marker, then clean URLs, parse back to exactly those URLs |
| PyRuntime.ExpectedUrls | app/tools/py_runtime.py:79-85 | the reference list of parsed URLs: the stripped `http` lines after the first marker line; `CollectUploadedUrls` is proved to compute it, and `FirstMarkerSpec`, `HttpLinesAreUrls` and `SecondMarkerDoesNotReset` characterise it |
| PyRuntime.UrlsReturned | app/tools/py_runtime.py:76-90 | the success value for a container stdout: the `", "`-join of the URLs parsed from its stripped lines; `NoUrlsGiveEmptyResult` and `Protocol.PrintedUrlsReadBack` state what it gives |
| PyRuntime.RunCommand | app/tools/py_runtime.py:55-63 | the run command is exactly `docker run --rm --network bridge --cpus 2.0 --memory 2048m --env-file .env`, then a read-only mount of the staged file at `/app/code.py`, then the image last |
| PyRuntime.Classify | app/tools/py_runtime.py:92-105 | a timeout gives `TimeoutError`, a missing binary `FileNotFoundError`, a permission failure `PermissionError`, and anything else `RuntimeError` with the unexpected-error prefix, each if and only if |
| PyRuntime.StagingLeakAsWritten | app/tools/py_runtime.py:26-28 | for every write that fails after the file was created, the cleanup as written leaves the file set unchanged, so the file stays; binding the created path instead removes it |
| PyRuntime.StagingLeakExample | app/tools/py_runtime.py:26-28 | a write raising `ENOSPC` on a freshly created file leaves that file in place under the as-written binding |
| PyRuntime.BoundPathAsWritten | app/tools/py_runtime.py:26-28 | the name `tmpfile_path` holds: bound only after the write returned; `StagingLeakAsWritten` shows what that costs |
| PyRuntime.Cleanup | app/tools/py_runtime.py:106-108 | the `finally` clause on a file set; `StagingLeakAsWritten` and `Host.ExecPyRuntime` state what it removes |
| PyRuntime.ProcessOutcome | app/tools/py_runtime.py:32-105 | the classified outcome of the three subprocesses; `Host.RunSteps` is proved to return it, and `DockerVersionFailure`, `ImageMissingFailure` and `ContainerFailure` state its cases |
| PyRuntime.ExecOutcome | app/tools/py_runtime.py:24-105 | what `exec_py_runtime` returns or raises; `Host.ExecPyRuntime` is proved to return it, and `FailureClasses`, `SuccessMeansAllStepsPassed` and `RunTimeoutIsTimeoutError` state it |
| PyRuntime.Spawns | app/tools/py_runtime.py:32-68 | the subprocesses started once the code is staged; `EventOrdering` states their order and guards |
| PyRuntime.ExpectedEvents | app/tools/py_runtime.py:26-108 | every side effect of one call; `Host.ExecPyRuntime` is proved to log exactly these, and `EventOrdering` states their order |
| PyRuntime.Host.CreateTempFile | app/tools/py_runtime.py:26-28 | the file exists afterwards exactly when creation succeeded, and the creation is logged |
| PyRuntime.Host.RunProcess | app/tools/py_runtime.py:32-34 | a spawn is logged with its argument vector and timeout, and the files are untouched |
| PyRuntime.Host.RemoveFile | app/tools/py_runtime.py:107-108 | the file is gone afterwards and the removal is logged |
| PyRuntime.Host.RunSteps | app/tools/py_runtime.py:32-90 | the three subprocesses are spawned in order, each only after the previous check passed; the result is the classified outcome; files are unchanged |
| PyRuntime.Host.ExecPyRuntime | app/tools/py_runtime.py:17-109 | on every path the file system ends as it began (the staged file is removed); the side effects are create, checks, remove; the result is `ExecOutcome` |
| PyRuntime.RunTimeoutIsTimeoutError | app/tools/py_runtime.py:92-94 | a run past its timeout raises `TimeoutError` with the fixed message |
| PyRuntime.DockerVersionFailure | app/tools/py_runtime.py:35-37 | a nonzero `docker --version` becomes an unexpected `RuntimeError`, not a missing-binary error, and no inspect runs |
| PyRuntime.ImageMissingFailure | app/tools/py_runtime.py:44-52 | a failed `docker inspect` becomes an unexpected `RuntimeError` naming the image, and the container is never run |
| PyRuntime.ContainerFailure | app/tools/py_runtime.py:70-74 | a nonzero container exit becomes an unexpected `RuntimeError` carrying `Docker failed:` and the stripped stderr |
| PyRuntime.SuccessMeansAllStepsPassed | app/tools/py_runtime.py:66-90 | a success means staging worked and all three processes exited 0; the value is the `", "`-join of the parsed URLs of the stripped stdout |
| PyRuntime.FailureClasses | app/tools/py_runtime.py:92-105 | every failure is a timeout, a missing binary or a permission error, each with its fixed message, or a `RuntimeError` with the unexpected-error prefix |
| PyRuntime.EventOrdering | app/tools/py_runtime.py:26-68 | the file is created first and removed last; inspect runs only after `--version` returned 0; the container runs only after both checks passed, and only on the staged path |
| Watcher.LastIndexOf | python_runtime_container_setup/watcher.py:61 | `rfind` returns -1 or an index inside the string |
| Watcher.LastIndexOfSpec | python_runtime_container_setup/watcher.py:61 | `rfind` finds the character, and no later position holds it |
| Watcher.Basename | python_runtime_container_setup/watcher.py:60 | the file name is a suffix of the path |
| Watcher.BasenameSpec | python_runtime_container_setup/watcher.py:60 | the file name contains no `/` |
| Watcher.SplitExt | python_runtime_container_setup/watcher.py:61 | root and extension concatenate back to the name |
| Watcher.SplitExtExtension | python_runtime_container_setup/watcher.py:61 | the extension is empty, or one dot followed by neither a dot nor a `/` |
| Watcher.SplitExtAtLastDot | python_runtime_container_setup/watcher.py:61 | for a name that has no `/` and does not start with a dot, `splitext` splits at the last dot |
| Watcher.SplitExtPlain | python_runtime_container_setup/watcher.py:61 | a dot-free root followed by a well-formed extension splits back into those two parts |
| Watcher.DotfileHasNoExtension | python_runtime_container_setup/watcher.py:61 | a dot-file whose only dot is the first has an empty extension |
| Watcher.IsIgnored | python_runtime_container_setup/watcher.py:64-68 | the garbage test on a name and its extension; `IgnoredIff` states its six cases and no other |
| Watcher.IsSkippedEvent | python_runtime_container_setup/watcher.py:56-57 | directories and paths ending in `.done` are dropped first; `DoneTestOnName` relates the test to the file name |
| Watcher.Accepted | python_runtime_container_setup/watcher.py:56-70 | the events that go on to upload; `FilterDependsOnNameOnly` and `AcceptedNamesSplitAtLastDot` state it |
| Watcher.IgnoredIff | python_runtime_container_setup/watcher.py:64-68 | a name is rejected if and only if it is `.DS_Store` or `Thumbs.db`, or its lower-cased extension is `.pyc`, `.log` or `.tmp`, or it starts with `__pycache__` or `.` |
| Watcher.ExtensionTestIgnoresCase | python_runtime_container_setup/watcher.py:66 | `build.LOG` is rejected |
| Watcher.NameTestKeepsCase | python_runtime_container_setup/watcher.py:65 | `thumbs.db` passes the filter |
| Watcher.PrefixTestKeepsCase | python_runtime_container_setup/watcher.py:67 | `__PYCACHE__` passes the filter |
| Watcher.DoneTestOnName | python_runtime_container_setup/watcher.py:56 | a path ends with `.done` exactly when its file name does |
| Watcher.FilterDependsOnNameOnly | python_runtime_container_setup/watcher.py:56-70 | two paths with the same file name are accepted or skipped alike |
| Watcher.AcceptedNamesSplitAtLastDot | python_runtime_container_setup/watcher.py:61-67 | the extension of an accepted name is what its last dot starts, or empty |
| Watcher.WatcherKey | python_runtime_container_setup/watcher.py:26-29 | the key is the 14-digit timestamp, `_`, the uid, then the extension, with no dot added |
| Watcher.ExtensionlessKey | python_runtime_container_setup/watcher.py:29 | a file without an extension gets a key without one |
| Watcher.KeyFor | python_runtime_container_setup/watcher.py:59-72 | the key of an accepted file, from its `splitext` extension; `HandlerCallsShape` states that the upload uses it |
| Watcher.NewUrls | python_runtime_container_setup/watcher.py:74-88 | the URL one event adds; `NewUrlsAtMostOne` states it |
| Watcher.HandlerCalls | python_runtime_container_setup/watcher.py:72-83 | the requests one event makes; `HandlerCallsShape` states them |
| Watcher.NewUrlsAtMostOne | python_runtime_container_setup/watcher.py:74-88 | an event adds at most one URL, and adds one exactly when it was accepted and both the upload and the presign succeeded |
| Watcher.HandlerCallsShape | python_runtime_container_setup/watcher.py:72-83 | a skipped event makes no request; an accepted one uploads its own path under a key ending in its extension, then presigns only if the upload succeeded |
| Watcher.UploadHandler.OnCreated | python_runtime_container_setup/watcher.py:55-88 | `uploaded_files` grows by exactly the event's new URLs, and the client receives exactly the event's requests; failures are not raised |
| Watcher.UploadHandler.UploadAndRemember | python_runtime_container_setup/watcher.py:74-88 | the set grows by the presigned URL only when both requests succeed; presign is requested only after a successful upload |
| Watcher.StopAt | python_runtime_container_setup/watcher.py:99-104 | the step where the loop ends lies within the steps |
| Watcher.StopAtSpec | python_runtime_container_setup/watcher.py:99-106 | the loop ends at the first step that finds `.done` or is interrupted, and it does not end without one |
| Watcher.StopAtPrefix | python_runtime_container_setup/watcher.py:99-104 | steps after the stop do not matter |
| Watcher.StoredUrlsComeFromUploads | python_runtime_container_setup/watcher.py:85 | every stored URL is the presigned URL of one accepted, successful upload among the steps |
| Watcher.IsReport | python_runtime_container_setup/watcher.py:112-114 | the report block of a set: the marker, then each URL once; `ReportLines` is proved to print one and `Protocol.ReportReadBack` reads it back |
| Watcher.ReportLines | python_runtime_container_setup/watcher.py:112-114 | the printed lines are the marker, then each stored URL exactly once |
| Watcher.WatchUntilDone | python_runtime_container_setup/watcher.py:98-106 | the loop stops exactly when a stopping step exists; the set and the requests grow by those of the events handled until then |
| Watcher.RunWatcher | python_runtime_container_setup/watcher.py:91-114 | the report is printed exactly when the loop stops, and it lists the final `uploaded_files`; no report is printed otherwise |
| Utils.UniqueObjectKey | app/utils/Utils.py:29-32 | the key is exactly the 14-character timestamp, `_`, the uid, `.`, then the extension |
| Utils.KeyDeterminesInstantAndId | app/utils/Utils.py:30-32 | for uids of equal length, equal keys mean equal instants and equal uids |
| Utils.KeyInjectiveInId | app/utils/Utils.py:30-32 | for one instant and one extension, distinct uids give distinct keys |
| Utils.KeyDoublesLeadingDot | app/utils/Utils.py:32 | a dot is always added, so an extension written with its dot ends the key in `..` |
| Utils.UploadOutcome | app/utils/Utils.py:45-59 | the result is the presigned URL exactly when put and presign both succeed; otherwise it is a `RuntimeError` starting with `Failed to upload to S3: ` |
| Utils.UploadCalls | app/utils/Utils.py:46-54 | the put comes first; a presign of the same bucket and key follows only when the put succeeded |
| Utils.UploadBytesToS3 | app/utils/Utils.py:35-59 | the client receives exactly those requests, and the result is the upload outcome |
| ObjectStore.Client.PutObject | app/utils/Utils.py:46-48 | one put request with bucket, key, body and content type is recorded; it succeeds as the service says |
| ObjectStore.Client.UploadFile | python_runtime_container_setup/watcher.py:76 | one upload of a local path is recorded |
| ObjectStore.Client.PresignGetObject | app/utils/Utils.py:50-54 | one presign request with bucket, key and expiry is recorded; the URL is the service's |
| Timestamps.Pad | app/utils/Utils.py:30 | a zero-padded field has exactly its width |
| Timestamps.Timestamp | app/utils/Utils.py:30 | `%Y%m%d%H%M%S` is 14 characters long |
| Timestamps.PadDigits | app/utils/Utils.py:30 | padding writes decimal digits only |
| Timestamps.TimestampDigits | app/utils/Utils.py:30 | the timestamp is 14 decimal digits |
| Timestamps.PadRoundTrip | app/utils/Utils.py:30 | reading a padded field back gives the number |
| Timestamps.TimestampFields | app/utils/Utils.py:30 | each of the six fields can be read back from its slice of the timestamp |
| Timestamps.TimestampInjective | app/utils/Utils.py:30 | two instants with the same timestamp are the same instant, to the second |
| PyStrings.LStripSpec | app/tools/py_runtime.py:81 | `lstrip` removes exactly the leading whitespace |
| PyStrings.RStripSpec | app/tools/py_runtime.py:81 | `rstrip` removes exactly the trailing whitespace |
| PyStrings.StripBlankIff | app/tools/text_extractor.py:39 | `strip()` is empty exactly when the text is whitespace only |
| PyStrings.StripNoEdgeSpace | app/tools/py_runtime.py:76 | a text that neither starts nor ends with whitespace is its own strip |
| PyStrings.StripIdempotent | app/tools/py_runtime.py:81 | stripping twice is stripping once |
| PyStrings.RStripSpaceSuffix | app/tools/py_runtime.py:76 | trailing whitespace, such as the last newline `print` writes, is removed by the strip of the output |
| PyStrings.StripNoSpace | app/tools/py_runtime.py:84-85 | a text with no whitespace is its own strip |
| PyStrings.Strip | app/tools/py_runtime.py:76 | `strip()`; `LStripSpec`, `RStripSpec`, `StripBlankIff` and `StripIdempotent` state it |
| PyStrings.LStripChar | app/tools/file_conversion.py:340 | `lstrip(".")` never lengthens |
| PyStrings.LStripCharSpec | app/tools/file_conversion.py:340 | `lstrip(".")` removes exactly the leading run of dots, and what is left is the rest of the text |
| PyStrings.Lower | app/tools/file_conversion.py:340 | the model's lowering maps ASCII capitals to small letters and keeps every other character, so it keeps the length (Python's `lower()` need not) |
| PyStrings.LowerSpec | app/tools/file_conversion.py:340 | `lower()` maps each character on its own |
| PyStrings.LowerIdempotent | app/tools/file_conversion.py:340 | lowering twice is lowering once |
| PyStrings.LowerSuffix | app/tools/file_conversion.py:340 | lowering commutes with dropping a prefix |
| PyStrings.JoinStartsWithFirst | app/tools/text_extractor.py:122 | a join starts with its first part |
| PyStrings.JoinEndsWithLast | app/tools/text_extractor.py:122 | a join ends with its last part |
| PyStrings.JoinBlankIff | app/tools/text_extractor.py:122-124 | a join of non-blank parts is blank exactly when there are no parts |
| PyStrings.Join | app/tools/py_runtime.py:90 | `sep.join(parts)`; `JoinStartsWithFirst`, `JoinEndsWithLast` and `JoinBlankIff` state it |
| PyStrings.LineBreakIsSpace | app/tools/py_runtime.py:80 | every `splitlines` boundary is whitespace |
| PyStrings.LineEnd | app/tools/py_runtime.py:80 | the first line ends within the text |
| PyStrings.LineEndSpec | app/tools/py_runtime.py:80 | the first line ends at the first boundary, or at the end of the text |
| PyStrings.LineEndAt | app/tools/py_runtime.py:80 | a position with no boundary before it and a boundary (or the end) at it is where the first line ends |
| PyStrings.LineEndOfPlainLine | app/tools/py_runtime.py:80 | a text with no boundary is one line |
| PyStrings.SplitLines | app/tools/py_runtime.py:80 | `splitlines()`; `SplitLinesOfJoin` states that it undoes a `"\n"`-join |
| PyStrings.SplitLinesOfJoin | app/tools/py_runtime.py:80 | `splitlines` undoes a `"\n"`-join of boundary-free lines whose last line is not empty |
| PyStrings.PrintedIsJoin | python_runtime_container_setup/watcher.py:112-114 | printing lines writes their `"\n"`-join plus a final newline |
| PyStrings.Printed | python_runtime_container_setup/watcher.py:112-114 | what printing lines writes; `PrintedIsJoin` and `PrintedRoundTrip` state it |
| PyStrings.PrintedRoundTrip | app/tools/py_runtime.py:76-80 | printed boundary-free lines with non-space ends come back, after `strip().splitlines()`, as the same lines |
| Protocol.SameMarker | python_runtime_container_setup/watcher.py:112 | the watcher prints the very marker the host looks for |
| Protocol.MarkerIsOneLine | python_runtime_container_setup/watcher.py:112 | the marker holds no line boundary and has no whitespace at its ends |
| Protocol.CleanUrlIsOneLine | python_runtime_container_setup/watcher.py:114 | a presigned URL with no whitespace is one non-empty line with non-space ends |
| Protocol.ReportLinesPrintable | python_runtime_container_setup/watcher.py:112-114 | the container's lines plus the report are boundary-free, and the output neither starts nor ends with whitespace |
| Protocol.PrintedUrlsReadBack | app/tools/py_runtime.py:76-90 | the printed marker and URLs, after any plain lines, are returned as the `", "`-join of those URLs |
| Protocol.ReportReadBack | python_runtime_container_setup/watcher.py:112-114 | the watcher's report of its URL set is read back by the host as those URLs, in printed order |
| Protocol.EndToEnd | app/tools/py_runtime.py:66-90 | when all steps succeed and the container printed the report, `exec_py_runtime` returns each stored URL exactly once |
| Protocol.WatcherKeyMatchesHostKey | python_runtime_container_setup/watcher.py:26-29 | the watcher's key for `.ext` equals the host's key for `ext` |
| FormatNames.NormaliseDropsLeadingDots | app/tools/file_conversion.py:339-342 | the normalised name has no leading dot, and only characters that lower to a dot were dropped |
| FormatNames.NormaliseKeepsRest | app/tools/file_conversion.py:339-342 | what is kept is the rest of the name, lowered, in place, inner dots included |
| FormatNames.NormaliseIdempotent | app/tools/file_conversion.py:339-342 | normalising is idempotent, ignores case and ignores an added leading dot |
| FormatNames.NormaliseExample | app/tools/file_conversion.py:340 | `..PDF` normalises to `pdf` |
| FormatNames.Normalise | app/tools/file_conversion.py:339-342 | `lower().lstrip(".")`; `NormaliseDropsLeadingDots`, `NormaliseKeepsRest` and `NormaliseIdempotent` state it |
| FileConversion.TableIsExactlyTheConverters | app/tools/file_conversion.py:322-332 | a pair is supported if and only if it is the pair of one of the nine converters; the table maps it to that converter; same-format pairs are unsupported |
| FileConversion.UnsupportedPairRejected | app/tools/file_conversion.py:343-348 | an unsupported pair raises `ValueError` naming the formats as written, with no download and no upload |
| FileConversion.ConverterFailuresWrapped | app/tools/file_conversion.py:43-44 | every converter failure is a `RuntimeError` starting with `Failed to convert A to B: ` for its own pair |
| FileConversion.CsvToPdfThroughXlsx | app/tools/file_conversion.py:135-165 | `csv -> pdf` fails with the CSV-to-PDF prefix when `csv -> xlsx` fails; otherwise it gives what the `xlsx -> pdf` step gives on those bytes |
| FileConversion.CsvToPdfDownloadFailure | app/tools/file_conversion.py:141 | a download failure on the `csv -> pdf` path carries both prefixes, outer first |
| FileConversion.SupportedPairUploads | app/tools/file_conversion.py:350-355 | a supported pair is downloaded; a converter error propagates unchanged with no upload; converted bytes are stored under a key from the raw `output_format`, and the upload's outcome is returned |
| FileConversion.RawOutputFormatInKey | app/tools/file_conversion.py:353 | a dotted `output_format` such as `.PDF` gives a key ending in `..PDF` |
| FileConversion.ConvertDirect | app/tools/file_conversion.py:19-44 | a one-step converter: download, library step, each failure wrapped with the pair's prefix; `ConverterFailuresWrapped` states it |
| FileConversion.Convert | app/tools/file_conversion.py:135-171 | the converter of a table entry, `csv -> pdf` through xlsx; `CsvToPdfThroughXlsx` and `CsvToPdfDownloadFailure` state it |
| FileConversion.ConvertFileFormat | app/tools/file_conversion.py:335-355 | `convert_file_format`; `UnsupportedPairRejected`, `SupportedPairUploads` and `RawOutputFormatInKey` state it |
| TextExtractor.AppendSlideTexts | app/tools/text_extractor.py:118-120 | the inner loop appends exactly the slide's stripped, non-blank shape texts, in shape order |
| TextExtractor.CollectShapeTexts | app/tools/text_extractor.py:115-120 | the nested loops collect exactly the deck's stripped non-blank shape texts, in slide-then-shape order |
| TextExtractor.NonBlankSpec | app/tools/text_extractor.py:38-40 | the kept fragments are non-blank and come from the input; none is kept exactly when all are blank |
| TextExtractor.SlideTextsClean | app/tools/text_extractor.py:119-120 | every collected shape text is non-empty and stripped |
| TextExtractor.DeckTextsClean | app/tools/text_extractor.py:117-120 | every text collected from a deck is non-empty and stripped |
| TextExtractor.CleanIsNotBlank | app/tools/text_extractor.py:119-120 | a stripped non-empty text has a non-empty strip |
| TextExtractor.PdfResult | app/tools/text_extractor.py:38-44 | the PDF extractor succeeds exactly when some page is non-blank, with the `"\n\n"`-join of the non-blank pages, unstripped |
| TextExtractor.DocxResult | app/tools/text_extractor.py:146-152 | the DOCX extractor succeeds exactly when some paragraph is non-blank, with the `"\n"`-join of the non-blank paragraphs, unstripped |
| TextExtractor.PptxResult | app/tools/text_extractor.py:115-126 | the PPTX extractor succeeds exactly when some shape text survives, with the `"\n"`-join of the collected texts |
| TextExtractor.PlainAndImageResults | app/tools/text_extractor.py:217-223 | a plain file gives its stripped text, or the empty-file error; a Vision reply without annotation raises `No text found in image.` |
| TextExtractor.SuccessIsNotBlank | app/tools/text_extractor.py:42-44 | every pdf, image, pptx, docx or plain success has a non-empty strip |
| TextExtractor.ImageNeedsNoDownload | app/tools/text_extractor.py:59-81 | the image extractor never reads the download: Vision fetches the URL itself |
| TextExtractor.TableContents | app/tools/text_extractor.py:233-245 | the table holds exactly the eleven extensions; the four image types share one extractor, and `txt` and `md` share another |
| TextExtractor.FailuresAreRuntimeErrors | app/tools/text_extractor.py:252-265 | `extract_text` only ever fails with a `RuntimeError` starting with `Failed to extract text: ` |
| TextExtractor.UnsupportedType | app/tools/text_extractor.py:259-265 | an unsupported type gives `Failed to extract text: Unsupported file type: .` followed by the normalised name |
| TextExtractor.ExtractorFailureWrappedTwice | app/tools/text_extractor.py:258-265 | an extractor's failure reaches the caller with the top prefix, then the extractor's own prefix |
| TextExtractor.NonBlank | app/tools/text_extractor.py:38-40 | the fragments whose strip is non-empty, in order; `NonBlankSpec` states it |
| TextExtractor.RejectBlank | app/tools/text_extractor.py:42-44 | the blank-output `ValueError`; `SuccessIsNotBlank` states that no blank text is returned |
| TextExtractor.Body | app/tools/text_extractor.py:27-226 | the `try` block of each extractor; `PdfResult`, `DocxResult`, `PptxResult` and `PlainAndImageResults` state it |
| TextExtractor.Parsed | app/tools/text_extractor.py:28-226 | an extractor after its download; `PdfResult`, `DocxResult` and `PptxResult` state it |
| TextExtractor.Extract | app/tools/text_extractor.py:49-51 | each extractor's `except` clause; `ExtractorFailureWrappedTwice` states it |
| TextExtractor.ExtractText | app/tools/text_extractor.py:248-265 | `extract_text`; `FailuresAreRuntimeErrors`, `UnsupportedType` and `TableContents` state it |
| FileCompression.GhostscriptCommand | app/tools/file_compression.py:59-69 | the command is `gs` with pdfwrite, level 1.4, `/ebook`, NOPAUSE, QUIET, BATCH, the output-file flag, then the input path last |
| FileCompression.PdfRunsGhostscript | app/tools/file_compression.py:47-80 | a `.pdf` request runs exactly that command on its two temporary files once download and staging succeeded, and none otherwise; the result is the output file exactly when Ghostscript exited 0 |
| FileCompression.ImagesRunNoCommand | app/tools/file_compression.py:14-44 | the image compressor runs no external command |
| FileCompression.SupportedTypes | app/tools/file_compression.py:83-89 | exactly `pdf`, `png`, `jpg`, `jpeg` and `webp` are supported; only `pdf` goes to Ghostscript |
| FileCompression.ImageRuleCases | app/tools/file_compression.py:29-38 | jpeg, jpg and webp get quality 60 with optimisation, png gets optimisation only, and any other decoded format gets no rule, case-insensitively |
| FileCompression.UnknownFormatKeepsOriginal | app/tools/file_compression.py:33-38 | a decoded format with no rule returns the downloaded bytes unchanged |
| FileCompression.ImageRuleIgnoresFileType | app/tools/file_compression.py:27-29 | which image extension the caller named does not change the result |
| FileCompression.GhostscriptFailure | app/tools/file_compression.py:75-77 | a nonzero Ghostscript status is reported as `Failed to compress file: Ghostscript compression failed: ...`, and nothing is stored |
| FileCompression.FailuresAreRuntimeErrors | app/tools/file_compression.py:96-114 | `compress_file` only ever fails with a `RuntimeError` starting with `Failed to compress file: `, upload failures included |
| FileCompression.KeyUsesNormalisedExtension | app/tools/file_compression.py:97-107 | something is stored exactly when the type is supported and compression worked; the key uses the normalised extension, so writing `.` before the type changes nothing |
| FileCompression.ImageRule | app/tools/file_compression.py:29-38 | the encoder settings for a decoded format; `ImageRuleCases` states them |
| FileCompression.CompressImage | app/tools/file_compression.py:14-44 | `compress_image_file`; `UnknownFormatKeepsOriginal` and `ImageRuleIgnoresFileType` state it |
| FileCompression.CompressPdf | app/tools/file_compression.py:47-80 | `compress_pdf_file`; `PdfRunsGhostscript` and `GhostscriptFailure` state it |
| FileCompression.CompressFile | app/tools/file_compression.py:92-114 | `compress_file`; `FailuresAreRuntimeErrors`, `KeyUsesNormalisedExtension` and `SupportedTypes` state it |
| GeneratePlot.SupportedPlotTypes | app/tools/generate_plot.py:116-123 | after `lower()` exactly six names are supported, case-insensitively; `pairplot` is not one, and a leading dot is not stripped |
| GeneratePlot.ColumnRequirements | app/tools/generate_plot.py:67-97 | the column check fails exactly when scatter, line or bar lack a non-empty x or y, or histogram or boxplot lack a non-empty y; it raises `ValueError` with the function's message |
| GeneratePlot.HeatmapIgnoresColumns | app/tools/generate_plot.py:50-60 | the heatmap always draws, and the named columns do not change it |
| GeneratePlot.ColumnsUsed | app/tools/generate_plot.py:19-42 | the histogram plots y on the x-axis; the boxplot groups by x only when x is non-empty; the other plots use x against y |
| GeneratePlot.TitleRule | app/tools/generate_plot.py:28-101 | the title is the request's when non-empty; otherwise `Correlation Heatmap` for heatmap, `Bar Plot` for bar, and none for the rest |
| GeneratePlot.DownloadFailsFirst | app/tools/generate_plot.py:131-141 | a failed download is reported before the plot type is looked at, even an unsupported one |
| GeneratePlot.UnsupportedPlotType | app/tools/generate_plot.py:138-141 | an unsupported type is reported in the caller's spelling, behind both prefixes |
| GeneratePlot.FailuresAreRuntimeErrors | app/tools/generate_plot.py:150-151 | every failure is a `RuntimeError` starting with `Plot generation failed: ` |
| GeneratePlot.SuccessStoresPng | app/tools/generate_plot.py:143-148 | something is stored exactly when the figure was drawn and rendered, and it is the PNG bytes under a key ending in `.png` |
| GeneratePlot.ResultIsUploadUrl | app/tools/generate_plot.py:143-148 | the figure drawn is the chosen function's; the call succeeds exactly when the bytes were stored and the upload returned a URL, which is then the result |
| GeneratePlot.Draw | app/tools/generate_plot.py:15-105 | each plotting function up to drawing; `ColumnRequirements`, `ColumnsUsed`, `TitleRule` and `HeatmapIgnoresColumns` state it |
| GeneratePlot.GeneratePlot | app/tools/generate_plot.py:126-151 | `generate_plot`; `DownloadFailsFirst`, `UnsupportedPlotType`, `FailuresAreRuntimeErrors`, `SuccessStoresPng` and `ResultIsUploadUrl` state it |

## Left out

- Docker, `subprocess`, wall-clock timeouts and killing children. The model takes each process's outcome as an input: a return code with its output, or the exception it raised.
- The watchdog observer thread, `time.sleep`, the 0.5 s polling interval and the 2 s drain delay. Events and polls are a finite sequence of steps, so a run that never finds `.done` is modelled only up to the steps given.
- boto3, presigning, HTTP downloads (`download_file_as_stream`), Google credentials (`get_google_access_token`) and the Vision API. Their replies are inputs. Presigned URLs are assumed to hold no whitespace when the report is read back.
- Spire, pandas, python-docx, python-pptx, PyMuPDF, PIL, Ghostscript, matplotlib and seaborn. What they produce, and the temporary files they use, are inputs: one value or exception text per call.
- The environment variables `AWS_S3_BUCKET_NAME`, `PY_RUNTIME_TIMEOUT` and `DOCKER_CONTAINER_NAME` are parameters. A missing bucket name (`None`) is not modelled.
- `file_type` is a parameter of `extract_text` and `compress_file`, as the input schemas do not declare it.
- PyStrings.Lower: lowers ASCII letters only, so it keeps the length, which `str.lower()` does not always do (`İ` lowers to two characters). Table lookups are unaffected: of the non-ASCII characters that `str.lower()` maps, only the Kelvin sign lowers to an ASCII letter, and no key contains `k`. The echoed names in error texts do differ: for `file_type` `DÉJÀ`, `extract_text` and `compress_file` report `Unsupported file type: .déjà`, while `TextExtractor.UnsupportedType` and `FileCompression.CompressFile` report `.dÉjÀ`.
- Timestamps.Timestamp: requires a four-digit year, since `%Y` pads differently below 1000.
- UTF-8 encoding and decoding, `print` of diagnostics and the log lines. A failed UTF-8 decode is an exception text in the sources.
- The `print` of the code at app/tools/py_runtime.py:20 sits outside the `try`. If it raises (a lone surrogate such as `"\ud800"` on a strict UTF-8 stdout), the exception escapes `exec_py_runtime` unclassified, before any file is created. The model has no such outcome.
- The failure of `os.unlink` in the `finally` clause of `exec_py_runtime` is not modelled.
- Watcher.ReportLines: prints the set's elements once each, in some order. Python's set iteration order is not modelled.
- PyRuntime.Classify: takes the text of a generic exception as given, so `str(e)` of library exceptions is an input.
- FileCompression.GhostscriptFailure: takes the text of `str(CalledProcessError)` as given.
- TextExtractor.PlainAndImageResults: the Vision reply is reduced to its status, body and `fullTextAnnotation.text`. A reply body missing `responses` is an exception text.
- The server, the LLM tools, the archiver, the container test harness, logging setup and the schema files are not part of this model.

## Findings

| source | as written | input that shows it | evidently intended | confidence | as-written member | corrected member |
|---|---|---|---|---|---|---|
| app/tools/py_runtime.py:26-28 | `tmpfile_path` is bound only after the code is written, so if `encode("utf-8")` or the write raises, the file already created with `delete=False` is never removed by `finally` | a write of the staged code that raises after the file was created, such as `OSError` `ENOSPC` on a full temporary file system (a lone surrogate such as `"\udc80"` does it too, but only under a surrogateescape stdout, since the `print` at line 20 must let it through first) | the staged file is removed on every path | not executed | PyRuntime.StagingLeakAsWritten | PyRuntime.Host.ExecPyRuntime |
