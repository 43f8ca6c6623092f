/**
  `exec_py_runtime`: the host-side orchestrator of the sandboxed Python run.

  It stages the submitted code in a temporary file, checks that `docker`
  answers `--version` and that the image can be `inspect`ed, runs the
  container under a timeout with the staged file mounted read-only, and reads
  the artifact URLs back from the container's standard output.  Every
  subprocess and the temporary-file system call are external: their results
  are inputs (an `Oracle`), and the host records what was created, spawned and
  removed.
 */
module PyRuntime {
  import opened Wrappers
  import opened Exceptions
  import opened PyStrings

  /** The line the watcher prints before the URLs. */
  const Marker := "=== Uploaded Files ==="
  const UrlPrefix := "http"
  const UrlSeparator := ", "

  /** Where the staged code is mounted inside the container. */
  const ContainerCodePath := "/app/code.py"
  /** `PY_RUNTIME_TIMEOUT` and `DOCKER_CONTAINER_NAME` when the environment does not set them. */
  const DefaultTimeoutSeconds := 60
  const DefaultImage := "py-runtime"

  const TimeoutMessage := "\U{274C} Code execution timed out."
  const DockerNotFoundMessage := "\U{274C} Docker not found. Please install Docker."
  const PermissionMessage := "\U{274C} Permission denied. Try: sudo usermod -aG docker $USER"
  const UnexpectedPrefix := "\U{274C} Unexpected error: "
  const DockerUnavailableMessage := "Docker is not installed or not accessible."
  const DockerFailedPrefix := "Docker failed: "

  function ImageMissingMessage(image: string): string {
    "Image '" + image + "' not found or inaccessible."
  }

  // ---------------------------------------------------------------------------
  // The completion protocol: reading URLs back from the captured output
  // ---------------------------------------------------------------------------

  predicate IsMarkerLine(line: string) {
    Strip(line) == Marker
  }

  predicate IsUrlLine(line: string) {
    StartsWith(Strip(line), UrlPrefix)
  }

  /** Index of the first marker line, if any. */
  function FirstMarker(lines: seq<string>): (r: Option<nat>)
    ensures r.Some? ==> r.value < |lines|
  {
    if lines == [] then None
    else if IsMarkerLine(lines[0]) then Some(0)
    else match FirstMarker(lines[1..])
      case None => None
      case Some(k) => Some(k + 1)
  }

  /** `FirstMarker` finds the marker line that no earlier line matches, and `None` means there is none. */
  lemma {:induction false} FirstMarkerSpec(lines: seq<string>)
    ensures FirstMarker(lines).Some? ==> IsMarkerLine(lines[FirstMarker(lines).value])
    ensures FirstMarker(lines).Some? ==> forall j :: 0 <= j < FirstMarker(lines).value ==> !IsMarkerLine(lines[j])
    ensures FirstMarker(lines).None? ==> forall j :: 0 <= j < |lines| ==> !IsMarkerLine(lines[j])
  {
    if lines != [] && !IsMarkerLine(lines[0]) {
      FirstMarkerSpec(lines[1..]);
      assert forall j :: 1 <= j < |lines| ==> lines[j] == lines[1..][j - 1];
    }
  }

  /** What one line contributes: its stripped text if it is a URL line, nothing otherwise. */
  function UrlOf(line: string): seq<string> {
    if IsUrlLine(line) then [Strip(line)] else []
  }

  /** The stripped lines that start with `http`, in their original order. */
  function HttpLines(lines: seq<string>): seq<string> {
    if lines == [] then [] else HttpLines(lines[..|lines| - 1]) + UrlOf(lines[|lines| - 1])
  }

  /**
    What the parser collects: nothing when no line is the marker; otherwise
    the URL lines after the first marker.
   */
  function ExpectedUrls(lines: seq<string>): seq<string> {
    match FirstMarker(lines)
    case None => []
    case Some(k) => HttpLines(lines[k + 1..])
  }

  /**
    The loop at the end of `exec_py_runtime`: a `collecting` flag is raised at
    the first marker line, marker lines are skipped, and while collecting
    every line whose strip starts with `http` is appended stripped.
   */
  method CollectUploadedUrls(lines: seq<string>) returns (urls: seq<string>)
    ensures urls == ExpectedUrls(lines)
  {
    urls := [];
    var collecting := false;
    var i := 0;
    while i < |lines|
      invariant 0 <= i <= |lines|
      invariant collecting <==> FirstMarker(lines[..i]).Some?
      invariant urls == ExpectedUrls(lines[..i])
    {
      var line := lines[i];
      assert lines[..i + 1] == lines[..i] + [line];
      CollectSnoc(lines[..i], line);
      FirstMarkerSnoc(lines[..i], line);
      var text := Strip(line);
      if text == Marker {
        // a marker line raises the flag and is itself skipped
        collecting := true;
      } else if collecting && StartsWith(text, UrlPrefix) {
        urls := urls + [text];
      }
      i := i + 1;
    }
    assert lines[..|lines|] == lines;
  }

  /** What `exec_py_runtime` returns for a container that exited with status 0 and printed `stdout`. */
  function UrlsReturned(stdout: string): string {
    Join(UrlSeparator, ExpectedUrls(SplitLines(Strip(stdout))))
  }

  /** Every collected entry is a stripped line that starts with `http`, no surrounding whitespace. */
  lemma {:induction false} HttpLinesAreUrls(lines: seq<string>)
    ensures forall u :: u in HttpLines(lines) ==> StartsWith(u, UrlPrefix) && Strip(u) == u
  {
    if lines != [] {
      HttpLinesAreUrls(lines[..|lines| - 1]);
      StripIdempotent(lines[|lines| - 1]);
    }
  }

  /** The first marker of a longer list is the old one if there was one, else possibly the new line. */
  lemma {:induction false} FirstMarkerSnoc(lines: seq<string>, x: string)
    ensures FirstMarker(lines + [x]) ==
      if FirstMarker(lines).Some? then FirstMarker(lines)
      else if IsMarkerLine(x) then Some(|lines|)
      else None
  {
    if lines != [] {
      assert (lines + [x])[1..] == lines[1..] + [x];
      FirstMarkerSnoc(lines[1..], x);
    }
  }

  /** Keeping URL lines distributes over concatenation. */
  lemma {:induction false} HttpLinesAppend(a: seq<string>, b: seq<string>)
    ensures HttpLines(a + b) == HttpLines(a) + HttpLines(b)
  {
    if b == [] {
      assert a + b == a;
    } else {
      var b', x := b[..|b| - 1], b[|b| - 1];
      calc {
        HttpLines(a + b);
        { assert a + b == (a + b') + [x]; }
        HttpLines((a + b') + [x]);
        { HttpLinesSnoc(a + b', x); }
        HttpLines(a + b') + UrlOf(x);
        { HttpLinesAppend(a, b'); }
        HttpLines(a) + HttpLines(b') + UrlOf(x);
        { HttpLinesSnoc(b', x); assert b' + [x] == b; }
        HttpLines(a) + HttpLines(b);
      }
    }
  }

  /** One more line adds its stripped text exactly when it is a URL line. */
  lemma HttpLinesSnoc(init: seq<string>, last: string)
    ensures HttpLines(init + [last]) == HttpLines(init) + UrlOf(last)
  {
    assert (init + [last])[..|init|] == init;
  }

  /**
    One more line, read as the loop reads it: nothing is kept before the
    first marker; after it a marker or non-URL line adds nothing and a URL
    line adds its stripped text.
   */
  lemma CollectSnoc(prefix: seq<string>, x: string)
    ensures FirstMarker(prefix).None? ==> ExpectedUrls(prefix + [x]) == []
    ensures FirstMarker(prefix).Some? && (Strip(x) == Marker || !StartsWith(Strip(x), UrlPrefix)) ==>
      ExpectedUrls(prefix + [x]) == ExpectedUrls(prefix)
    ensures FirstMarker(prefix).Some? && Strip(x) != Marker && StartsWith(Strip(x), UrlPrefix) ==>
      ExpectedUrls(prefix + [x]) == ExpectedUrls(prefix) + [Strip(x)]
  {
    ExpectedUrlsSnoc(prefix, x);
    if Strip(x) == Marker {
      MarkerIsNotUrl(x);
    }
  }

  /** One more line adds what `UrlOf` keeps of it once a marker has been seen, and nothing before. */
  lemma ExpectedUrlsSnoc(prefix: seq<string>, x: string)
    ensures ExpectedUrls(prefix + [x]) == if FirstMarker(prefix).Some? then ExpectedUrls(prefix) + UrlOf(x) else []
  {
    FirstMarkerSnoc(prefix, x);
    match FirstMarker(prefix)
    case None =>
      if IsMarkerLine(x) {
        assert (prefix + [x])[|prefix| + 1..] == [];
      }
    case Some(k) =>
      assert (prefix + [x])[k + 1..] == prefix[k + 1..] + [x];
      HttpLinesSnoc(prefix[k + 1..], x);
  }

  /** Lines that already are URLs without surrounding whitespace are all kept, unchanged. */
  lemma {:induction false} HttpLinesOfUrls(urls: seq<string>)
    requires forall k :: 0 <= k < |urls| ==> StartsWith(urls[k], UrlPrefix) && HasNoSpace(urls[k])
    ensures HttpLines(urls) == urls
  {
    if urls != [] {
      var init, last := urls[..|urls| - 1], urls[|urls| - 1];
      assert init + [last] == urls;
      HttpLinesOfUrls(init);
      HttpLinesSnocUrl(init, last);
    }
  }

  lemma HttpLinesSnocUrl(init: seq<string>, last: string)
    requires StartsWith(last, UrlPrefix) && HasNoSpace(last)
    ensures HttpLines(init + [last]) == HttpLines(init) + [last]
  {
    HttpLinesSnoc(init, last);
    StripNoSpace(last);
  }

  /** A marker line is never a URL line, so the marker itself is never collected. */
  lemma MarkerIsNotUrl(line: string)
    requires IsMarkerLine(line)
    ensures !IsUrlLine(line)
  {
    assert Strip(line)[0] == '=';
  }

  /** Lines before the first marker never matter: only what follows it can be collected. */
  lemma {:induction false} LinesBeforeMarkerIgnored(before: seq<string>, after: seq<string>)
    requires forall j :: 0 <= j < |before| ==> !IsMarkerLine(before[j])
    ensures ExpectedUrls(before + after) == ExpectedUrls(after)
  {
    FirstMarkerAfter(before, after);
    match FirstMarker(after)
    case None =>
    case Some(k) =>
      assert (before + after)[|before| + k + 1..] == after[k + 1..];
  }

  /** Lines without a marker in front shift the first marker by their number. */
  lemma {:induction false} FirstMarkerAfter(before: seq<string>, after: seq<string>)
    requires forall j :: 0 <= j < |before| ==> !IsMarkerLine(before[j])
    ensures FirstMarker(before + after) ==
      match FirstMarker(after)
      case None => None
      case Some(k) => Some(|before| + k)
  {
    if before == [] {
      assert before + after == after;
    } else {
      assert !IsMarkerLine(before[0]);
      assert (before + after)[0] == before[0];
      assert (before + after)[1..] == before[1..] + after;
      FirstMarkerAfter(before[1..], after);
    }
  }

  /** A list that opens with the marker yields the URL lines of everything after it. */
  lemma MarkerFirst(rest: seq<string>)
    ensures ExpectedUrls([Marker] + rest) == HttpLines(rest)
  {
    StripNoEdgeSpace(Marker);
    assert ([Marker] + rest)[1..] == rest;
  }

  /** A marker line between two blocks contributes nothing itself. */
  lemma HttpLinesAcrossMarker(b: seq<string>, c: seq<string>)
    ensures HttpLines(b + [Marker] + c) == HttpLines(b) + HttpLines(c)
  {
    StripNoEdgeSpace(Marker);
    MarkerIsNotUrl(Marker);
    HttpLinesSnoc(b, Marker);
    HttpLinesAppend(b + [Marker], c);
  }

  /**
    A later marker does not reset the collection: with a marker opening `b`
    and another marker opening `c`, URLs of both blocks are returned.
   */
  lemma SecondMarkerDoesNotReset(a: seq<string>, b: seq<string>, c: seq<string>)
    requires forall j :: 0 <= j < |a| ==> !IsMarkerLine(a[j])
    ensures ExpectedUrls(a + [Marker] + b + [Marker] + c) == HttpLines(b) + HttpLines(c)
  {
    var rest := b + [Marker] + c;
    assert a + [Marker] + b + [Marker] + c == a + ([Marker] + rest);
    LinesBeforeMarkerIgnored(a, [Marker] + rest);
    MarkerFirst(rest);
    HttpLinesAcrossMarker(b, c);
  }

  /**
    No marker, or a marker followed by no URL line, gives the empty string:
    the run still succeeds.
   */
  lemma NoUrlsGiveEmptyResult(stdout: string)
    requires ExpectedUrls(SplitLines(Strip(stdout))) == []
    ensures UrlsReturned(stdout) == ""
  {
  }

  /** The watcher's report block, read by this parser, gives back its URLs in the printed order. */
  lemma ReportBlockParsesBack(before: seq<string>, urls: seq<string>)
    requires forall j :: 0 <= j < |before| ==> !IsMarkerLine(before[j])
    requires forall k :: 0 <= k < |urls| ==> StartsWith(urls[k], UrlPrefix) && HasNoSpace(urls[k])
    ensures ExpectedUrls(before + [Marker] + urls) == urls
  {
    LinesBeforeMarkerIgnored(before, [Marker] + urls);
    assert before + [Marker] + urls == before + ([Marker] + urls);
    MarkerFirst(urls);
    HttpLinesOfUrls(urls);
  }

  // ---------------------------------------------------------------------------
  // The orchestrator
  // ---------------------------------------------------------------------------

  /** An exception raised by an external call, by the class the handlers at 92-105 tell apart. */
  datatype Raised =
    | TimeoutExpired
    | NotFound(msg: string)
    | PermissionDenied(msg: string)
    | OtherException(msg: string)

  /**
    What one `subprocess.run` gives back: a finished process, or an exception.
    Only the container run passes a timeout, so `TimeoutExpired` is an answer
    only that call can give; the two checks are modelled with the same type
    and never meet it in practice.
   */
  datatype ProcResult =
    | Completed(returncode: int, stdout: string, stderr: string)
    | Failed(raised: Raised)

  /**
    `NamedTemporaryFile(delete=False, suffix=".py")` and the write of the
    encoded code: the file may fail to be created, may be created and then
    fail to be written (a full disk, or an encoding error for a lone
    surrogate that the earlier `print` let through), or be staged.
   */
  datatype Staging =
    | CreateFailed(raised: Raised)
    | WriteFailed(path: string, raised: Raised)
    | Staged(path: string)

  /** The answers of every external call `exec_py_runtime` can make, in call order. */
  datatype Oracle = Oracle(staging: Staging, version: ProcResult, inspect: ProcResult, run: ProcResult)

  /** A subprocess the host spawned: its argument vector and its timeout, if one was given. */
  datatype Process = Process(argv: seq<string>, timeout: Option<int>)

  /** A side effect on the host, in the order it happened. */
  datatype HostEvent =
    | CreateFile(path: string)
    | Spawn(process: Process)
    | RemoveFile(path: string)

  const VersionCommand := ["docker", "--version"]

  function InspectCommand(image: string): seq<string> {
    ["docker", "inspect", image]
  }

  /** The container command: fixed flags, one read-only mount of the staged file, the image last. */
  function RunCommand(path: string, image: string): (argv: seq<string>)
    ensures |argv| == 14 && argv[..3] == ["docker", "run", "--rm"]
    ensures argv[3..5] == ["--network", "bridge"] && argv[5..7] == ["--cpus", "2.0"]
    ensures argv[7..9] == ["--memory", "2048m"] && argv[9..11] == ["--env-file", ".env"]
    ensures argv[11] == "-v" && argv[12] == path + ":" + ContainerCodePath + ":ro"
    ensures argv[13] == image
  {
    ["docker", "run", "--rm", "--network", "bridge", "--cpus", "2.0", "--memory", "2048m",
     "--env-file", ".env", "-v", path + ":" + ContainerCodePath + ":ro", image]
  }

  /**
    The handlers at the end of `exec_py_runtime`.  The errors the function
    raises itself (an `EnvironmentError`, a `ValueError` and a `RuntimeError`)
    are none of the first three classes, so they arrive here as `OtherException`.
   */
  function Classify(e: Raised): (x: Exception)
    ensures x.TimeoutError? <==> e.TimeoutExpired?
    ensures x.FileNotFoundError? <==> e.NotFound?
    ensures x.PermissionError? <==> e.PermissionDenied?
    ensures x.RuntimeError? <==> e.OtherException?
    ensures e.OtherException? ==> x.msg == UnexpectedPrefix + e.msg
  {
    match e
    case TimeoutExpired => TimeoutError(TimeoutMessage)
    case NotFound(_) => FileNotFoundError(DockerNotFoundMessage)
    case PermissionDenied(_) => PermissionError(PermissionMessage)
    case OtherException(m) => RuntimeError(UnexpectedPrefix + m)
  }

  /** The outcome of the three subprocesses once the code is staged at `path`. */
  function ProcessOutcome(o: Oracle, image: string): Result<string, Exception> {
    match o.version
    case Failed(e) => Err(Classify(e))
    case Completed(rc, _, _) =>
      if rc != 0 then Err(Classify(OtherException(DockerUnavailableMessage)))
      else match o.inspect
        case Failed(e) => Err(Classify(e))
        case Completed(rc2, _, _) =>
          if rc2 != 0 then Err(Classify(OtherException(ImageMissingMessage(image))))
          else match o.run
            case Failed(e) => Err(Classify(e))
            case Completed(rc3, out, err) =>
              if rc3 != 0 then Err(Classify(OtherException(DockerFailedPrefix + Strip(err))))
              else Ok(UrlsReturned(out))
  }

  /** What `exec_py_runtime` returns or raises. */
  function ExecOutcome(o: Oracle, image: string): Result<string, Exception> {
    match o.staging
    case CreateFailed(e) => Err(Classify(e))
    case WriteFailed(_, e) => Err(Classify(e))
    case Staged(_) => ProcessOutcome(o, image)
  }

  /** The subprocesses spawned once the code is staged at `path`: each check only after the previous one passed. */
  function Spawns(o: Oracle, path: string, image: string, timeout: int): seq<HostEvent> {
    var version := [Spawn(Process(VersionCommand, None))];
    var inspect := [Spawn(Process(InspectCommand(image), None))];
    var run := [Spawn(Process(RunCommand(path, image), Some(timeout)))];
    if !(o.version.Completed? && o.version.returncode == 0) then version
    else if !(o.inspect.Completed? && o.inspect.returncode == 0) then version + inspect
    else version + inspect + run
  }

  /** The path the file was created at, whether or not the code could be written to it. */
  function CreatedPath(s: Staging): Option<string> {
    match s
    case CreateFailed(_) => None
    case WriteFailed(p, _) => Some(p)
    case Staged(p) => Some(p)
  }

  /**
    The path bound to `tmpfile_path` as the source is written: the name is
    taken only after the write returned, so a failed write leaves it unbound.
   */
  function BoundPathAsWritten(s: Staging): Option<string> {
    if s.Staged? then Some(s.path) else None
  }

  /** The `finally` clause: remove the bound path if it was bound and still exists. */
  function Cleanup(files: set<string>, bound: Option<string>): set<string> {
    if bound.Some? && bound.value in files then files - {bound.value} else files
  }

  /** Every side effect of one call, in order: create, spawn the checks, remove the file again. */
  function ExpectedEvents(o: Oracle, image: string, timeout: int): seq<HostEvent> {
    match o.staging
    case CreateFailed(_) => []
    case WriteFailed(p, _) => [CreateFile(p), RemoveFile(p)]
    case Staged(p) => [CreateFile(p)] + Spawns(o, p, image, timeout) + [RemoveFile(p)]
  }

  /**
    With `tmpfile_path` bound as written, a write that raises after the file
    was created (an `OSError` such as a full temporary file system) leaves
    the file behind: the cleanup finds no bound name.  Binding the created
    path instead, as `Host.ExecPyRuntime` does, removes it.
   */
  lemma StagingLeakAsWritten(files: set<string>, p: string, e: Raised)
    requires p in files
    ensures Cleanup(files, BoundPathAsWritten(WriteFailed(p, e))) == files
    ensures p !in Cleanup(files, CreatedPath(WriteFailed(p, e)))
  {
  }

  /** The leak on one concrete write failure: `write` raising `ENOSPC` on a freshly created file. */
  lemma StagingLeakExample()
    ensures var s := WriteFailed("/tmp/tmpq1w2e3.py", OtherException("[Errno 28] No space left on device"));
            Cleanup({s.path}, BoundPathAsWritten(s)) == {"/tmp/tmpq1w2e3.py"}
  {
  }

  /** The host's file system and process table, as far as the orchestrator touches them. */
  class Host {
    var files: set<string>
    /** Every file creation, subprocess spawn and file removal, oldest first. */
    var events: seq<HostEvent>

    constructor (existing: set<string>)
      ensures files == existing && events == []
    {
      files := existing;
      events := [];
    }

    method CreateTempFile(s: Staging) returns (path: Option<string>)
      requires s.CreateFailed? || s.path !in files
      modifies this
      ensures path == CreatedPath(s)
      ensures files == old(files) + if path.Some? then {path.value} else {}
      ensures events == old(events) + if path.Some? then [CreateFile(path.value)] else []
    {
      path := CreatedPath(s);
      if path.Some? {
        files := files + {path.value};
        events := events + [CreateFile(path.value)];
      }
    }

    method RunProcess(argv: seq<string>, timeout: Option<int>, answer: ProcResult) returns (result: ProcResult)
      modifies this
      ensures result == answer && files == old(files)
      ensures events == old(events) + [Spawn(Process(argv, timeout))]
    {
      events := events + [Spawn(Process(argv, timeout))];
      result := answer;
    }

    method RemoveFile(path: string)
      requires path in files
      modifies this
      ensures files == old(files) - {path}
      ensures events == old(events) + [HostEvent.RemoveFile(path)]
    {
      files := files - {path};
      events := events + [HostEvent.RemoveFile(path)];
    }

    /** The three preflight and run steps of the `try` block, once the code is staged at `path`. */
    method RunSteps(path: string, image: string, timeout: int, o: Oracle) returns (r: Result<string, Exception>)
      modifies this
      ensures files == old(files)
      ensures events == old(events) + Spawns(o, path, image, timeout)
      ensures r == ProcessOutcome(o, image)
    {
      var version := RunProcess(VersionCommand, None, o.version);
      if version.Failed? {
        return Err(Classify(version.raised));
      }
      if version.returncode != 0 {
        return Err(Classify(OtherException(DockerUnavailableMessage)));
      }
      var inspect := RunProcess(InspectCommand(image), None, o.inspect);
      if inspect.Failed? {
        return Err(Classify(inspect.raised));
      }
      if inspect.returncode != 0 {
        return Err(Classify(OtherException(ImageMissingMessage(image))));
      }
      var result := RunProcess(RunCommand(path, image), Some(timeout), o.run);
      if result.Failed? {
        return Err(Classify(result.raised));
      }
      if result.returncode != 0 {
        return Err(Classify(OtherException(DockerFailedPrefix + Strip(result.stderr))));
      }
      var output := Strip(result.stdout);
      var urls := CollectUploadedUrls(SplitLines(output));
      r := Ok(Join(UrlSeparator, urls));
    }

    /**
      `exec_py_runtime(input, timeout)`.  The staged path is bound as soon as
      the file exists, so the cleanup removes it on every exit path.  The
      code enters only through `o.staging`, the outcome of writing it.
     */
    method ExecPyRuntime(image: string, timeout: int, o: Oracle) returns (r: Result<string, Exception>)
      requires o.staging.CreateFailed? || o.staging.path !in files
      modifies this
      ensures files == old(files)
      ensures events == old(events) + ExpectedEvents(o, image, timeout)
      ensures r == ExecOutcome(o, image)
    {
      var staged := CreateTempFile(o.staging);
      if o.staging.CreateFailed? {
        r := Err(Classify(o.staging.raised));
      } else if o.staging.WriteFailed? {
        r := Err(Classify(o.staging.raised));
      } else {
        r := RunSteps(o.staging.path, image, timeout, o);
      }
      // finally
      if staged.Some? && staged.value in files {
        RemoveFile(staged.value);
      }
    }
  }

  // ---------------------------------------------------------------------------
  // What the orchestrator promises
  // ---------------------------------------------------------------------------

  /** A run that outlives its timeout is reported as `TimeoutError`, with a fixed message. */
  lemma RunTimeoutIsTimeoutError(o: Oracle, image: string)
    requires o.staging.Staged?
    requires o.version.Completed? && o.version.returncode == 0
    requires o.inspect.Completed? && o.inspect.returncode == 0
    requires o.run == Failed(TimeoutExpired)
    ensures ExecOutcome(o, image) == Err(TimeoutError(TimeoutMessage))
  {
  }

  /** A nonzero `docker --version` is not a missing-binary error: it surfaces as an unexpected error, and no image check runs. */
  lemma DockerVersionFailure(o: Oracle, image: string, timeout: int)
    requires o.staging.Staged?
    requires o.version.Completed? && o.version.returncode != 0
    ensures ExecOutcome(o, image) == Err(RuntimeError(UnexpectedPrefix + DockerUnavailableMessage))
    ensures ExpectedEvents(o, image, timeout)
            == [CreateFile(o.staging.path), Spawn(Process(VersionCommand, None)), HostEvent.RemoveFile(o.staging.path)]
  {
  }

  /** A missing image surfaces as an unexpected error naming the image, and no container is started. */
  lemma ImageMissingFailure(o: Oracle, image: string, timeout: int)
    requires o.staging.Staged?
    requires o.version.Completed? && o.version.returncode == 0
    requires o.inspect.Completed? && o.inspect.returncode != 0
    ensures ExecOutcome(o, image) == Err(RuntimeError(UnexpectedPrefix + ImageMissingMessage(image)))
    ensures forall k :: 0 <= k < |ExpectedEvents(o, image, timeout)| ==>
              ExpectedEvents(o, image, timeout)[k] != Spawn(Process(RunCommand(o.staging.path, image), Some(timeout)))
  {
  }

  /** A container that exits nonzero surfaces its stripped standard error behind the unexpected-error prefix. */
  lemma ContainerFailure(o: Oracle, image: string)
    requires o.staging.Staged?
    requires o.version.Completed? && o.version.returncode == 0
    requires o.inspect.Completed? && o.inspect.returncode == 0
    requires o.run.Completed? && o.run.returncode != 0
    ensures ExecOutcome(o, image) == Err(RuntimeError(UnexpectedPrefix + (DockerFailedPrefix + Strip(o.run.stderr))))
  {
  }

  /** Success happens only when all three processes exited with status 0, and then it is the parsed URL list. */
  lemma SuccessMeansAllStepsPassed(o: Oracle, image: string)
    requires ExecOutcome(o, image).Ok?
    ensures o.staging.Staged?
    ensures o.version.Completed? && o.version.returncode == 0
    ensures o.inspect.Completed? && o.inspect.returncode == 0
    ensures o.run.Completed? && o.run.returncode == 0
    ensures ExecOutcome(o, image).value == Join(UrlSeparator, ExpectedUrls(SplitLines(Strip(o.run.stdout))))
  {
  }

  /** Every failure is one of the four exception classes, and each class comes from exactly one kind of cause. */
  lemma FailureClasses(o: Oracle, image: string)
    requires ExecOutcome(o, image).Err?
    ensures var x := ExecOutcome(o, image).error;
            (x.TimeoutError? && x.msg == TimeoutMessage)
            || (x.FileNotFoundError? && x.msg == DockerNotFoundMessage)
            || (x.PermissionError? && x.msg == PermissionMessage)
            || (x.RuntimeError? && StartsWith(x.msg, UnexpectedPrefix))
  {
    var x := ExecOutcome(o, image).error;
    if x.RuntimeError? {
      assert (UnexpectedPrefix + x.msg[|UnexpectedPrefix|..])[..|UnexpectedPrefix|] == UnexpectedPrefix;
    }
  }

  /**
    Ordering of the host's side effects: the file is created first, the
    image is inspected only after `--version` returned 0, the container is
    started only after both checks passed, and the created file is removed
    last, on every path.
   */
  lemma {:induction false} EventOrdering(o: Oracle, image: string, timeout: int)
    ensures var ev := ExpectedEvents(o, image, timeout);
            (CreatedPath(o.staging).None? <==> ev == [])
            && (CreatedPath(o.staging).Some? ==>
                  |ev| >= 2 && ev[0] == CreateFile(CreatedPath(o.staging).value)
                  && ev[|ev| - 1] == HostEvent.RemoveFile(CreatedPath(o.staging).value))
            && (Spawn(Process(InspectCommand(image), None)) in ev ==>
                  o.version.Completed? && o.version.returncode == 0)
            && (forall p :: Spawn(Process(RunCommand(p, image), Some(timeout))) in ev ==>
                  o.staging == Staged(p)
                  && o.version.Completed? && o.version.returncode == 0
                  && o.inspect.Completed? && o.inspect.returncode == 0)
  {
    var ev := ExpectedEvents(o, image, timeout);
    if o.staging.Staged? {
      var p := o.staging.path;
      var sp := Spawns(o, p, image, timeout);
      assert ev == [CreateFile(p)] + sp + [HostEvent.RemoveFile(p)];
      assert CreateFile(p) != Spawn(Process(InspectCommand(image), None));
      forall q | Spawn(Process(RunCommand(q, image), Some(timeout))) in ev
        ensures o.staging == Staged(q)
        ensures o.version.Completed? && o.version.returncode == 0
        ensures o.inspect.Completed? && o.inspect.returncode == 0
      {
        assert Spawn(Process(RunCommand(q, image), Some(timeout))) in sp;
        assert RunCommand(q, image)[12] == q + ":" + ContainerCodePath + ":ro";
        assert RunCommand(q, image) == RunCommand(p, image);
        assert (q + ":" + ContainerCodePath + ":ro")[..|q|] == q;
        assert (p + ":" + ContainerCodePath + ":ro")[..|p|] == p;
      }
    }
  }
}
