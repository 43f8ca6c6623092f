/**
  The artifact watcher that runs inside the Python sandbox container.

  It reacts to file-creation events in `/app`: directory events, `.done`
  paths and "garbage" names are skipped; any other file is uploaded under a
  fresh key and the presigned URL of the upload joins the module-level set
  `uploaded_files`.  The main loop polls for a `.done` file and, once it
  appears (or the loop is interrupted), prints a marker line followed by one
  line per stored URL.  The file-system observer thread, the clock and the
  uuid generator are outside the model: events arrive as a sequence of steps
  and the instant and id of each key are inputs.
 */
module Watcher {
  import opened Wrappers
  import opened PyStrings
  import opened Timestamps
  import opened ObjectStore

  /** The line printed ahead of the URLs. */
  const ReportMarker := "=== Uploaded Files ==="
  /** Three hours, the validity of the presigned URLs. */
  const PresignExpirySeconds := 3 * 60 * 60
  /** The name whose appearance in the watched directory ends the run. */
  const DoneSuffix := ".done"

  const IgnoredFiles: set<string> := {".DS_Store", "Thumbs.db"}
  const IgnoredExtensions: set<string> := {".pyc", ".log", ".tmp"}
  const IgnoredPrefixes: set<string> := {"__pycache__", "."}

  // ---------------------------------------------------------------------------
  // Paths
  // ---------------------------------------------------------------------------

  /** `s.rfind(c)`: the index of the last `c`, or -1. */
  function LastIndexOf(s: string, c: char): (i: int)
    ensures -1 <= i < |s|
  {
    if s == [] then -1
    else if s[|s| - 1] == c then |s| - 1
    else LastIndexOf(s[..|s| - 1], c)
  }

  /** `rfind` finds a `c`, and no `c` comes after it. */
  lemma {:induction false} LastIndexOfSpec(s: string, c: char)
    ensures LastIndexOf(s, c) >= 0 ==> s[LastIndexOf(s, c)] == c
    ensures forall j :: LastIndexOf(s, c) < j < |s| ==> s[j] != c
  {
    if s != [] && s[|s| - 1] != c {
      LastIndexOfSpec(s[..|s| - 1], c);
    }
  }

  /** `os.path.basename` for POSIX paths: what follows the last `/`. */
  function Basename(path: string): (name: string)
    ensures |name| <= |path| && name == path[|path| - |name|..]
  {
    path[LastIndexOf(path, '/') + 1..]
  }

  /** The file name holds no `/`. */
  lemma BasenameSpec(path: string)
    ensures forall j :: 0 <= j < |Basename(path)| ==> Basename(path)[j] != '/'
  {
    LastIndexOfSpec(path, '/');
    var name := Basename(path);
    assert forall j :: 0 <= j < |name| ==> name[j] == path[|path| - |name| + j];
  }

  predicate AllDots(s: string) {
    forall j :: 0 <= j < |s| ==> s[j] == '.'
  }

  /**
    `os.path.splitext` for POSIX paths: the extension runs from the last dot
    of the last path component, unless everything before that dot in the
    component is dots (so `.bashrc` and `..` have no extension).
   */
  function SplitExt(p: string): (parts: (string, string))
    ensures parts.0 + parts.1 == p
  {
    var sep := LastIndexOf(p, '/');
    var dot := LastIndexOf(p, '.');
    if dot > sep && !AllDots(p[sep + 1..dot]) then
      assert p[..dot] + p[dot..] == p;
      (p[..dot], p[dot..])
    else (p, "")
  }

  /** The extension is empty or one dot followed by neither a dot nor a `/`. */
  lemma SplitExtExtension(p: string)
    ensures var ext := SplitExt(p).1;
            ext == "" || (ext[0] == '.' && forall j :: 1 <= j < |ext| ==> ext[j] != '.' && ext[j] != '/')
  {
    var sep := LastIndexOf(p, '/');
    var dot := LastIndexOf(p, '.');
    LastIndexOfSpec(p, '/');
    LastIndexOfSpec(p, '.');
    if dot > sep && !AllDots(p[sep + 1..dot]) {
      var ext := p[dot..];
      assert forall j :: 0 <= j < |ext| ==> ext[j] == p[dot + j];
    }
  }

  /**
    A name with no `/` that does not start with a dot (every such name the
    filter can let through) splits at its last dot.
   */
  lemma SplitExtAtLastDot(name: string)
    requires forall j :: 0 <= j < |name| ==> name[j] != '/'
    requires name == [] || name[0] != '.'
    ensures var d := LastIndexOf(name, '.');
            SplitExt(name) == if d < 0 then (name, "") else (name[..d], name[d..])
  {
    var d := LastIndexOf(name, '.');
    LastIndexOfIs(name, '/', -1);
    if d >= 0 {
      assert name[0..d][0] == name[0];
    }
  }

  /**
    A plain name (no `/`, no dot, not empty) followed by a dotted extension
    splits into exactly these two parts; without an extension it has none.
   */
  lemma SplitExtPlain(root: string, ext: string)
    requires root != [] && forall j :: 0 <= j < |root| ==> root[j] != '/' && root[j] != '.'
    requires ext == [] || ext[0] == '.'
    requires forall j :: 0 <= j < |ext| ==> ext[j] != '/' && (j > 0 ==> ext[j] != '.')
    ensures SplitExt(root + ext) == (root, ext)
  {
    var p := root + ext;
    assert NoSlash: forall j :: 0 <= j < |p| ==> p[j] != '/' by {
      forall j | 0 <= j < |p| ensures p[j] != '/' {
        if j < |root| { assert p[j] == root[j]; } else { assert p[j] == ext[j - |root|]; }
      }
    }
    LastIndexOfIs(p, '/', -1);
    var dot := if ext == [] then -1 else |root|;
    assert forall j :: dot < j < |p| ==> p[j] != '.' by {
      forall j | dot < j < |p| ensures p[j] != '.' {
        if j < |root| { assert p[j] == root[j]; } else { assert p[j] == ext[j - |root|]; }
      }
    }
    assert dot >= 0 ==> p[dot] == ext[0];
    LastIndexOfIs(p, '.', dot);
    if ext != [] {
      assert p[0..dot][0] == root[0];
      assert p[..dot] == root && p[dot..] == ext;
    } else {
      assert p == root;
    }
  }

  /** `rfind` is pinned down by its two properties. */
  lemma LastIndexOfIs(s: string, c: char, i: int)
    requires -1 <= i < |s| && (i >= 0 ==> s[i] == c)
    requires forall j :: i < j < |s| ==> s[j] != c
    ensures LastIndexOf(s, c) == i
  {
    LastIndexOfSpec(s, c);
  }

  /** Leading dots never start an extension: a dot-file whose only dot is the first has none. */
  lemma DotfileHasNoExtension(name: string)
    requires name != [] && name[0] == '.'
    requires forall j :: 0 <= j < |name| ==> name[j] != '/' && (j > 0 ==> name[j] != '.')
    ensures SplitExt(name) == (name, "")
  {
    LastIndexOfIs(name, '/', -1);
    LastIndexOfIs(name, '.', 0);
  }

  // ---------------------------------------------------------------------------
  // The filter of `on_created`
  // ---------------------------------------------------------------------------

  /**
    The garbage test on a file name and its `splitext` extension: a listed
    name, a listed extension in any case, or a listed prefix.
   */
  predicate IsIgnored(filename: string, ext: string) {
    filename in IgnoredFiles
    || Lower(ext) in IgnoredExtensions
    || exists prefix :: prefix in IgnoredPrefixes && StartsWith(filename, prefix)
  }

  /** The decision of the filter, which depends on the file name only. */
  predicate IsIgnoredName(filename: string) {
    IsIgnored(filename, SplitExt(filename).1)
  }

  /** Events dropped before a file name is looked at: directories and any path ending in `.done`. */
  predicate IsSkippedEvent(srcPath: string, isDirectory: bool) {
    isDirectory || EndsWith(srcPath, DoneSuffix)
  }

  /** An event the handler goes on to upload. */
  predicate Accepted(srcPath: string, isDirectory: bool) {
    !IsSkippedEvent(srcPath, isDirectory) && !IsIgnoredName(Basename(srcPath))
  }

  /** The filter written out: each of the six ways a name is rejected, and no other. */
  lemma IgnoredIff(filename: string, ext: string)
    ensures IsIgnored(filename, ext) <==>
              filename == ".DS_Store" || filename == "Thumbs.db"
              || Lower(ext) == ".pyc" || Lower(ext) == ".log" || Lower(ext) == ".tmp"
              || StartsWith(filename, "__pycache__") || StartsWith(filename, ".")
  {
    if StartsWith(filename, "__pycache__") {
      assert "__pycache__" in IgnoredPrefixes;
    }
    if StartsWith(filename, ".") {
      assert "." in IgnoredPrefixes;
    }
  }

  /** The extension test ignores case: `build.LOG` is rejected. */
  lemma ExtensionTestIgnoresCase()
    ensures IsIgnoredName("build.LOG")
  {
    SplitExtPlain("build", ".LOG");
    assert "build" + ".LOG" == "build.LOG";
    var l := Lower(".LOG");
    LowerSpec(".LOG");
    assert l[0] == '.' && l[1] == 'l' && l[2] == 'o' && l[3] == 'g';
    assert l == ".log";
  }

  /** The exact-name test keeps case: `thumbs.db` passes. */
  lemma NameTestKeepsCase()
    ensures !IsIgnoredName("thumbs.db")
  {
    SplitExtPlain("thumbs", ".db");
    assert "thumbs" + ".db" == "thumbs.db";
    var l := Lower(".db");
    LowerSpec(".db");
    assert l[0] == '.' && l[1] == 'd' && l[2] == 'b';
    assert l == ".db";
    IgnoredIff("thumbs.db", ".db");
    assert "thumbs.db"[0] != "__pycache__"[0] && "thumbs.db"[0] != '.';
  }

  /** So does the prefix test: `__PYCACHE__` passes. */
  lemma PrefixTestKeepsCase()
    ensures !IsIgnoredName("__PYCACHE__")
  {
    SplitExtPlain("__PYCACHE__", "");
    assert "__PYCACHE__" + "" == "__PYCACHE__";
    IgnoredIff("__PYCACHE__", "");
    assert "__PYCACHE__"[2] != "__pycache__"[2] && "__PYCACHE__"[0] != '.';
  }

  /** Whether `.done` ends the path is decided by the file name alone, like the rest of the filter. */
  lemma DoneTestOnName(srcPath: string)
    ensures EndsWith(srcPath, DoneSuffix) <==> EndsWith(Basename(srcPath), DoneSuffix)
  {
    var name := Basename(srcPath);
    var n := |srcPath|;
    LastIndexOfSpec(srcPath, '/');
    if EndsWith(srcPath, DoneSuffix) {
      forall j | n - 5 <= j < n
        ensures srcPath[j] != '/'
      {
        assert srcPath[j] == srcPath[n - 5..][j - (n - 5)];
      }
      assert |name| >= 5;
      assert name[|name| - 5..] == srcPath[n - 5..];
    }
    if EndsWith(name, DoneSuffix) {
      assert srcPath[n - 5..] == name[|name| - 5..];
    }
  }

  /** Two events for paths with the same file name in the same kind are treated alike. */
  lemma FilterDependsOnNameOnly(p1: string, p2: string, isDirectory: bool)
    requires Basename(p1) == Basename(p2)
    ensures Accepted(p1, isDirectory) <==> Accepted(p2, isDirectory)
  {
    DoneTestOnName(p1);
    DoneTestOnName(p2);
  }

  /** An accepted name is never a dot-file; so its extension is what its last dot starts. */
  lemma AcceptedNamesSplitAtLastDot(srcPath: string, isDirectory: bool)
    requires Accepted(srcPath, isDirectory)
    ensures var name := Basename(srcPath);
            var d := LastIndexOf(name, '.');
            SplitExt(name).1 == if d < 0 then "" else name[d..]
  {
    var name := Basename(srcPath);
    BasenameSpec(srcPath);
    IgnoredIff(name, SplitExt(name).1);
    if name != [] {
      assert !StartsWith(name, ".");
      assert name[..1] == [name[0]];
    }
    SplitExtAtLastDot(name);
  }

  // ---------------------------------------------------------------------------
  // Keys and the handler
  // ---------------------------------------------------------------------------

  /** The watcher's own `get_unique_s3_obj_key(extension)`: the extension brings its dot, if any. */
  function WatcherKey(now: DateTime, uid: string, extension: string): (key: string)
    requires Valid(now)
    ensures |key| == 14 + 1 + |uid| + |extension|
    ensures key[..14] == Timestamp(now) && key[14] == '_'
    ensures key[15..15 + |uid|] == uid
    ensures EndsWith(key, extension)
  {
    var key := Timestamp(now) + "_" + uid + extension;
    assert key[|key| - |extension|..] == extension;
    key
  }

  /** A file without an extension gets a key without one: no dot is added. */
  lemma ExtensionlessKey(now: DateTime, uid: string)
    requires Valid(now)
    ensures WatcherKey(now, uid, "") == Timestamp(now) + "_" + uid
  {
  }

  /** The key of an accepted file, as `on_created` builds it from the file's extension. */
  function KeyFor(srcPath: string, now: DateTime, uid: string): string
    requires Valid(now)
  {
    WatcherKey(now, uid, SplitExt(Basename(srcPath)).1)
  }

  /** One file-creation event, with the answers the store gives to its upload and presign requests. */
  datatype Created = Created(srcPath: string, isDirectory: bool, now: DateTime, uid: string, replies: UploadReplies)

  /** The URL one event adds to `uploaded_files`: only after an accepted upload and a successful presign. */
  function NewUrls(e: Created): set<string> {
    if Accepted(e.srcPath, e.isDirectory) then UploadedUrl(e.replies) else {}
  }

  /** The requests one event makes: an upload, then a presign for the same key only if the upload succeeded. */
  function HandlerCalls(bucket: string, e: Created): seq<Call>
    requires Valid(e.now)
  {
    if !Accepted(e.srcPath, e.isDirectory) then []
    else UploadRequests(bucket, e.srcPath, KeyFor(e.srcPath, e.now, e.uid), e.replies.store)
  }

  /** The body of the `try`: upload the file, then presign its key only if the upload succeeded. */
  function UploadRequests(bucket: string, srcPath: string, key: string, store: Reply): seq<Call> {
    [Call.UploadFile(srcPath, bucket, key)]
    + if store.Done? then [Call.PresignGetObject(bucket, key, PresignExpirySeconds)] else []
  }

  /** What the `try` adds to `uploaded_files`: the presigned URL, when both requests succeed. */
  function UploadedUrl(replies: UploadReplies): set<string> {
    if replies.store.Done? && replies.presign.Presigned? then {replies.presign.url} else {}
  }

  /** An event adds at most one URL, and it adds one exactly when it was accepted and both requests succeeded. */
  lemma NewUrlsAtMostOne(e: Created)
    ensures |NewUrls(e)| <= 1
    ensures NewUrls(e) != {} <==>
              Accepted(e.srcPath, e.isDirectory) && e.replies.store.Done? && e.replies.presign.Presigned?
  {
  }

  /** A skipped event makes no request at all; an accepted one uploads the file under a key ending in its extension. */
  lemma HandlerCallsShape(bucket: string, e: Created)
    requires Valid(e.now)
    ensures !Accepted(e.srcPath, e.isDirectory) ==> HandlerCalls(bucket, e) == []
    ensures Accepted(e.srcPath, e.isDirectory) ==>
              |HandlerCalls(bucket, e)| == (if e.replies.store.Done? then 2 else 1)
              && HandlerCalls(bucket, e)[0].UploadFile?
              && HandlerCalls(bucket, e)[0].path == e.srcPath
              && EndsWith(HandlerCalls(bucket, e)[0].key, SplitExt(Basename(e.srcPath)).1)
  {
  }

  /** `UploadHandler`: the `on_created` callback and the module-level set it fills. */
  class UploadHandler {
    /** `uploaded_files`. */
    var uploadedFiles: set<string>
    const bucket: string
    const s3: Client

    constructor (bucket: string, s3: Client)
      ensures this.bucket == bucket && this.s3 == s3
      ensures uploadedFiles == {}
    {
      this.bucket := bucket;
      this.s3 := s3;
      uploadedFiles := {};
    }

    /** `on_created(event)`: filter, upload, presign, and remember the URL; a failed request is only logged. */
    method OnCreated(e: Created)
      requires Valid(e.now)
      modifies this, s3
      ensures uploadedFiles == old(uploadedFiles) + NewUrls(e)
      ensures s3.calls == old(s3.calls) + HandlerCalls(bucket, e)
    {
      if e.isDirectory || EndsWith(e.srcPath, DoneSuffix) {
        return;
      }
      var filename := Basename(e.srcPath);
      var (_, ext) := SplitExt(filename);
      if IsIgnored(filename, ext) {
        return;
      }
      var key := WatcherKey(e.now, e.uid, ext);
      UploadAndRemember(e.srcPath, key, e.replies);
    }

    /** The `try` block: upload, presign, add the URL; an exception from either request is caught and logged. */
    method UploadAndRemember(srcPath: string, key: string, replies: UploadReplies)
      modifies this, s3
      ensures uploadedFiles == old(uploadedFiles) + UploadedUrl(replies)
      ensures s3.calls == old(s3.calls) + UploadRequests(bucket, srcPath, key, replies.store)
    {
      var uploaded := s3.UploadFile(srcPath, bucket, key, replies.store);
      if !uploaded {
        return;
      }
      var url, presigned := s3.PresignGetObject(bucket, key, PresignExpirySeconds, replies.presign);
      if !presigned {
        return;
      }
      uploadedFiles := uploadedFiles + {url};
    }
  }

  // ---------------------------------------------------------------------------
  // The main block: poll for `.done`, then print the report
  // ---------------------------------------------------------------------------

  /**
    What happens next in the container, as the main loop sees it: a file is
    created (and handled by the observer), a poll finds the `.done` file or
    not, or the loop is interrupted.
   */
  datatype Step =
    | FileCreated(event: Created)
    | Poll(doneExists: bool)
    | Interrupt

  predicate Stops(s: Step) {
    s.Interrupt? || (s.Poll? && s.doneExists)
  }

  /** The step at which the loop ends, if it ends within `steps`. */
  function StopAt(steps: seq<Step>): (r: Option<nat>)
    ensures r.Some? ==> r.value < |steps|
  {
    if steps == [] then None
    else match StopAt(steps[..|steps| - 1])
      case Some(k) => Some(k)
      case None => if Stops(steps[|steps| - 1]) then Some(|steps| - 1) else None
  }

  /** The loop ends at the first stopping step, and without one it does not end. */
  lemma {:induction false} StopAtSpec(steps: seq<Step>)
    ensures StopAt(steps).Some? ==> Stops(steps[StopAt(steps).value])
    ensures StopAt(steps).Some? ==> forall j :: 0 <= j < StopAt(steps).value ==> !Stops(steps[j])
    ensures StopAt(steps).None? ==> forall j :: 0 <= j < |steps| ==> !Stops(steps[j])
  {
    if steps != [] {
      var init := steps[..|steps| - 1];
      StopAtSpec(init);
      assert forall j :: 0 <= j < |init| ==> init[j] == steps[j];
    }
  }

  /** Steps after the stop do not matter. */
  lemma {:induction false} StopAtPrefix(steps: seq<Step>, n: nat)
    requires n <= |steps| && StopAt(steps[..n]).Some?
    ensures StopAt(steps) == StopAt(steps[..n])
    decreases |steps|
  {
    if n < |steps| {
      var init := steps[..|steps| - 1];
      assert init[..n] == steps[..n];
      StopAtPrefix(init, n);
    } else {
      assert steps[..n] == steps;
    }
  }

  /** The steps that are handled before the loop ends (all of them if it does not). */
  function HandledCount(steps: seq<Step>): nat {
    match StopAt(steps)
    case None => |steps|
    case Some(k) => k
  }

  predicate ValidStep(s: Step) {
    s.FileCreated? ==> Valid(s.event.now)
  }

  predicate ValidSteps(steps: seq<Step>) {
    forall k :: 0 <= k < |steps| ==> ValidStep(steps[k])
  }

  /** What one step adds to `uploaded_files`. */
  function StepUrls(s: Step): set<string> {
    if s.FileCreated? then NewUrls(s.event) else {}
  }

  /** The requests one step makes. */
  function StepRequests(bucket: string, s: Step): seq<Call>
    requires ValidStep(s)
  {
    if s.FileCreated? then HandlerCalls(bucket, s.event) else []
  }

  /** The URLs the handled events add, each the presigned URL of one successful upload. */
  function StoredUrls(steps: seq<Step>): set<string> {
    if steps == [] then {} else StoredUrls(steps[..|steps| - 1]) + StepUrls(steps[|steps| - 1])
  }

  /** The requests the handled events make, in order. */
  function StepCalls(bucket: string, steps: seq<Step>): seq<Call>
    requires ValidSteps(steps)
  {
    if steps == [] then []
    else StepCalls(bucket, steps[..|steps| - 1]) + StepRequests(bucket, steps[|steps| - 1])
  }

  /** Handling one more step adds what that step adds. */
  lemma StepsSnoc(bucket: string, steps: seq<Step>, i: nat)
    requires ValidSteps(steps) && i < |steps|
    ensures ValidSteps(steps[..i]) && ValidSteps(steps[..i + 1])
    ensures StopAt(steps[..i + 1]) ==
      if StopAt(steps[..i]).Some? then StopAt(steps[..i]) else if Stops(steps[i]) then Some(i) else None
    ensures StoredUrls(steps[..i + 1]) == StoredUrls(steps[..i]) + StepUrls(steps[i])
    ensures StepCalls(bucket, steps[..i + 1]) == StepCalls(bucket, steps[..i]) + StepRequests(bucket, steps[i])
  {
    assert steps[..i + 1][..i] == steps[..i];
    assert forall k :: 0 <= k <= i ==> steps[..i + 1][k] == steps[k];
  }

  /** Every stored URL is the presigned URL of an accepted, fully successful upload among the steps. */
  lemma {:induction false} StoredUrlsComeFromUploads(steps: seq<Step>, url: string)
    requires url in StoredUrls(steps)
    ensures exists k :: 0 <= k < |steps| && steps[k].FileCreated? && url in NewUrls(steps[k].event)
  {
    var init := steps[..|steps| - 1];
    var last := steps[|steps| - 1];
    assert steps == init + [last];
    if url in StoredUrls(init) {
      StoredUrlsComeFromUploads(init, url);
      var k :| 0 <= k < |init| && init[k].FileCreated? && url in NewUrls(init[k].event);
      assert steps[k] == init[k];
    } else {
      assert last.FileCreated? && url in NewUrls(last.event);
    }
  }

  predicate Distinct(s: seq<string>) {
    forall i, j :: 0 <= i < j < |s| ==> s[i] != s[j]
  }

  /**
    The report block for a set of URLs: the marker, then every URL of the set
    exactly once, in some order (Python's set iteration order).
   */
  predicate IsReport(lines: seq<string>, urls: set<string>) {
    |lines| == |urls| + 1 && lines[0] == ReportMarker
    && Distinct(lines[1..])
    && (forall k :: 1 <= k < |lines| ==> lines[k] in urls)
    && (forall u :: u in urls ==> u in lines[1..])
  }

  /** The marker and the loop `for url in uploaded_files: print(url)`, as the lines they print. */
  method ReportLines(urls: set<string>) returns (lines: seq<string>)
    ensures IsReport(lines, urls)
  {
    lines := [ReportMarker];
    var rest := urls;
    while rest != {}
      invariant |lines| >= 1 && lines[0] == ReportMarker
      invariant rest <= urls
      invariant |lines| - 1 + |rest| == |urls|
      invariant Distinct(lines[1..])
      invariant forall k :: 1 <= k < |lines| ==> lines[k] in urls && lines[k] !in rest
      invariant forall u :: u in urls ==> u in rest || u in lines[1..]
      decreases |rest|
    {
      var u :| u in rest;
      assert (lines + [u])[1..] == lines[1..] + [u];
      lines := lines + [u];
      rest := rest - {u};
    }
  }

  /**
    The main block.  Each created file is handled as it arrives; the loop
    ends at the first poll that finds `.done` or at an interrupt, and then
    the report is printed.  When neither happens within `steps` the watcher
    is still polling and has printed no report yet.
   */
  method RunWatcher(handler: UploadHandler, steps: seq<Step>) returns (report: Option<seq<string>>)
    requires ValidSteps(steps)
    modifies handler, handler.s3
    ensures handler.uploadedFiles == old(handler.uploadedFiles) + StoredUrls(steps[..HandledCount(steps)])
    ensures handler.s3.calls == old(handler.s3.calls) + StepCalls(handler.bucket, steps[..HandledCount(steps)])
    ensures report.Some? <==> StopAt(steps).Some?
    ensures report.Some? ==> IsReport(report.value, handler.uploadedFiles)
  {
    var stopped := WatchUntilDone(handler, steps);
    if !stopped {
      return None;
    }
    var lines := ReportLines(handler.uploadedFiles);
    report := Some(lines);
  }

  /** The `while True` loop, with the observer handling each created file as it arrives. */
  method WatchUntilDone(handler: UploadHandler, steps: seq<Step>) returns (stopped: bool)
    requires ValidSteps(steps)
    modifies handler, handler.s3
    ensures handler.uploadedFiles == old(handler.uploadedFiles) + StoredUrls(steps[..HandledCount(steps)])
    ensures handler.s3.calls == old(handler.s3.calls) + StepCalls(handler.bucket, steps[..HandledCount(steps)])
    ensures stopped <==> StopAt(steps).Some?
  {
    var i := 0;
    while i < |steps|
      invariant 0 <= i <= |steps|
      invariant StopAt(steps[..i]) == None
      invariant ValidSteps(steps[..i])
      invariant handler.uploadedFiles == old(handler.uploadedFiles) + StoredUrls(steps[..i])
      invariant handler.s3.calls == old(handler.s3.calls) + StepCalls(handler.bucket, steps[..i])
    {
      var s := steps[i];
      StepsSnoc(handler.bucket, steps, i);
      ghost var before := StepCalls(handler.bucket, steps[..i]);
      ghost var after := StepCalls(handler.bucket, steps[..i + 1]);
      if s.FileCreated? {
        handler.OnCreated(s.event);
        AppendAssoc(old(handler.s3.calls), before, HandlerCalls(handler.bucket, s.event));
      } else if Stops(s) {
        StopAtPrefix(steps, i + 1);
        return true;
      } else {
        assert after == before + [];
        assert before + [] == before;
      }
      i := i + 1;
    }
    assert steps[..|steps|] == steps;
    return false;
  }

  lemma AppendAssoc<T>(a: seq<T>, b: seq<T>, c: seq<T>)
    ensures (a + b) + c == a + (b + c)
  {
  }
}
