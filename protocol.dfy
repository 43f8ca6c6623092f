/**
  The completion protocol between the watcher inside the container and the
  host-side orchestrator: the watcher prints a marker line and then one URL
  per line; the orchestrator strips the captured output, splits it into
  lines and collects the URL lines after the first marker.  Both sides also
  build storage keys from a timestamp and a uuid.
 */
module Protocol {
  import opened Wrappers
  import opened PyStrings
  import opened Timestamps
  import PyRuntime
  import Watcher
  import Utils

  /** A presigned URL as the store hands it out: it starts with `http` and holds no whitespace. */
  predicate CleanUrl(u: string) {
    StartsWith(u, PyRuntime.UrlPrefix) && HasNoSpace(u)
  }

  /** Lines the container prints before the report: no marker, no line boundary inside, no leading blank. */
  predicate PlainPrologue(before: seq<string>) {
    (forall k :: 0 <= k < |before| ==> !PyRuntime.IsMarkerLine(before[k]))
    && (forall k, j :: 0 <= k < |before| && 0 <= j < |before[k]| ==> !IsLineBreak(before[k][j]))
    && (before == [] || (before[0] != "" && !IsSpace(before[0][0])))
  }

  /** Both programs use the same marker text. */
  lemma SameMarker()
    ensures Watcher.ReportMarker == PyRuntime.Marker
  {
  }

  /** The marker line is printable text: no whitespace at its ends and no line boundary inside. */
  lemma MarkerIsOneLine()
    ensures forall j :: 0 <= j < |PyRuntime.Marker| ==> !IsLineBreak(PyRuntime.Marker[j])
    ensures PyRuntime.Marker[0] == '=' && PyRuntime.Marker[|PyRuntime.Marker| - 1] == '='
  {
    var m := PyRuntime.Marker;
    assert forall j :: 0 <= j < |m| ==> ' ' <= m[j] <= 'z';
  }

  /** A clean URL is a one-line, non-empty text that neither starts nor ends with whitespace. */
  lemma CleanUrlIsOneLine(u: string)
    requires CleanUrl(u)
    ensures u != "" && !IsSpace(u[0]) && !IsSpace(u[|u| - 1])
    ensures forall j :: 0 <= j < |u| ==> !IsLineBreak(u[j])
  {
    assert u[..4] == "http";
    forall j | 0 <= j < |u|
      ensures !IsLineBreak(u[j])
    {
      LineBreakIsSpace(u[j]);
    }
  }

  /** The lines of a printed report after a plain prologue are one-line texts with printable ends. */
  lemma ReportLinesPrintable(before: seq<string>, listed: seq<string>)
    requires PlainPrologue(before)
    requires forall k :: 0 <= k < |listed| ==> CleanUrl(listed[k])
    ensures var lines := before + [PyRuntime.Marker] + listed;
      && (forall k, j :: 0 <= k < |lines| && 0 <= j < |lines[k]| ==> !IsLineBreak(lines[k][j]))
      && lines[0] != "" && !IsSpace(lines[0][0])
      && lines[|lines| - 1] != "" && !IsSpace(lines[|lines| - 1][|lines[|lines| - 1]| - 1])
  {
    var lines := before + [PyRuntime.Marker] + listed;
    MarkerIsOneLine();
    forall k, j | 0 <= k < |lines| && 0 <= j < |lines[k]|
      ensures !IsLineBreak(lines[k][j])
    {
      if k > |before| {
        assert lines[k] == listed[k - |before| - 1];
        CleanUrlIsOneLine(lines[k]);
      } else if k == |before| {
        assert lines[k] == PyRuntime.Marker;
      } else {
        assert lines[k] == before[k];
      }
    }
    if before == [] {
      assert lines[0] == PyRuntime.Marker;
    } else {
      assert lines[0] == before[0];
    }
    var last := lines[|lines| - 1];
    if listed == [] {
      assert last == PyRuntime.Marker;
    } else {
      assert last == listed[|listed| - 1];
      CleanUrlIsOneLine(last);
    }
  }

  /**
    Whatever plain lines the container printed first, a printed marker
    followed by clean URLs, read back by `exec_py_runtime`, yields the
    `", "`-join of those URLs in the printed order.
   */
  lemma PrintedUrlsReadBack(before: seq<string>, listed: seq<string>)
    requires PlainPrologue(before)
    requires forall k :: 0 <= k < |listed| ==> CleanUrl(listed[k])
    ensures PyRuntime.UrlsReturned(Printed(before + [PyRuntime.Marker] + listed)) == Join(PyRuntime.UrlSeparator, listed)
  {
    ReportLinesPrintable(before, listed);
    PrintedRoundTrip(before + [PyRuntime.Marker] + listed);
    PyRuntime.ReportBlockParsesBack(before, listed);
  }

  /** The composition: the watcher's report of a set of clean URLs is read back as those URLs in report order. */
  lemma ReportReadBack(before: seq<string>, report: seq<string>, urls: set<string>)
    requires PlainPrologue(before)
    requires Watcher.IsReport(report, urls)
    requires forall u :: u in urls ==> CleanUrl(u)
    ensures PyRuntime.UrlsReturned(Printed(before + report)) == Join(PyRuntime.UrlSeparator, report[1..])
  {
    var listed := report[1..];
    assert report == [PyRuntime.Marker] + listed;
    forall k | 0 <= k < |listed|
      ensures CleanUrl(listed[k])
    {
      assert listed[k] in urls;
    }
    assert before + report == before + [PyRuntime.Marker] + listed;
    PrintedUrlsReadBack(before, listed);
  }

  /**
    End to end: when staging, both checks and the container succeed, and the
    container printed the watcher's report after its own plain lines, the
    orchestrator returns exactly the URLs the watcher stored, each once.
   */
  lemma EndToEnd(o: PyRuntime.Oracle, image: string, before: seq<string>, report: seq<string>, urls: set<string>)
    requires o.staging.Staged?
    requires o.version.Completed? && o.version.returncode == 0
    requires o.inspect.Completed? && o.inspect.returncode == 0
    requires o.run.Completed? && o.run.returncode == 0 && o.run.stdout == Printed(before + report)
    requires PlainPrologue(before)
    requires Watcher.IsReport(report, urls)
    requires forall u :: u in urls ==> CleanUrl(u)
    ensures PyRuntime.ExecOutcome(o, image) == Ok(Join(PyRuntime.UrlSeparator, report[1..]))
    ensures |report[1..]| == |urls| && forall u :: u in urls <==> u in report[1..]
  {
    ReportReadBack(before, report, urls);
  }

  /**
    The watcher's key for a dotted extension is the host's key for the same
    extension without its dot: the two generators agree on the layout.
   */
  lemma WatcherKeyMatchesHostKey(now: DateTime, uid: string, ext: string)
    requires Valid(now)
    ensures Watcher.WatcherKey(now, uid, "." + ext) == Utils.UniqueObjectKey(now, uid, ext)
  {
    assert Timestamp(now) + "_" + uid + ("." + ext) == Timestamp(now) + "_" + uid + "." + ext;
  }
}
