/**
  `generate_plot`: download a workbook, read it into a data frame, pick the
  plotting function from the plot type, check the columns it needs, draw and
  upload the PNG.  The drawing itself (pandas, seaborn, matplotlib) is an
  input; the model keeps which chart is asked for, with which columns and
  which title, and every error text.
 */
module GeneratePlot {
  import opened Wrappers
  import opened Exceptions
  import opened PyStrings
  import opened Timestamps
  import opened ObjectStore
  import Utils

  /** The request: the optional fields are `None` when the caller leaves them out. */
  datatype PlotInput = PlotInput(
    fileUrl: string, plotType: string,
    xColumn: Option<string>, yColumn: Option<string>, title: Option<string>)

  datatype PlotType = Scatter | Line | Bar | Histogram | Heatmap | Boxplot

  /** `PLOT_TYPE_MAP`, keyed on the lower-cased plot type. */
  const PlotTypeMap: map<string, PlotType> := map[
    "scatter" := Scatter,
    "line" := Line,
    "bar" := Bar,
    "histogram" := Histogram,
    "heatmap" := Heatmap,
    "boxplot" := Boxplot
  ]

  const TopPrefix := "Plot generation failed: "
  const UnsupportedPrefix := "Unsupported plot type: "
  const BothColumnsRequired := "x_column and y_column are required for "
  const YColumnRequired := "y_column is required for "
  const PlotExtension := "png"
  const HeatmapDefaultTitle := "Correlation Heatmap"
  const BarDefaultTitle := "Bar Plot"

  /** Python truthiness of an optional text: present and non-empty. */
  predicate Given(field: Option<string>) {
    field.Some? && field.value != ""
  }

  /** The seaborn call a plotting function makes, with the arguments that come from the request. */
  datatype Chart =
    | ScatterPlot(x: string, y: string)
    | LinePlot(x: string, y: string)
    | BarPlot(x: string, y: string)
    | HistPlot(x: string, kde: bool)
    | CorrelationHeatmap(annot: bool, cmap: string, fmt: string)
    | BoxPlot(group: Option<string>, y: string)

  /** One figure: its size in inches, the chart on it, the title set on it and the x-tick rotation. */
  datatype Figure = Figure(width: int, height: int, chart: Chart, title: Option<string>, xTickRotation: int)

  /** The title the plotting functions other than heatmap and bar set: only a non-empty one. */
  function OptionalTitle(input: PlotInput): Option<string> {
    if Given(input.title) then input.title else None
  }

  /** `input_data.title or default`. */
  function TitleOr(input: PlotInput, default: string): string {
    if Given(input.title) then input.title.value else default
  }

  /**
    The plotting function for `t` up to drawing: its column check and the
    figure it asks for.  The column checks raise `ValueError` with the
    function's own message.
   */
  function Draw(t: PlotType, input: PlotInput): Result<Figure, Exception> {
    match t
    case Scatter =>
      if !Given(input.xColumn) || !Given(input.yColumn) then
        Err(ValueError(BothColumnsRequired + "scatter plot"))
      else Ok(Figure(8, 6, ScatterPlot(input.xColumn.value, input.yColumn.value), OptionalTitle(input), 0))
    case Line =>
      if !Given(input.xColumn) || !Given(input.yColumn) then
        Err(ValueError(BothColumnsRequired + "line plot"))
      else Ok(Figure(8, 6, LinePlot(input.xColumn.value, input.yColumn.value), OptionalTitle(input), 0))
    case Bar =>
      if !Given(input.xColumn) || !Given(input.yColumn) then
        Err(ValueError(BothColumnsRequired + "bar plot."))
      else Ok(Figure(10, 6, BarPlot(input.xColumn.value, input.yColumn.value),
                     Some(TitleOr(input, BarDefaultTitle)), 45))
    case Histogram =>
      if !Given(input.yColumn) then Err(ValueError(YColumnRequired + "histogram plot"))
      else Ok(Figure(8, 6, HistPlot(input.yColumn.value, true), OptionalTitle(input), 0))
    case Heatmap =>
      Ok(Figure(10, 8, CorrelationHeatmap(true, "coolwarm", ".2f"),
                Some(TitleOr(input, HeatmapDefaultTitle)), 0))
    case Boxplot =>
      if !Given(input.yColumn) then Err(ValueError(YColumnRequired + "boxplot"))
      else
        var group := if Given(input.xColumn) then input.xColumn else None;
        Ok(Figure(8, 6, BoxPlot(group, input.yColumn.value), OptionalTitle(input), 0))
  }

  /** A data frame as read from the workbook: its column names and cell texts. */
  datatype Frame = Frame(columns: seq<string>, rows: seq<seq<string>>)

  /**
    What the outside world delivers: the download, `pd.read_excel` on the
    downloaded bytes (a frame or the exception text), and the PNG bytes the
    plotting libraries write for a frame and a figure, or their exception
    text (an unknown column name, say).
   */
  datatype Sources = Sources(
    download: Result<seq<byte>, string>,
    read: seq<byte> -> Result<Frame, string>,
    render: (Frame, Figure) -> Result<seq<byte>, string>)

  /** What one call did: the figure drawn (if any), the storage requests made, and the result. */
  datatype Run = Run(drawn: Option<Figure>, requests: seq<Call>, result: Result<string, Exception>)

  function Fail(m: string): Run {
    Run(None, [], Err(RuntimeError(TopPrefix + m)))
  }

  /**
    `generate_plot`.  The plot type is looked up only after the file is
    downloaded and read; every failure, the upload's included, is re-raised
    as a `RuntimeError` starting with `Plot generation failed: `.
   */
  function GeneratePlot(input: PlotInput, bucket: string, now: DateTime, uid: string,
                        src: Sources, replies: UploadReplies): Run
    requires Valid(now)
  {
    match src.download
    case Err(m) => Fail(m)
    case Ok(bytes) =>
      match src.read(bytes)
      case Err(m) => Fail(m)
      case Ok(frame) =>
        var name := Lower(input.plotType);
        if name !in PlotTypeMap then Fail(UnsupportedPrefix + input.plotType)
        else
          match Draw(PlotTypeMap[name], input)
          case Err(e) => Fail(e.msg)
          case Ok(figure) =>
            match src.render(frame, figure)
            case Err(m) => Run(Some(figure), [], Err(RuntimeError(TopPrefix + m)))
            case Ok(png) =>
              var key := Utils.UniqueObjectKey(now, uid, PlotExtension);
              var calls := Utils.UploadCalls(bucket, key, png, Utils.DefaultContentType, Utils.DefaultExpirySeconds, replies);
              match Utils.UploadOutcome(replies)
              case Err(e) => Run(Some(figure), calls, Err(RuntimeError(TopPrefix + e.msg)))
              case Ok(url) => Run(Some(figure), calls, Ok(url))
  }

  // ---------------------------------------------------------------------------
  // Facts
  // ---------------------------------------------------------------------------

  /**
    The plot type is matched case-insensitively against exactly six names;
    a leading dot is not stripped, and `pairplot`, though documented, is not
    one of them.
   */
  lemma SupportedPlotTypes(plotType: string)
    ensures Lower(plotType) in PlotTypeMap <==>
      Lower(plotType) in {"scatter", "line", "bar", "histogram", "heatmap", "boxplot"}
    ensures Lower(plotType) in PlotTypeMap <==> Lower(Lower(plotType)) in PlotTypeMap
    ensures Lower(plotType) == "pairplot" ==> Lower(plotType) !in PlotTypeMap
    ensures StartsWith(plotType, ".") ==> Lower(plotType) !in PlotTypeMap
  {
    LowerIdempotent(plotType);
    if StartsWith(plotType, ".") {
      LowerSpec(plotType);
      assert Lower(plotType)[0] == '.';
    }
  }

  /**
    Which requests pass the column check: scatter, line and bar need both
    columns non-empty, histogram and boxplot need a non-empty `y_column`,
    heatmap needs nothing; a failed check is a `ValueError`.
   */
  lemma ColumnRequirements(t: PlotType, input: PlotInput)
    ensures Draw(t, input).Err? <==>
      || (t in {Scatter, Line, Bar} && (!Given(input.xColumn) || !Given(input.yColumn)))
      || (t in {Histogram, Boxplot} && !Given(input.yColumn))
    ensures Draw(t, input).Err? ==> Draw(t, input).error.ValueError?
    ensures Draw(t, input).Err? && t in {Scatter, Line, Bar} ==>
      StartsWith(Draw(t, input).error.msg, BothColumnsRequired)
    ensures Draw(t, input).Err? && t in {Histogram, Boxplot} ==>
      StartsWith(Draw(t, input).error.msg, YColumnRequired)
  {
    var r := Draw(t, input);
    if r.Err? {
      var prefix := if t in {Scatter, Line, Bar} then BothColumnsRequired else YColumnRequired;
      var what := match t
        case Scatter => "scatter plot"
        case Line => "line plot"
        case Bar => "bar plot."
        case Histogram => "histogram plot"
        case _ => "boxplot";
      assert r.error.msg == prefix + what;
      assert (prefix + what)[..|prefix|] == prefix;
    }
  }

  /** The heatmap draws the correlation of the numeric columns, whatever columns the request names. */
  lemma HeatmapIgnoresColumns(input: PlotInput, x: Option<string>, y: Option<string>)
    ensures Draw(Heatmap, input) == Draw(Heatmap, input.(xColumn := x, yColumn := y))
    ensures Draw(Heatmap, input).Ok? && Draw(Heatmap, input).value.chart.CorrelationHeatmap?
  {
  }

  /**
    The columns reach the chart as given: a histogram of `y_column` on the
    x-axis, a boxplot of `y_column` grouped by `x_column` only when that is
    non-empty, and `x_column` against `y_column` for the other two-column plots.
   */
  lemma ColumnsUsed(t: PlotType, input: PlotInput)
    requires Draw(t, input).Ok?
    ensures var c := Draw(t, input).value.chart;
      && (t == Histogram ==> c == HistPlot(input.yColumn.value, true))
      && (t == Boxplot ==> c == BoxPlot(if Given(input.xColumn) then Some(input.xColumn.value) else None, input.yColumn.value))
      && (t in {Scatter, Line, Bar} ==> c.x == input.xColumn.value && c.y == input.yColumn.value)
      && (t != Heatmap ==> Given(input.yColumn))
  {
  }

  /**
    The title set on a drawn figure: the request's if it is non-empty;
    otherwise `Correlation Heatmap` for heatmap, `Bar Plot` for bar, and no
    title at all for the other four.
   */
  lemma TitleRule(t: PlotType, input: PlotInput)
    requires Draw(t, input).Ok?
    ensures Draw(t, input).value.title ==
      if Given(input.title) then Some(input.title.value)
      else if t == Heatmap then Some(HeatmapDefaultTitle)
      else if t == Bar then Some(BarDefaultTitle)
      else None
  {
  }

  /**
    The plot type is checked after the download and the read: a failing
    download is reported even for an unsupported type, and nothing is drawn
    or stored.
   */
  lemma DownloadFailsFirst(input: PlotInput, bucket: string, now: DateTime, uid: string,
                           src: Sources, replies: UploadReplies)
    requires Valid(now)
    requires src.download.Err?
    ensures GeneratePlot(input, bucket, now, uid, src, replies)
      == Run(None, [], Err(RuntimeError(TopPrefix + src.download.error)))
  {
  }

  /** An unsupported plot type, once the file is read, is reported in the caller's own spelling. */
  lemma UnsupportedPlotType(input: PlotInput, bucket: string, now: DateTime, uid: string,
                            src: Sources, replies: UploadReplies)
    requires Valid(now)
    requires src.download.Ok? && src.read(src.download.value).Ok?
    requires Lower(input.plotType) !in PlotTypeMap
    ensures GeneratePlot(input, bucket, now, uid, src, replies)
      == Run(None, [], Err(RuntimeError(TopPrefix + UnsupportedPrefix + input.plotType)))
  {
    assert TopPrefix + (UnsupportedPrefix + input.plotType) == TopPrefix + UnsupportedPrefix + input.plotType;
  }

  /** `generate_plot` only ever fails with a `RuntimeError` that starts with its own prefix. */
  lemma FailuresAreRuntimeErrors(input: PlotInput, bucket: string, now: DateTime, uid: string,
                                 src: Sources, replies: UploadReplies)
    requires Valid(now)
    ensures var r := GeneratePlot(input, bucket, now, uid, src, replies).result;
      r.Err? ==> r.error.RuntimeError? && StartsWith(r.error.msg, TopPrefix)
  {
    var r := GeneratePlot(input, bucket, now, uid, src, replies).result;
    if r.Err? {
      var name := Lower(input.plotType);
      var m :=
        if src.download.Err? then src.download.error
        else if src.read(src.download.value).Err? then src.read(src.download.value).error
        else if name !in PlotTypeMap then UnsupportedPrefix + input.plotType
        else if Draw(PlotTypeMap[name], input).Err? then Draw(PlotTypeMap[name], input).error.msg
        else if src.render(src.read(src.download.value).value, Draw(PlotTypeMap[name], input).value).Err? then
          src.render(src.read(src.download.value).value, Draw(PlotTypeMap[name], input).value).error
        else Utils.UploadOutcome(replies).error.msg;
      assert r.error == RuntimeError(TopPrefix + m);
      assert (TopPrefix + m)[..|TopPrefix|] == TopPrefix;
    }
  }

  /**
    Something is stored exactly when the figure was drawn and rendered, and
    then the PNG bytes go under a key ending in `.png`.
   */
  lemma SuccessStoresPng(input: PlotInput, bucket: string, now: DateTime, uid: string,
                         src: Sources, replies: UploadReplies)
    requires Valid(now)
    ensures var run := GeneratePlot(input, bucket, now, uid, src, replies);
      && (run.requests != [] <==>
            run.drawn.Some? && src.render(src.read(src.download.value).value, run.drawn.value).Ok?)
      && (run.requests != [] ==>
            && run.requests[0] == Call.PutObject(bucket, Utils.UniqueObjectKey(now, uid, PlotExtension),
                                                 src.render(src.read(src.download.value).value, run.drawn.value).value,
                                                 Utils.DefaultContentType)
            && EndsWith(run.requests[0].key, ".png"))
  {
  }

  /**
    The figure drawn is the one the plotting function for the lower-cased
    type asks for, and the call succeeds exactly when something was stored
    and the upload returned a URL, which is then the result.
   */
  lemma ResultIsUploadUrl(input: PlotInput, bucket: string, now: DateTime, uid: string,
                          src: Sources, replies: UploadReplies)
    requires Valid(now)
    ensures var run := GeneratePlot(input, bucket, now, uid, src, replies);
      && (run.drawn.Some? ==> run.drawn == Some(Draw(PlotTypeMap[Lower(input.plotType)], input).value))
      && (run.result.Ok? <==> run.requests != [] && Utils.UploadOutcome(replies).Ok?)
      && (run.result.Ok? ==> run.result.value == replies.presign.url)
  {
  }
}
