/** The command-line run: download the history, append the indicators,
    report on the latest row, optionally export, and map the outcome to an
    exit code. The market-data provider, the indicator library and the file
    system are parameters. */
module Analyze {
  import opened Wrappers
  import opened Frames
  import opened Signals

  /** What the market-data provider hands back for (ticker, period, interval):
      a table of bars (possibly empty), or an exception of its own. */
  datatype DownloadReply = Table(bars: seq<PriceBar>) | ProviderFault

  /** Why the download step failed: the provider returned an empty table
      (the step then raises its own error naming the ticker), or the provider
      itself raised. */
  datatype DownloadError = NoData(ticker: string) | UnexpectedFault

  /** What the indicator library hands back: the appended columns, one entry
      per row, or an exception. */
  datatype IndicatorReply = Appended(columns: seq<Indicators>) | IndicatorFault

  /** Why a run reported failure. */
  datatype Failure = DownloadFailed(error: DownloadError) | IndicatorsFailed

  /** What became of the CSV export. */
  datatype ExportStatus = NotRequested | Saved(path: string) | SaveFailed(path: string)

  /** A run that stopped early, or one that reached the report. */
  datatype Analysis = Failed(failure: Failure) | Completed(report: Report, exported: ExportStatus)

  /** The parsed command line. */
  datatype Args = Args(ticker: string, period: string, interval: string, exportPath: Option<string>)

  type Provider = (string, string, string) -> DownloadReply
  type Engine = seq<PriceBar> -> IndicatorReply
  /** Writes the enriched frame to a path; false when the file system refuses. */
  type Writer = (seq<Row>, string) -> bool

  /** The download step: an empty table is an error naming the ticker, a
      provider exception passes through, anything else is returned as is. */
  function DownloadStockData(ticker: string, period: string, interval: string, provider: Provider)
    : (r: Result<seq<PriceBar>, DownloadError>)
    ensures r.Ok? <==> provider(ticker, period, interval).Table? && |provider(ticker, period, interval).bars| > 0
    ensures r.Ok? ==> r.value == provider(ticker, period, interval).bars && |r.value| > 0
    ensures r == Err(NoData(ticker)) <==> provider(ticker, period, interval) == Table([])
    ensures provider(ticker, period, interval).ProviderFault? ==> r == Err(UnexpectedFault)
  {
    match provider(ticker, period, interval)
    case ProviderFault => Err(UnexpectedFault)
    case Table(bars) => if |bars| == 0 then Err(NoData(ticker)) else Ok(bars)
  }

  /** The export step: nothing for an absent or empty path, otherwise the
      writer's verdict. */
  function ExportOf(exportPath: Option<string>, rows: seq<Row>, writer: Writer): (e: ExportStatus)
    ensures e.NotRequested? <==> exportPath.None? || exportPath.value == ""
    ensures e.Saved? <==> exportPath.Some? && exportPath.value != "" && writer(rows, exportPath.value)
    ensures !e.NotRequested? ==> e.path == exportPath.value
  {
    match exportPath
    case None => NotRequested
    case Some(path) =>
      if path == "" then NotRequested
      else if writer(rows, path) then Saved(path) else SaveFailed(path)
  }

  /** One analysis run for a ticker. */
  function AnalyzeStock(ticker: string, period: string, interval: string, exportPath: Option<string>,
                        provider: Provider, engine: Engine, writer: Writer): (a: Analysis)
    ensures var reply := provider(ticker, period, interval);
      a.Completed? <==> reply.Table? && |reply.bars| > 0 && engine(reply.bars).Appended?
    ensures a.Completed? ==>
      var bars := provider(ticker, period, interval).bars;
      |bars| > 0 &&
      a.report.ticker == ticker &&
      a.report.timestamp == Latest(bars).timestamp &&
      a.report.close == Latest(bars).close
  {
    match DownloadStockData(ticker, period, interval, provider)
    case Err(e) => Failed(DownloadFailed(e))
    case Ok(bars) =>
      match engine(bars)
      case IndicatorFault => Failed(IndicatorsFailed)
      case Appended(columns) =>
        var enriched := Enrich(bars, columns);
        Completed(Classify(ticker, Latest(enriched)), ExportOf(exportPath, enriched, writer))
  }

  /** The boolean that the run returns. */
  predicate Succeeded(a: Analysis)
  {
    a.Completed?
  }

  /** 0 on success, 1 on failure. */
  function ExitCode(success: bool): (code: int)
    ensures code == 0 <==> success
    ensures code == 1 <==> !success
  {
    if success then 0 else 1
  }

  /** A letter a-z, the characters the model upper-cases. */
  predicate IsAsciiLower(c: char)
  {
    'a' <= c <= 'z'
  }

  /** The upper-case form of one character. */
  function UpperChar(c: char): (u: char)
    ensures !IsAsciiLower(u)
    ensures IsAsciiLower(c) ==> 'A' <= u <= 'Z' && u as int - 'A' as int == c as int - 'a' as int
    ensures !IsAsciiLower(c) ==> u == c
  {
    if IsAsciiLower(c) then (c as int - 'a' as int + 'A' as int) as char else c
  }

  /** The upper-case form of a ticker, character by character. */
  function Upper(s: string): (u: string)
    ensures |u| == |s|
    ensures forall i :: 0 <= i < |s| ==> u[i] == UpperChar(s[i])
  {
    if s == [] then [] else [UpperChar(s[0])] + Upper(s[1..])
  }

  /** The entry point: analyse the upper-cased ticker and turn the outcome into an exit code. */
  function RunMain(args: Args, provider: Provider, engine: Engine, writer: Writer): (code: int)
    ensures code == 0 <==>
      Succeeded(AnalyzeStock(Upper(args.ticker), args.period, args.interval, args.exportPath, provider, engine, writer))
    ensures code == 0 || code == 1
  {
    ExitCode(Succeeded(AnalyzeStock(Upper(args.ticker), args.period, args.interval, args.exportPath,
                                    provider, engine, writer)))
  }

  // ----- Properties of a run -----

  /** An empty download fails the run with the error naming the ticker, and
      the indicator library is never consulted. */
  lemma EmptyDownloadFails(ticker: string, period: string, interval: string, exportPath: Option<string>,
                           provider: Provider, engine: Engine, writer: Writer)
    requires provider(ticker, period, interval) == Table([])
    ensures AnalyzeStock(ticker, period, interval, exportPath, provider, engine, writer)
      == Failed(DownloadFailed(NoData(ticker)))
  {
  }

  /** The run returns true exactly when the provider's table is non-empty
      and the indicator library computed its columns; every other path
      returns false. */
  lemma SucceedsIff(ticker: string, period: string, interval: string, exportPath: Option<string>,
                    provider: Provider, engine: Engine, writer: Writer)
    ensures var reply := provider(ticker, period, interval);
      Succeeded(AnalyzeStock(ticker, period, interval, exportPath, provider, engine, writer)) <==>
        reply.Table? && |reply.bars| > 0 && engine(reply.bars).Appended?
  {
  }

  /** A provider exception fails the run. */
  lemma ProviderFaultFails(ticker: string, period: string, interval: string, exportPath: Option<string>,
                           provider: Provider, engine: Engine, writer: Writer)
    requires provider(ticker, period, interval) == ProviderFault
    ensures AnalyzeStock(ticker, period, interval, exportPath, provider, engine, writer)
      == Failed(DownloadFailed(UnexpectedFault))
  {
  }

  /** After a good download, an indicator exception fails the run. */
  lemma IndicatorFaultFails(ticker: string, period: string, interval: string, exportPath: Option<string>,
                            provider: Provider, engine: Engine, writer: Writer)
    requires provider(ticker, period, interval).Table?
    requires |provider(ticker, period, interval).bars| > 0
    requires engine(provider(ticker, period, interval).bars) == IndicatorFault
    ensures AnalyzeStock(ticker, period, interval, exportPath, provider, engine, writer) == Failed(IndicatorsFailed)
  {
  }

  /** The report is the classification of the last enriched row. */
  lemma ReportIsOfLatestRow(ticker: string, period: string, interval: string, exportPath: Option<string>,
                            provider: Provider, engine: Engine, writer: Writer)
    requires AnalyzeStock(ticker, period, interval, exportPath, provider, engine, writer).Completed?
    ensures var bars := provider(ticker, period, interval).bars;
      var columns := engine(bars).columns;
      |bars| > 0 &&
      AnalyzeStock(ticker, period, interval, exportPath, provider, engine, writer).report
        == Classify(ticker, Row(Latest(bars), if |bars| <= |columns| then columns[|bars| - 1] else NoIndicators))
  {
  }

  /** Whether and where the export is attempted, and whether it fails, never
      changes the outcome or the report. */
  lemma ExportDoesNotAffectOutcome(ticker: string, period: string, interval: string,
                                   path1: Option<string>, path2: Option<string>,
                                   provider: Provider, engine: Engine, writer1: Writer, writer2: Writer)
    ensures var a1 := AnalyzeStock(ticker, period, interval, path1, provider, engine, writer1);
      var a2 := AnalyzeStock(ticker, period, interval, path2, provider, engine, writer2);
      Succeeded(a1) == Succeeded(a2) && (a1.Completed? ==> a1.report == a2.report)
  {
  }

  /** Upper-casing twice is upper-casing once. Upper's position-by-position
      contract and UpperChar's already give this, so no induction is spelled out. */
  lemma UpperIsIdempotent(s: string)
    ensures Upper(Upper(s)) == Upper(s)
  {
  }

  /** Tickers that differ only in letter case give the same exit code. */
  lemma MainIgnoresTickerCase(args: Args, other: string, provider: Provider, engine: Engine, writer: Writer)
    requires Upper(other) == Upper(args.ticker)
    ensures RunMain(args.(ticker := other), provider, engine, writer) == RunMain(args, provider, engine, writer)
  {
  }

  /** Passing an already upper-cased ticker changes nothing. */
  lemma MainOnUpperTicker(args: Args, provider: Provider, engine: Engine, writer: Writer)
    ensures RunMain(args.(ticker := Upper(args.ticker)), provider, engine, writer)
      == RunMain(args, provider, engine, writer)
  {
    UpperIsIdempotent(args.ticker);
  }
}
