# Technical-analysis CLI: classification and run outcome

This project models the decision logic of `analyze.py`, a command-line tool
that downloads a ticker's price history, appends RSI(14), SMA(20), SMA(50)
and MACD(12, 26, 9) columns, and reports on the most recent row:

- the **RSI band**: overbought above 70, oversold below 30, neutral on the
  closed interval [30, 70], or "not computed" when the value is absent;
- the **moving-average cross**: golden when SMA(20) is strictly above
  SMA(50), dead otherwise (a tie is dead), given only when both are present;
- the **MACD cross**: buy when the MACD line is strictly above its signal
  line, sell otherwise (a tie is a sell), given only when both are present;
- the **run outcome**: an empty download raises, a download or indicator
  exception makes the run return false, a failing CSV export does not, and
  the entry point upper-cases the ticker and exits with 0 on success and 1
  on failure.

An absent value (NaN or a missing column) is `None` of `Wrappers.Option`;
indicator values are `real`, since the thresholds are plain comparisons.
Module `Frames` holds the bars, the indicator columns and the latest row;
`Signals` the three classifiers; `Analyze` the download step, the run and
the entry point.

The three collaborators are parameters of `Analyze.AnalyzeStock`: the
market-data provider (`Provider`, a function of ticker, period and interval),
the indicator library (`Engine`, a function of the bars returning the
appended columns or an exception) and the file system (`Writer`, which says
whether the CSV could be written). Appended columns line up with the bars
by position; a bar without an entry reads as all-absent, as index alignment
does when a column is appended.

`analyze.py` prints no aggregate bullish/bearish verdict, computes no
PER/PBR/ROE ratios and does no column normalisation, so none of these is
part of the model. The cross states it reports are golden/dead cross and
buy/sell signal.

## Model

| member | source | states |
|---|---|---|
| Signals.RsiStateOf | analyze.py:110-115 | overbought iff RSI > 70, oversold iff RSI < 30, neutral iff 30 <= RSI <= 70 (exactly one holds) |
| Signals.RsiReadingOf | analyze.py:107-117 | an absent RSI is "not computed" and carries no band; a present one carries its value and its band |
| Signals.CrossOf | analyze.py:131-134 | golden cross iff sma20 > sma50, dead cross iff sma20 <= sma50 |
| Signals.SmaReportOf | analyze.py:119-134 | both averages are reported as read; a cross exists iff both are present, and it is golden iff sma20 > sma50 |
| Signals.MomentumOf | analyze.py:148-151 | buy iff macd > signal, sell iff macd <= signal |
| Signals.MacdReportOf | analyze.py:136-151 | both lines are reported as read; a cross exists iff both are present, and it is buy iff macd > signal |
| Signals.RsiBandsAreOrdered | analyze.py:110-115 | a higher RSI never lands in a lower band; 30 and 70 are neutral |
| Signals.CrossIsAntisymmetric | analyze.py:131-134 | swapping distinct averages flips the cross; equal averages give a dead cross |
| Signals.MomentumIsAntisymmetric | analyze.py:148-151 | swapping distinct lines flips the signal; equal lines give a sell |
| Signals.ClassifiersAreIndependent | analyze.py:107-151 | rows that agree on one classifier's inputs get the same section from it, whatever the other columns hold |
| Signals.MissingAverageHidesCross | analyze.py:122-130 | with either average absent there is no cross, and the other average is still reported |
| Frames.Enrich | analyze.py:54-58 | appending indicator columns keeps every bar, in order, and row i carries the i-th appended entry, or all-absent values when there is none |
| Frames.Latest | analyze.py:95 | the last row of the frame (see LatestOfAppended) |
| Frames.LatestOfAppended | analyze.py:95 | a newly appended row is the latest one |
| Analyze.DownloadStockData | analyze.py:43-48 | succeeds iff the provider returns a non-empty table, and then returns it; an empty table is the error naming the ticker, a provider exception is `UnexpectedFault` |
| Analyze.ExportOf | analyze.py:153-158 | no export for an absent or empty path; otherwise saved iff the writer succeeds, and the status names the path |
| Analyze.AnalyzeStock | analyze.py:80-160 | completes iff the download is non-empty and the indicators are computed; the report names the ticker, the date and the close of the last bar |
| Signals.Classify | analyze.py:95-151 | the report names the ticker, date and close of the row, and its three sections are RsiReadingOf, SmaReportOf and MacdReportOf of the row's own columns, so it carries their band and direction iffs; RSI is not computed iff absent; each cross exists iff both its inputs are present (per-section independence in ClassifiersAreIndependent, the choice of row in Analyze.ReportIsOfLatestRow) |
| Analyze.SucceedsIff | analyze.py:80-160 | the returned bool is true iff the provider's table is non-empty and the indicators were computed; false on every other path (the single paths in EmptyDownloadFails, ProviderFaultFails, IndicatorFaultFails) |
| Analyze.ExitCode | analyze.py:198 | exit code 0 iff success, 1 iff failure |
| Analyze.UpperChar | analyze.py:196 | the result is never an ASCII lower-case letter; a-z map to A-Z at the same offset; other characters are unchanged |
| Analyze.Upper | analyze.py:196 | same length, every character upper-cased position by position |
| Analyze.RunMain | analyze.py:195-198 | 0 iff the analysis of the upper-cased ticker succeeds, otherwise 1 |
| Analyze.EmptyDownloadFails | analyze.py:44-47 | an empty table fails the run with the no-data error for that ticker, whatever the indicator library would do |
| Analyze.ProviderFaultFails | analyze.py:80-87 | a provider exception fails the run |
| Analyze.IndicatorFaultFails | analyze.py:89-93 | an indicator exception after a good download fails the run |
| Analyze.ReportIsOfLatestRow | analyze.py:95-151 | the report is the classification of the last bar with its appended columns |
| Analyze.ExportDoesNotAffectOutcome | analyze.py:153-160 | the export path and the writer's success change neither the outcome nor the report |
| Analyze.UpperIsIdempotent | analyze.py:196 | upper-casing twice equals upper-casing once |
| Analyze.MainIgnoresTickerCase | analyze.py:195-198 | tickers equal up to letter case give the same exit code |
| Analyze.MainOnUpperTicker | analyze.py:195-198 | upper-casing the argument beforehand changes nothing |

## Left out

- `compute_indicators` (analyze.py:51-59): the RSI, MACD and SMA arithmetic happens inside the `pandas_ta` library, which is not part of this model; its output is the `Engine` parameter.
- `yf.download` (analyze.py:43): network retrieval; its reply is the `Provider` parameter.
- `to_csv` (analyze.py:155): file output; only its success or failure is kept, as the `Writer` parameter.
- Console output and `format_float` (analyze.py:62-65 and every `print`): the model keeps the chosen states and values, not the printed Korean text, emojis or two-decimal formatting.
- `build_argument_parser` (analyze.py:163-186): argument parsing; the parsed arguments are `Analyze.Args`, with the defaults "1y" and "1d" left to the caller.
- Floating point: values are mathematical reals, so NaN is modelled only as "absent" and infinities are not modelled.
- `PriceBar` keeps only the date and the close; open, high, low and volume are not read by the modelled logic.
- Upper: maps only ASCII a-z to A-Z. Python's `str.upper` also maps other lower-case letters and can lengthen a string (for example 'ß' to 'SS').
- UpperChar: maps only ASCII a-z to A-Z; other lower-case letters (for example 'é', which Python maps to 'É') are returned unchanged.
- The two download error values `NoData` and `UnexpectedFault` tell an empty table from a provider exception; they do not stand for the two exception handlers of analyze.py:82-87, which are chosen by exception type (a `ValueError` raised inside the provider goes to the first). Both handlers return false, and the model keeps only that.
- The reporting lines analyze.py:95-151 run outside every `try`: in the source, a table without a date index (line 100), without a Close column or with a multi-level header that makes Close a column group (line 104) raises there, and the exception escapes `analyze_stock` and `main` with no exit code. The model assumes every provider table has a date index and a numeric, non-NaN Close (the `PriceBar` type), so `AnalyzeStock` and `RunMain` do not capture these uncaught faults.
