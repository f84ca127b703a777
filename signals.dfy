/** The rule-based reading of the latest indicator row: an RSI band, a
    short-term moving-average cross and a MACD cross, each decided from its
    own columns only. */
module Signals {
  import opened Wrappers
  import opened Frames

  /** Above this RSI the market is overbought. */
  const OverboughtLevel: real := 70.0
  /** Below this RSI the market is oversold. */
  const OversoldLevel: real := 30.0

  datatype RsiState = Overbought | Oversold | Neutral

  /** What is reported for RSI(14): its value and band, or that it was not computed. */
  datatype RsiReading = NotComputed | Computed(value: real, state: RsiState)

  /** The SMA(20)/SMA(50) cross: golden (uptrend) or dead (downtrend). */
  datatype CrossState = GoldenCross | DeadCross

  /** The MACD/signal cross: buy (rising momentum) or sell (falling momentum). */
  datatype MomentumState = BuySignal | SellSignal

  /** The moving-average section: each average as read, and the cross when both are there. */
  datatype SmaReport = SmaReport(sma20: Option<real>, sma50: Option<real>, cross: Option<CrossState>)

  /** The MACD section: each line as read, and the cross when both are there. */
  datatype MacdReport = MacdReport(macdLine: Option<real>, signalLine: Option<real>, cross: Option<MomentumState>)

  /** Everything the analysis reports about the latest row. */
  datatype Report = Report(
    ticker: string,
    timestamp: nat,
    close: real,
    rsi: RsiReading,
    sma: SmaReport,
    macd: MacdReport)

  /** The RSI band of a present value: strictly above 70, strictly below 30,
      or the closed interval [30, 70] in between. */
  function RsiStateOf(rsi: real): (s: RsiState)
    ensures s == Overbought <==> rsi > OverboughtLevel
    ensures s == Oversold <==> rsi < OversoldLevel
    ensures s == Neutral <==> OversoldLevel <= rsi <= OverboughtLevel
  {
    if rsi > OverboughtLevel then Overbought
    else if rsi < OversoldLevel then Oversold
    else Neutral
  }

  /** RSI(14) as reported: absent means "not computed" and never a band. */
  function RsiReadingOf(rsi: Option<real>): (r: RsiReading)
    ensures r.NotComputed? <==> rsi.None?
    ensures r.Computed? ==> r.value == rsi.value && r.state == RsiStateOf(rsi.value)
  {
    match rsi
    case None => NotComputed
    case Some(v) => Computed(v, RsiStateOf(v))
  }

  /** Golden cross exactly when the short average is strictly above the
      long one; a tie is a dead cross. */
  function CrossOf(sma20: real, sma50: real): (c: CrossState)
    ensures c == GoldenCross <==> sma20 > sma50
    ensures c == DeadCross <==> sma20 <= sma50
  {
    if sma20 > sma50 then GoldenCross else DeadCross
  }

  /** Buy exactly when the MACD line is strictly above its signal line; a tie is a sell. */
  function MomentumOf(macdLine: real, signalLine: real): (m: MomentumState)
    ensures m == BuySignal <==> macdLine > signalLine
    ensures m == SellSignal <==> macdLine <= signalLine
  {
    if macdLine > signalLine then BuySignal else SellSignal
  }

  /** The moving-average section of the report. */
  function SmaReportOf(sma20: Option<real>, sma50: Option<real>): (r: SmaReport)
    ensures r.sma20 == sma20 && r.sma50 == sma50
    ensures r.cross.Some? <==> sma20.Some? && sma50.Some?
    ensures r.cross == Some(GoldenCross) <==> sma20.Some? && sma50.Some? && sma20.value > sma50.value
  {
    SmaReport(sma20, sma50,
      if sma20.Some? && sma50.Some? then Some(CrossOf(sma20.value, sma50.value)) else None)
  }

  /** The MACD section of the report. */
  function MacdReportOf(macdLine: Option<real>, signalLine: Option<real>): (r: MacdReport)
    ensures r.macdLine == macdLine && r.signalLine == signalLine
    ensures r.cross.Some? <==> macdLine.Some? && signalLine.Some?
    ensures r.cross == Some(BuySignal) <==> macdLine.Some? && signalLine.Some? && macdLine.value > signalLine.value
  {
    MacdReport(macdLine, signalLine,
      if macdLine.Some? && signalLine.Some? then Some(MomentumOf(macdLine.value, signalLine.value)) else None)
  }

  /** The report on one row of the enriched frame, for the given ticker. */
  function Classify(ticker: string, row: Row): (r: Report)
    ensures r.ticker == ticker && r.timestamp == row.bar.timestamp && r.close == row.bar.close
    ensures r.rsi.NotComputed? <==> row.ind.rsi14.None?
    ensures r.sma.cross.Some? <==> row.ind.sma20.Some? && row.ind.sma50.Some?
    ensures r.macd.cross.Some? <==> row.ind.macdLine.Some? && row.ind.macdSignal.Some?
    ensures r.rsi == RsiReadingOf(row.ind.rsi14)
    ensures r.sma == SmaReportOf(row.ind.sma20, row.ind.sma50)
    ensures r.macd == MacdReportOf(row.ind.macdLine, row.ind.macdSignal)
  {
    Report(
      ticker, row.bar.timestamp, row.bar.close,
      RsiReadingOf(row.ind.rsi14),
      SmaReportOf(row.ind.sma20, row.ind.sma50),
      MacdReportOf(row.ind.macdLine, row.ind.macdSignal))
  }

  /** The position of a band on the RSI scale, low to high. */
  function RsiRank(s: RsiState): nat
  {
    match s
    case Oversold => 0
    case Neutral => 1
    case Overbought => 2
  }

  /** A higher RSI never falls into a lower band, and 30 and 70 are both neutral. */
  lemma RsiBandsAreOrdered(lo: real, hi: real)
    requires lo <= hi
    ensures RsiRank(RsiStateOf(lo)) <= RsiRank(RsiStateOf(hi))
    ensures RsiStateOf(OversoldLevel) == Neutral && RsiStateOf(OverboughtLevel) == Neutral
  {
  }

  /** Swapping two distinct averages flips the cross; equal ones are dead both ways. */
  lemma CrossIsAntisymmetric(a: real, b: real)
    ensures a != b ==> CrossOf(a, b) != CrossOf(b, a)
    ensures a == b ==> CrossOf(a, b) == DeadCross
  {
  }

  /** Swapping two distinct MACD lines flips the signal; equal ones are a sell both ways. */
  lemma MomentumIsAntisymmetric(a: real, b: real)
    ensures a != b ==> MomentumOf(a, b) != MomentumOf(b, a)
    ensures a == b ==> MomentumOf(a, b) == SellSignal
  {
  }

  /** Each section of the report depends on its own columns only: two rows
      that agree on a classifier's inputs get the same section from it,
      whatever the other columns hold. */
  lemma ClassifiersAreIndependent(ticker: string, row: Row, other: Row)
    ensures row.ind.rsi14 == other.ind.rsi14 ==>
      Classify(ticker, row).rsi == Classify(ticker, other).rsi
    ensures row.ind.sma20 == other.ind.sma20 && row.ind.sma50 == other.ind.sma50 ==>
      Classify(ticker, row).sma == Classify(ticker, other).sma
    ensures row.ind.macdLine == other.ind.macdLine && row.ind.macdSignal == other.ind.macdSignal ==>
      Classify(ticker, row).macd == Classify(ticker, other).macd
  {
  }

  /** Removing any one moving average removes the cross, and the other
      average is still reported. */
  lemma MissingAverageHidesCross(sma20: Option<real>, sma50: Option<real>)
    ensures SmaReportOf(None, sma50) == SmaReport(None, sma50, None)
    ensures SmaReportOf(sma20, None) == SmaReport(sma20, None, None)
  {
  }
}
