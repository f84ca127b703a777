/** The price history and the indicator frame built on top of it. */
module Frames {
  import opened Wrappers

  /** One row of the downloaded history. Only the fields the analysis reads
      are kept: the row's date (as an opaque ordinal) and its close. */
  datatype PriceBar = PriceBar(timestamp: nat, close: real)

  /** The indicator columns of one row: RSI_14, SMA_20, SMA_50,
      MACD_12_26_9 and MACDs_12_26_9. Each may be absent. */
  datatype Indicators = Indicators(
    rsi14: Option<real>,
    sma20: Option<real>,
    sma50: Option<real>,
    macdLine: Option<real>,
    macdSignal: Option<real>)

  /** A row where no indicator column has a value. */
  const NoIndicators := Indicators(None, None, None, None, None)

  /** A row of the enriched frame: the bar and the columns appended to it. */
  datatype Row = Row(bar: PriceBar, ind: Indicators)

  /** Appending indicator columns to the history keeps its rows; a row for
      which the indicator library produced nothing reads as all absent. */
  function Enrich(bars: seq<PriceBar>, columns: seq<Indicators>): (rows: seq<Row>)
    ensures |rows| == |bars|
    ensures forall i :: 0 <= i < |rows| ==> rows[i].bar == bars[i]
    ensures forall i :: 0 <= i < |rows| ==>
      rows[i].ind == (if i < |columns| then columns[i] else NoIndicators)
  {
    seq(|bars|, i requires 0 <= i < |bars| =>
      Row(bars[i], if i < |columns| then columns[i] else NoIndicators))
  }

  /** The most recent row, what `iloc[-1]` selects. */
  function Latest<T>(rows: seq<T>): (r: T)
    requires |rows| > 0
    ensures r in rows
  {
    rows[|rows| - 1]
  }

  /** Whatever came before, a newly appended row becomes the latest one. */
  lemma LatestOfAppended<T>(rows: seq<T>, row: T)
    ensures Latest(rows + [row]) == row
  {
  }
}
