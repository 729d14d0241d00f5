/** The analysis glue of the dashboard: the price frame gets its EMA columns
    (in place) and its RSI column, rows with an undefined indicator are dropped,
    and the classifier reads what is left. */
module Pipeline {
  import opened Wrappers
  import opened Indicators
  import opened Signals

  /** One row of the indicator frame; the RSI is NaN (`None`) during the warm-up and on 0/0 windows. */
  datatype Row = Row(close: real, ema10: real, ema20: real, ema50: real, ema100: real, ema200: real, rsi: Option<real>)

  /** The price table the data provider returns, reduced to its `Close` column, and
      the indicator columns the analysis adds to it. An empty column is one not yet added. */
  class PriceFrame {
    var close: seq<real>
    var ema10: seq<real>
    var ema20: seq<real>
    var ema50: seq<real>
    var ema100: seq<real>
    var ema200: seq<real>
    var rsi: seq<Option<real>>

    /** Every indicator column is present, one value per bar. */
    predicate Complete()
      reads this
    {
      && |ema10| == |close| && |ema20| == |close| && |ema50| == |close|
      && |ema100| == |close| && |ema200| == |close| && |rsi| == |close|
    }

    constructor (closes: seq<real>)
      ensures close == closes
      ensures ema10 == [] && ema20 == [] && ema50 == [] && ema100 == [] && ema200 == [] && rsi == []
    {
      close := closes;
      ema10, ema20, ema50, ema100, ema200 := [], [], [], [], [];
      rsi := [];
    }

    /** compute_emas: writes the five EMA columns into this frame and nothing else. */
    method ComputeEmas()
      modifies this
      ensures close == old(close) && rsi == old(rsi)
      ensures ema10 == Ema(close, 10) && ema20 == Ema(close, 20) && ema50 == Ema(close, 50)
      ensures ema100 == Ema(close, 100) && ema200 == Ema(close, 200)
    {
      ema10 := Ema(close, 10);
      ema20 := Ema(close, 20);
      ema50 := Ema(close, 50);
      ema100 := Ema(close, 100);
      ema200 := Ema(close, 200);
    }

    /** `data["RSI"] = ...`: stores an RSI column of matching length and nothing else. */
    method SetRsi(column: seq<Option<real>>)
      requires |column| == |close|
      modifies this
      ensures rsi == column
      ensures close == old(close) && ema10 == old(ema10) && ema20 == old(ema20)
      ensures ema50 == old(ema50) && ema100 == old(ema100) && ema200 == old(ema200)
    {
      rsi := column;
    }

    /** The frame read row by row. */
    function Rows(): (rows: seq<Row>)
      reads this
      requires Complete()
      ensures |rows| == |close|
    {
      var c, e10, e20, e50, e100, e200, r := close, ema10, ema20, ema50, ema100, ema200, rsi;
      seq(|c|, i requires 0 <= i < |c| => Row(c[i], e10[i], e20[i], e50[i], e100[i], e200[i], r[i]))
    }
  }

  /** The rows the analysis builds from a closing-price series: one per close, with no
      RSI during the warm-up and every RSI in [0, 100]. */
  function IndicatorRows(closes: seq<real>): (rows: seq<Row>)
    ensures |rows| == |closes|
    ensures forall i :: 0 <= i < |rows| ==> rows[i].close == closes[i]
    ensures forall i :: 0 <= i < |rows| && i + 1 < RsiPeriod ==> rows[i].rsi == None
    ensures forall i :: 0 <= i < |rows| && rows[i].rsi.Some? ==> 0.0 <= rows[i].rsi.value <= 100.0
  {
    var e10, e20, e50, e100, e200 := Ema(closes, 10), Ema(closes, 20), Ema(closes, 50), Ema(closes, 100), Ema(closes, 200);
    var r := Rsi(closes, RsiPeriod);
    seq(|closes|, i requires 0 <= i < |closes| => Row(closes[i], e10[i], e20[i], e50[i], e100[i], e200[i], r[i]))
  }

  function ToBar(row: Row): Bar
    requires row.rsi.Some?
  {
    Bar(row.close, row.ema10, row.ema20, row.ema50, row.ema200, row.rsi.value)
  }

  /** `dropna(subset=[EMA10, EMA20, EMA50, EMA200, RSI])`: the EMA columns are never NaN,
      so exactly the rows with a defined RSI are kept, in their order. */
  function DropNa(rows: seq<Row>): (clean: seq<Bar>)
    ensures |clean| <= |rows|
  {
    if rows == [] then []
    else
      var init := DropNa(rows[..|rows| - 1]);
      var last := rows[|rows| - 1];
      if last.rsi.Some? then init + [ToBar(last)] else init
  }

  /** The three ways a run of the analysis ends: no data from the provider, too little
      data for any indicator row, or a signal. */
  datatype Analysis = NoData | NoIndicatorRows | Signalled(signal: Signal)

  /** Lines 348-366 given the downloaded closes: no data exactly when nothing was
      downloaded, no indicator row while every close is still in the RSI warm-up, and
      never the unreachable second SELL rule. */
  function AnalysisOf(closes: seq<real>): (a: Analysis)
    ensures a == NoData <==> closes == []
    ensures 0 < |closes| < RsiPeriod ==> a == NoIndicatorRows
    ensures a.Signalled? ==> a.signal != Sell(NarrowBand)
  {
    if closes == [] then NoData
    else
      var rows := IndicatorRows(closes);
      WarmUpLeavesNothing(rows);
      var clean := DropNa(rows);
      if clean == [] then NoIndicatorRows
      else
        NarrowSellRuleUnreachable(clean);
        Signalled(Classify(clean))
  }

  /** A frame that ends inside the RSI warm-up leaves no clean row. */
  lemma WarmUpLeavesNothing(rows: seq<Row>)
    requires forall i :: 0 <= i < |rows| && i + 1 < RsiPeriod ==> rows[i].rsi == None
    ensures |rows| < RsiPeriod ==> DropNa(rows) == []
  {
    if |rows| < RsiPeriod {
      DropNaAllUndefined(rows);
    }
  }

  /** The analysis as the application runs it: a frame, its EMA columns written in place,
      its RSI column, the clean rows, the classifier. */
  method Analyze(closes: seq<real>) returns (a: Analysis)
    ensures a == AnalysisOf(closes)
  {
    if closes == [] {
      return NoData;
    }
    var frame := new PriceFrame(closes);
    frame.ComputeEmas();
    frame.SetRsi(Rsi(frame.close, RsiPeriod));
    var rows := frame.Rows();
    assert rows == IndicatorRows(closes);
    var clean := DropNa(rows);
    if clean == [] {
      a := NoIndicatorRows;
    } else {
      a := Signalled(Classify(clean));
    }
  }

  // ---------------------------------------------------------------------------
  // Properties of the clean filter

  /** Filtering commutes with concatenation. */
  lemma {:induction false} DropNaAppend(a: seq<Row>, b: seq<Row>)
    ensures DropNa(a + b) == DropNa(a) + DropNa(b)
    decreases |b|
  {
    if b == [] {
      assert a + b == a;
    } else {
      var b' := b[..|b| - 1];
      assert (a + b)[..|a + b| - 1] == a + b';
      DropNaAppend(a, b');
    }
  }

  /** The number of rows whose RSI is defined. */
  function DefinedCount(rows: seq<Row>): nat {
    if rows == [] then 0
    else DefinedCount(rows[..|rows| - 1]) + (if rows[|rows| - 1].rsi.Some? then 1 else 0)
  }

  /** Rows with an undefined RSI are dropped and the others kept: the clean frame is
      exactly as long as the number of rows with a defined RSI. */
  lemma {:induction false} DropNaCount(rows: seq<Row>)
    ensures |DropNa(rows)| == DefinedCount(rows)
  {
    if rows != [] {
      DropNaCount(rows[..|rows| - 1]);
    }
  }

  /** Rows without an RSI contribute nothing to the clean frame. */
  lemma {:induction false} DropNaAllUndefined(rows: seq<Row>)
    requires forall i :: 0 <= i < |rows| ==> rows[i].rsi.None?
    ensures DropNa(rows) == []
  {
    if rows != [] {
      DropNaAllUndefined(rows[..|rows| - 1]);
    }
  }

  /** The classifier's current bar is the latest bar whenever that bar has an RSI. */
  lemma DropNaKeepsLatest(rows: seq<Row>)
    requires rows != [] && rows[|rows| - 1].rsi.Some?
    ensures DropNa(rows) != [] && DropNa(rows)[|DropNa(rows)| - 1] == ToBar(rows[|rows| - 1])
  {
  }

  /** Every clean bar carries an RSI in [0, 100]. */
  lemma {:induction false} CleanRsiInRange(rows: seq<Row>)
    requires forall i :: 0 <= i < |rows| && rows[i].rsi.Some? ==> 0.0 <= rows[i].rsi.value <= 100.0
    ensures forall j :: 0 <= j < |DropNa(rows)| ==> 0.0 <= DropNa(rows)[j].rsi <= 100.0
  {
    if rows != [] {
      CleanRsiInRange(rows[..|rows| - 1]);
    }
  }

  // ---------------------------------------------------------------------------
  // Properties of the whole analysis

  /** The RSI column of the analysed frame only has values in [0, 100], and so the clean frame. */
  lemma AnalysedRsiInRange(closes: seq<real>)
    ensures forall j :: 0 <= j < |DropNa(IndicatorRows(closes))| ==> 0.0 <= DropNa(IndicatorRows(closes))[j].rsi <= 100.0
  {
    CleanRsiInRange(IndicatorRows(closes));
  }

  /** The first RsiPeriod − 1 bars never reach the classifier, so a history shorter than
      MinBars + RsiPeriod − 1 = 73 bars can never give BUY, SELL or WAIT. */
  lemma ShortHistory(closes: seq<real>)
    requires |closes| < MinBars + RsiPeriod - 1
    ensures AnalysisOf(closes) in {NoData, NoIndicatorRows, Signalled(DataKurang)}
  {
    ShortHistoryFewCleanRows(closes);
  }

  /** The warm-up rows of a short history are dropped, leaving fewer than MinBars. */
  lemma ShortHistoryFewCleanRows(closes: seq<real>)
    requires |closes| < MinBars + RsiPeriod - 1
    ensures |DropNa(IndicatorRows(closes))| < MinBars
  {
    var rows := IndicatorRows(closes);
    if |closes| >= RsiPeriod - 1 {
      var k := RsiPeriod - 1;
      assert rows == rows[..k] + rows[k..];
      DropNaAppend(rows[..k], rows[k..]);
      DropNaAllUndefined(rows[..k]);
    } else {
      DropNaAllUndefined(rows);
    }
  }

  /** A flat price series never gets as far as the classifier: every RSI window is 0/0. */
  lemma FlatHistory(closes: seq<real>, x: real)
    requires forall j :: 0 <= j < |closes| ==> closes[j] == x
    ensures AnalysisOf(closes) in {NoData, NoIndicatorRows}
  {
    RsiOfFlatSeries(closes, RsiPeriod, x);
    DropNaAllUndefined(IndicatorRows(closes));
  }

  /** A strictly rising series never gives BUY or SELL: its RSI is 100, beyond both bands. */
  lemma RisingHistoryNoEntry(closes: seq<real>)
    requires |closes| >= RsiPeriod && StrictlyIncreasing(closes)
    ensures AnalysisOf(closes).Signalled?
    ensures AnalysisOf(closes).signal in {Wait(BullTrendUnconfirmed), Wait(BearTrendUnconfirmed), Wait(NotAligned), DataKurang}
  {
    var rows := IndicatorRows(closes);
    var n := |closes| - 1;
    RsiOfRisingSeries(closes, RsiPeriod, n);
    DropNaKeepsLatest(rows);
    NarrowSellRuleUnreachable(DropNa(rows));
  }

  /** A strictly falling series never gives BUY or SELL: its RSI is 0, below both bands. */
  lemma FallingHistoryNoEntry(closes: seq<real>)
    requires |closes| >= RsiPeriod && StrictlyDecreasing(closes)
    ensures AnalysisOf(closes).Signalled?
    ensures AnalysisOf(closes).signal in {Wait(BullTrendUnconfirmed), Wait(BearTrendUnconfirmed), Wait(NotAligned), DataKurang}
  {
    var rows := IndicatorRows(closes);
    var n := |closes| - 1;
    RsiOfFallingSeries(closes, RsiPeriod, n);
    DropNaKeepsLatest(rows);
    NarrowSellRuleUnreachable(DropNa(rows));
  }
}
