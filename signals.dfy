/** The signal classifier `generate_smart_signal`: a first-match-wins rule chain
    over the last two rows of the clean indicator frame. */
module Signals {

  /** One row of the clean frame, with the columns the classifier reads; every one is defined. */
  datatype Bar = Bar(close: real, ema10: real, ema20: real, ema50: real, ema200: real, rsi: real)

  /** Which of the two SELL rules fired: the 20–55 band or the narrower 30–55 band after it. */
  datatype SellRule = WideBand | NarrowBand

  /** The three WAIT explanations, in the order the rules try them. */
  datatype WaitReason = BullTrendUnconfirmed | BearTrendUnconfirmed | NotAligned

  /** The signal tag; `DataKurang` ("not enough data") is the short-frame answer. */
  datatype Signal = Buy | Sell(rule: SellRule) | Wait(reason: WaitReason) | DataKurang

  /** Fewer clean rows than this and the classifier declines to analyse. */
  const MinBars: nat := 60

  predicate TrendBull(last: Bar) { last.ema50 > last.ema200 }
  predicate TrendBear(last: Bar) { last.ema50 < last.ema200 }

  /** EMA10 crosses above EMA20 between the previous and the current row. */
  predicate MomentumBull(last: Bar, prev: Bar) {
    last.ema10 > last.ema20 && prev.ema10 <= prev.ema20
  }

  /** EMA10 crosses below EMA20 between the previous and the current row. */
  predicate MomentumBear(last: Bar, prev: Bar) {
    last.ema10 < last.ema20 && prev.ema10 >= prev.ema20
  }

  predicate PriceAboveEma20(last: Bar) { last.close > last.ema20 }
  predicate PriceBelowEma20(last: Bar) { last.close < last.ema20 }

  predicate InBand(x: real, lo: real, hi: real) { lo <= x <= hi }

  /** Trend, momentum and price all bearish: the common part of both SELL rules. */
  predicate BearAligned(last: Bar, prev: Bar) {
    TrendBear(last) && MomentumBear(last, prev) && PriceBelowEma20(last)
  }

  /** The BUY rule. */
  predicate BuySetup(last: Bar, prev: Bar) {
    TrendBull(last) && MomentumBull(last, prev) && PriceAboveEma20(last) && InBand(last.rsi, 45.0, 80.0)
  }

  /** The first SELL rule. */
  predicate SellSetup(last: Bar, prev: Bar) {
    BearAligned(last, prev) && InBand(last.rsi, 20.0, 55.0)
  }

  /** generate_smart_signal, with its rules tried in the order they are written: "not
      enough data" exactly on a frame shorter than MinBars; BUY only on a BUY setup and
      SELL only on a SELL setup of the last two rows. */
  function Classify(frame: seq<Bar>): (s: Signal)
    ensures s == DataKurang <==> |frame| < MinBars
    ensures s == Buy ==> |frame| >= MinBars && BuySetup(frame[|frame| - 1], frame[|frame| - 2])
    ensures s.Sell? ==> |frame| >= MinBars && SellSetup(frame[|frame| - 1], frame[|frame| - 2])
  {
    if |frame| < MinBars then DataKurang
    else
      var last, prev := frame[|frame| - 1], frame[|frame| - 2];
      if BuySetup(last, prev) then Buy
      else if SellSetup(last, prev) then Sell(WideBand)
      else if BearAligned(last, prev) && InBand(last.rsi, 30.0, 55.0) then Sell(NarrowBand)
      else if TrendBull(last) && !MomentumBull(last, prev) then Wait(BullTrendUnconfirmed)
      else if TrendBear(last) && !MomentumBear(last, prev) then Wait(BearTrendUnconfirmed)
      else Wait(NotAligned)
  }

  /** The second SELL rule can never fire: its band lies inside the first rule's band,
      under the same trend, momentum and price conditions. */
  lemma NarrowSellRuleUnreachable(frame: seq<Bar>)
    ensures Classify(frame) != Sell(NarrowBand)
  {
    if |frame| >= MinBars {
      var last, prev := frame[|frame| - 1], frame[|frame| - 2];
      assert BearAligned(last, prev) && InBand(last.rsi, 30.0, 55.0) ==> SellSetup(last, prev);
    }
  }

  /** The rule chain as a decision table with pairwise exclusive rows: each outcome
      exactly when its own conditions hold, with BUY before SELL and the bullish
      explanation before the bearish one. */
  lemma DecisionTable(frame: seq<Bar>)
    requires |frame| >= MinBars
    ensures var last, prev, s := frame[|frame| - 1], frame[|frame| - 2], Classify(frame);
      && (s == Buy <==> BuySetup(last, prev))
      && (s == Sell(WideBand) <==> SellSetup(last, prev))
      && (s == Wait(BullTrendUnconfirmed) <==> TrendBull(last) && !MomentumBull(last, prev))
      && (s == Wait(BearTrendUnconfirmed) <==> TrendBear(last) && !MomentumBear(last, prev))
      && (s == Wait(NotAligned) <==>
            || (TrendBull(last) && MomentumBull(last, prev)
                && !(PriceAboveEma20(last) && InBand(last.rsi, 45.0, 80.0)))
            || (BearAligned(last, prev) && !InBand(last.rsi, 20.0, 55.0))
            || (TrendBear(last) && MomentumBear(last, prev) && !PriceBelowEma20(last))
            || last.ema50 == last.ema200)
  {
  }

  /** BUY and SELL never both apply: their trend conditions exclude each other. */
  lemma BuySellExclusive(last: Bar, prev: Bar)
    ensures !(BuySetup(last, prev) && SellSetup(last, prev))
  {
  }

  /** Bull trend, fresh upward cross, price above EMA20 and RSI 75: BUY, although the
      docstring's 45–70 band would refuse it. */
  lemma BuyAtRsi75(frame: seq<Bar>)
    requires |frame| >= MinBars
    requires frame[|frame| - 2] == Bar(100.0, 99.0, 100.0, 98.0, 90.0, 50.0)
    requires frame[|frame| - 1] == Bar(103.0, 101.0, 100.5, 98.5, 90.0, 75.0)
    ensures Classify(frame) == Buy
  {
  }

  /** Bear trend, fresh downward cross, price below EMA20 and RSI 25: SELL by the 20–55
      rule, although the docstring's 30–55 band would refuse it. */
  lemma SellAtRsi25(frame: seq<Bar>)
    requires |frame| >= MinBars
    requires frame[|frame| - 2] == Bar(100.0, 101.0, 100.0, 102.0, 110.0, 40.0)
    requires frame[|frame| - 1] == Bar(97.0, 99.0, 99.5, 101.5, 110.0, 25.0)
    ensures Classify(frame) == Sell(WideBand)
  {
  }
}
