/** The indicator engine: exponential moving averages and the relative strength
    index over a series of closing prices, computed over exact reals. A NaN
    value of pandas is `None`. */
module Indicators {
  import opened Wrappers

  /** The RSI period the application uses. */
  const RsiPeriod: nat := 14

  // ---------------------------------------------------------------------------
  // Exponential moving average

  /** The smoothing factor of `ewm(span=span)`. */
  function Alpha(span: nat): (a: real)
    requires span >= 1
    ensures 0.0 < a <= 1.0
  {
    2.0 / (span as real + 1.0)
  }

  /** The EMA at bar `i` under `adjust=False`: seeded with the first close, then each
      value mixes the new close with the previous average. */
  function EmaAt(close: seq<real>, span: nat, i: nat): real
    requires span >= 1 && i < |close|
  {
    if i == 0 then close[0]
    else Alpha(span) * close[i] + (1.0 - Alpha(span)) * EmaAt(close, span, i - 1)
  }

  /** The lowest close up to bar `i`. */
  function LowestUpTo(close: seq<real>, i: nat): real
    requires i < |close|
  {
    if i == 0 then close[0]
    else if close[i] < LowestUpTo(close, i - 1) then close[i]
    else LowestUpTo(close, i - 1)
  }

  /** The highest close up to bar `i`. */
  function HighestUpTo(close: seq<real>, i: nat): real
    requires i < |close|
  {
    if i == 0 then close[0]
    else if close[i] > HighestUpTo(close, i - 1) then close[i]
    else HighestUpTo(close, i - 1)
  }

  /** The EMA column `close.ewm(span=span, adjust=False).mean()`: one value per bar, each
      between the lowest and the highest close up to that bar. */
  function Ema(close: seq<real>, span: nat): (e: seq<real>)
    requires span >= 1
    ensures |e| == |close|
    ensures forall i :: 0 <= i < |close| ==> LowestUpTo(close, i) <= e[i] <= HighestUpTo(close, i)
  {
    EmaWithinRange(close, span);
    seq(|close|, i requires 0 <= i < |close| => EmaAt(close, span, i))
  }

  lemma EmaWithinRange(close: seq<real>, span: nat)
    requires span >= 1
    ensures forall i :: 0 <= i < |close| ==> LowestUpTo(close, i) <= EmaAt(close, span, i) <= HighestUpTo(close, i)
  {
    forall i | 0 <= i < |close|
      ensures LowestUpTo(close, i) <= EmaAt(close, span, i) <= HighestUpTo(close, i)
    {
      EmaAtWithinRange(close, span, i);
    }
  }

  lemma {:induction false} EmaAtWithinRange(close: seq<real>, span: nat, i: nat)
    requires span >= 1 && i < |close|
    ensures LowestUpTo(close, i) <= EmaAt(close, span, i) <= HighestUpTo(close, i)
  {
    if i > 0 {
      EmaAtWithinRange(close, span, i - 1);
      ConvexStep(Alpha(span), close[i], EmaAt(close, span, i - 1), LowestUpTo(close, i), HighestUpTo(close, i));
    }
  }

  /** The recurrence of `adjust=False`: EMA₀ = close₀ and EMAᵢ = α·closeᵢ + (1−α)·EMAᵢ₋₁. */
  lemma EmaRecurrence(close: seq<real>, span: nat, i: nat)
    requires span >= 1 && i < |close|
    ensures i == 0 ==> Ema(close, span)[0] == close[0]
    ensures i > 0 ==> Ema(close, span)[i]
                      == Alpha(span) * close[i] + (1.0 - Alpha(span)) * Ema(close, span)[i - 1]
  {
  }

  lemma {:induction false} EmaAtPrefix(close: seq<real>, span: nat, k: nat, i: nat)
    requires span >= 1 && i < k <= |close|
    ensures EmaAt(close[..k], span, i) == EmaAt(close, span, i)
  {
    if i > 0 {
      EmaAtPrefix(close, span, k, i - 1);
    }
  }

  /** No look-ahead: the EMA of a prefix of the closes is the prefix of the EMA. */
  lemma EmaPrefix(close: seq<real>, span: nat, k: nat)
    requires span >= 1 && k <= |close|
    ensures Ema(close[..k], span) == Ema(close, span)[..k]
  {
    forall i | 0 <= i < k ensures Ema(close[..k], span)[i] == Ema(close, span)[i] {
      EmaAtPrefix(close, span, k, i);
    }
  }

  lemma MulNonNegative(x: real, y: real)
    requires x >= 0.0 && y >= 0.0
    ensures x * y >= 0.0
  {
  }

  /** A convex combination stays within any bounds of its two parts. */
  lemma ConvexStep(a: real, x: real, y: real, lo: real, hi: real)
    requires 0.0 < a <= 1.0
    requires lo <= x <= hi && lo <= y <= hi
    ensures lo <= a * x + (1.0 - a) * y <= hi
  {
    var b := 1.0 - a;
    MulNonNegative(a, x - lo);
    MulNonNegative(a, hi - x);
    MulNonNegative(b, y - lo);
    MulNonNegative(b, hi - y);
    assert a * x + b * y - lo == a * (x - lo) + b * (y - lo);
    assert hi - (a * x + b * y) == a * (hi - x) + b * (hi - y);
  }

  /** Smoothing: every EMA value lies within any bounds of the closes up to that bar,
      in particular between their minimum and maximum. */
  lemma {:induction false} EmaBounded(close: seq<real>, span: nat, i: nat, lo: real, hi: real)
    requires span >= 1 && i < |close|
    requires forall j :: 0 <= j <= i ==> lo <= close[j] <= hi
    ensures lo <= Ema(close, span)[i] <= hi
  {
    if i > 0 {
      EmaBounded(close, span, i - 1, lo, hi);
      ConvexStep(Alpha(span), close[i], EmaAt(close, span, i - 1), lo, hi);
    }
  }

  /** A constant series has a constant EMA, equal to the price. */
  lemma EmaConstant(close: seq<real>, span: nat, x: real)
    requires span >= 1
    requires forall j :: 0 <= j < |close| ==> close[j] == x
    ensures forall i :: 0 <= i < |close| ==> Ema(close, span)[i] == x
  {
    forall i | 0 <= i < |close| ensures Ema(close, span)[i] == x {
      EmaBounded(close, span, i, x, x);
    }
  }

  // ---------------------------------------------------------------------------
  // Relative strength index

  /** `np.where(delta > 0, delta, 0)`; the first delta is NaN, which the comparison turns into 0. */
  function Gain(close: seq<real>, i: nat): (g: real)
    requires i < |close|
    ensures g >= 0.0
    ensures g > 0.0 <==> i > 0 && close[i] > close[i - 1]
  {
    if i == 0 then 0.0
    else if close[i] - close[i - 1] > 0.0 then close[i] - close[i - 1] else 0.0
  }

  /** `np.where(delta < 0, -delta, 0)`, with the same treatment of the first delta. */
  function Loss(close: seq<real>, i: nat): (l: real)
    requires i < |close|
    ensures l >= 0.0
    ensures l > 0.0 <==> i > 0 && close[i] < close[i - 1]
    ensures i > 0 ==> Gain(close, i) - l == close[i] - close[i - 1]
  {
    if i == 0 then 0.0
    else if close[i] - close[i - 1] < 0.0 then close[i - 1] - close[i] else 0.0
  }

  function Gains(close: seq<real>): (g: seq<real>)
    ensures |g| == |close|
    ensures forall i :: 0 <= i < |g| ==> g[i] >= 0.0
  {
    seq(|close|, i requires 0 <= i < |close| => Gain(close, i))
  }

  function Losses(close: seq<real>): (l: seq<real>)
    ensures |l| == |close|
    ensures forall i :: 0 <= i < |l| ==> l[i] >= 0.0
  {
    seq(|close|, i requires 0 <= i < |close| => Loss(close, i))
  }

  function Sum(s: seq<real>): real {
    if s == [] then 0.0 else Sum(s[..|s| - 1]) + s[|s| - 1]
  }

  lemma {:induction false} SumNonNegative(s: seq<real>)
    requires forall i :: 0 <= i < |s| ==> s[i] >= 0.0
    ensures Sum(s) >= 0.0
  {
    if s != [] {
      SumNonNegative(s[..|s| - 1]);
    }
  }

  /** The `period` gains that end at bar `i`. */
  function GainWindow(close: seq<real>, period: nat, i: nat): (w: seq<real>)
    requires period >= 1 && period - 1 <= i < |close|
    ensures |w| == period
    ensures forall j :: 0 <= j < period ==> w[j] == Gain(close, i + 1 - period + j)
  {
    Gains(close)[i + 1 - period..i + 1]
  }

  /** The `period` losses that end at bar `i`. */
  function LossWindow(close: seq<real>, period: nat, i: nat): (w: seq<real>)
    requires period >= 1 && period - 1 <= i < |close|
    ensures |w| == period
    ensures forall j :: 0 <= j < period ==> w[j] == Loss(close, i + 1 - period + j)
  {
    Losses(close)[i + 1 - period..i + 1]
  }

  /** `gain.rolling(window=period).mean()` at bar `i`, once a full window exists
      (before that pandas yields NaN). */
  function AvgGain(close: seq<real>, period: nat, i: nat): (g: real)
    requires period >= 1 && period - 1 <= i < |close|
    ensures g >= 0.0
  {
    var w := GainWindow(close, period, i);
    SumNonNegative(w);
    Sum(w) / period as real
  }

  /** `loss.rolling(window=period).mean()` at bar `i`, once a full window exists. */
  function AvgLoss(close: seq<real>, period: nat, i: nat): (l: real)
    requires period >= 1 && period - 1 <= i < |close|
    ensures l >= 0.0
  {
    var w := LossWindow(close, period, i);
    SumNonNegative(w);
    Sum(w) / period as real
  }

  /** `compute_rsi` at bar `i`: NaN during the warm-up, then 100 − 100/(1 + avgGain/avgLoss),
      where a zero average loss makes the ratio infinite (RSI 100) when the average gain
      is positive and NaN (0/0) when it is zero. */
  function RsiAt(close: seq<real>, period: nat, i: nat): (r: Option<real>)
    requires period >= 1 && i < |close|
    ensures i + 1 < period ==> r == None
    ensures r.Some? ==> 0.0 <= r.value <= 100.0
  {
    if i + 1 < period then None
    else
      var g, l := AvgGain(close, period, i), AvgLoss(close, period, i);
      if l == 0.0 then (if g > 0.0 then Some(100.0) else None)
      else
        RsiFormulaInRange(g, l);
        Some(100.0 - 100.0 / (1.0 + g / l))
  }

  /** With a positive average loss, 100 − 100/(1 + RS) lies in [0, 100]. */
  lemma RsiFormulaInRange(g: real, l: real)
    requires g >= 0.0 && l > 0.0
    ensures 0.0 <= 100.0 - 100.0 / (1.0 + g / l) <= 100.0
  {
    var rs := g / l;
    assert rs * l == g;
    assert rs >= 0.0;
    var q := 100.0 / (1.0 + rs);
    assert q * (1.0 + rs) == 100.0;
    assert q > 0.0;
    assert q * rs >= 0.0;
    assert q <= 100.0;
  }

  /** The RSI column `compute_rsi(close, period)`: NaN during the warm-up, and every
      defined value in [0, 100]. */
  function Rsi(close: seq<real>, period: nat): (r: seq<Option<real>>)
    requires period >= 1
    ensures |r| == |close|
    ensures forall i :: 0 <= i < |close| && i + 1 < period ==> r[i] == None
    ensures forall i :: 0 <= i < |close| && r[i].Some? ==> 0.0 <= r[i].value <= 100.0
  {
    seq(|close|, i requires 0 <= i < |close| => RsiAt(close, period, i))
  }

  lemma {:induction false} SumPositive(s: seq<real>, k: nat)
    requires forall i :: 0 <= i < |s| ==> s[i] >= 0.0
    requires k < |s| && s[k] > 0.0
    ensures Sum(s) > 0.0
  {
    if k == |s| - 1 {
      SumNonNegative(s[..|s| - 1]);
    } else {
      SumPositive(s[..|s| - 1], k);
    }
  }

  lemma {:induction false} SumZero(s: seq<real>)
    requires forall i :: 0 <= i < |s| ==> s[i] == 0.0
    ensures Sum(s) == 0.0
  {
    if s != [] {
      SumZero(s[..|s| - 1]);
    }
  }

  /** No look-ahead: the RSI of a prefix of the closes is the prefix of the RSI. */
  lemma RsiPrefix(close: seq<real>, period: nat, k: nat)
    requires period >= 1 && k <= |close|
    ensures Rsi(close[..k], period) == Rsi(close, period)[..k]
  {
    var pre := close[..k];
    assert Gains(pre) == Gains(close)[..k];
    assert Losses(pre) == Losses(close)[..k];
    forall i | 0 <= i < k ensures Rsi(pre, period)[i] == Rsi(close, period)[i] {
      if i + 1 >= period {
        assert Gains(pre)[i + 1 - period..i + 1] == Gains(close)[i + 1 - period..i + 1];
        assert Losses(pre)[i + 1 - period..i + 1] == Losses(close)[i + 1 - period..i + 1];
      }
    }
  }

  /** Where the RSI is defined: from bar `period − 1` on, except on windows with
      neither gains nor losses (0/0). */
  lemma RsiDefinedness(close: seq<real>, period: nat, i: nat)
    requires period >= 1 && i < |close|
    ensures i < period - 1 ==> Rsi(close, period)[i] == None
    ensures i >= period - 1 ==>
      (Rsi(close, period)[i].Some? <==> AvgGain(close, period, i) > 0.0 || AvgLoss(close, period, i) > 0.0)
  {
  }

  /** With some losses in the window, the RSI is the share of gains in the total movement. */
  lemma RsiAsShare(close: seq<real>, period: nat, i: nat)
    requires period >= 1 && period - 1 <= i < |close|
    requires AvgLoss(close, period, i) > 0.0
    ensures Rsi(close, period)[i]
            == Some(100.0 * (AvgGain(close, period, i) / (AvgGain(close, period, i) + AvgLoss(close, period, i))))
  {
    var g, l := AvgGain(close, period, i), AvgLoss(close, period, i);
    var rs := g / l;
    assert rs * l == g;
    assert (1.0 + rs) * l == l + g;
    var q := 100.0 / (1.0 + rs);
    assert q * (1.0 + rs) == 100.0;
    assert q * (l + g) == 100.0 * l;
    assert (100.0 - q) * (g + l) == 100.0 * g;
    var share := g / (g + l);
    assert share * (g + l) == g;
    ZeroFactor(100.0 - q - 100.0 * share, g + l);
    assert Rsi(close, period)[i] == Some(100.0 - q);
  }

  lemma ZeroFactor(x: real, y: real)
    requires x * y == 0.0 && y != 0.0
    ensures x == 0.0
  {
  }

  /** A window with gains and no losses has RSI exactly 100 (pandas: RS = inf). */
  lemma RsiSaturates(close: seq<real>, period: nat, i: nat)
    requires period >= 1 && period - 1 <= i < |close|
    requires AvgLoss(close, period, i) == 0.0 && AvgGain(close, period, i) > 0.0
    ensures Rsi(close, period)[i] == Some(100.0)
  {
  }

  predicate StrictlyIncreasing(s: seq<real>) {
    forall i :: 0 < i < |s| ==> s[i - 1] < s[i]
  }

  predicate StrictlyDecreasing(s: seq<real>) {
    forall i :: 0 < i < |s| ==> s[i - 1] > s[i]
  }

  /** A strictly rising series has RSI exactly 100 wherever a full window exists. */
  lemma RsiOfRisingSeries(close: seq<real>, period: nat, i: nat)
    requires period >= 2 && period - 1 <= i < |close|
    requires StrictlyIncreasing(close)
    ensures Rsi(close, period)[i] == Some(100.0)
  {
    RisingWindow(close, period, i);
    RsiSaturates(close, period, i);
  }

  /** A rising window has only gains. */
  lemma RisingWindow(close: seq<real>, period: nat, i: nat)
    requires period >= 2 && period - 1 <= i < |close|
    requires StrictlyIncreasing(close)
    ensures AvgGain(close, period, i) > 0.0 && AvgLoss(close, period, i) == 0.0
  {
    assert Gain(close, i) > 0.0;
    SomeGainInWindow(close, period, i, i);
    forall k | i + 1 - period <= k <= i ensures Loss(close, k) == 0.0 {
    }
    NoLossInWindow(close, period, i);
  }


  /** A window with losses and no gains has RSI exactly 0. */
  lemma RsiBottoms(close: seq<real>, period: nat, i: nat)
    requires period >= 1 && period - 1 <= i < |close|
    requires AvgLoss(close, period, i) > 0.0 && AvgGain(close, period, i) == 0.0
    ensures Rsi(close, period)[i] == Some(0.0)
  {
    var l := AvgLoss(close, period, i);
    assert 0.0 / l == 0.0;
  }

  /** A strictly falling series has RSI exactly 0 wherever a full window exists. */
  lemma RsiOfFallingSeries(close: seq<real>, period: nat, i: nat)
    requires period >= 2 && period - 1 <= i < |close|
    requires StrictlyDecreasing(close)
    ensures Rsi(close, period)[i] == Some(0.0)
  {
    FallingWindow(close, period, i);
    RsiBottoms(close, period, i);
  }

  /** A falling window has only losses. */
  lemma FallingWindow(close: seq<real>, period: nat, i: nat)
    requires period >= 2 && period - 1 <= i < |close|
    requires StrictlyDecreasing(close)
    ensures AvgLoss(close, period, i) > 0.0 && AvgGain(close, period, i) == 0.0
  {
    assert Loss(close, i) > 0.0;
    SomeLossInWindow(close, period, i, i);
    forall k | i + 1 - period <= k <= i ensures Gain(close, k) == 0.0 {
    }
    NoGainInWindow(close, period, i);
  }


  /** In a flat series every window has no gains and no losses. */
  lemma FlatWindow(close: seq<real>, period: nat, x: real, i: nat)
    requires period >= 1 && period - 1 <= i < |close|
    requires forall j :: 0 <= j < |close| ==> close[j] == x
    ensures AvgGain(close, period, i) == 0.0 && AvgLoss(close, period, i) == 0.0
  {
    forall k | i + 1 - period <= k <= i ensures Gain(close, k) == 0.0 && Loss(close, k) == 0.0 {
    }
    NoGainInWindow(close, period, i);
    NoLossInWindow(close, period, i);
  }

  /** A window whose bars all have zero gain has zero average gain. */
  lemma NoGainInWindow(close: seq<real>, period: nat, i: nat)
    requires period >= 1 && period - 1 <= i < |close|
    requires forall k :: i + 1 - period <= k <= i ==> Gain(close, k) == 0.0
    ensures AvgGain(close, period, i) == 0.0
  {
    var w := GainWindow(close, period, i);
    forall j | 0 <= j < |w| ensures w[j] == 0.0 {
      assert w[j] == Gain(close, i + 1 - period + j);
    }
    SumZero(w);
  }

  /** A window whose bars all have zero loss has zero average loss. */
  lemma NoLossInWindow(close: seq<real>, period: nat, i: nat)
    requires period >= 1 && period - 1 <= i < |close|
    requires forall k :: i + 1 - period <= k <= i ==> Loss(close, k) == 0.0
    ensures AvgLoss(close, period, i) == 0.0
  {
    var w := LossWindow(close, period, i);
    forall j | 0 <= j < |w| ensures w[j] == 0.0 {
      assert w[j] == Loss(close, i + 1 - period + j);
    }
    SumZero(w);
  }

  /** One positive gain in the window makes the average gain positive. */
  lemma SomeGainInWindow(close: seq<real>, period: nat, i: nat, k: nat)
    requires period >= 1 && period - 1 <= i < |close|
    requires i + 1 - period <= k <= i && Gain(close, k) > 0.0
    ensures AvgGain(close, period, i) > 0.0
  {
    var w := GainWindow(close, period, i);
    assert w[k - (i + 1 - period)] == Gain(close, k);
    SumPositive(w, k - (i + 1 - period));
    Averaged(Sum(w), period);
  }

  /** One positive loss in the window makes the average loss positive. */
  lemma SomeLossInWindow(close: seq<real>, period: nat, i: nat, k: nat)
    requires period >= 1 && period - 1 <= i < |close|
    requires i + 1 - period <= k <= i && Loss(close, k) > 0.0
    ensures AvgLoss(close, period, i) > 0.0
  {
    var w := LossWindow(close, period, i);
    assert w[k - (i + 1 - period)] == Loss(close, k);
    SumPositive(w, k - (i + 1 - period));
    Averaged(Sum(w), period);
  }

  lemma Averaged(x: real, n: nat)
    requires x > 0.0 && n >= 1
    ensures x / n as real > 0.0
  {
  }


  /** A flat series never has a defined RSI: every window is 0/0. */
  lemma RsiOfFlatSeries(close: seq<real>, period: nat, x: real)
    requires period >= 1
    requires forall j :: 0 <= j < |close| ==> close[j] == x
    ensures forall i :: 0 <= i < |close| ==> Rsi(close, period)[i] == None
  {
    forall i | 0 <= i < |close| ensures Rsi(close, period)[i] == None {
      if i >= period - 1 {
        FlatWindow(close, period, x, i);
      }
    }
  }
}
