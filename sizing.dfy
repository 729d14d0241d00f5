/** The risk-sizing calculator: how many units to trade so that hitting the stop
    loses a fixed percentage of the account. Both operations answer `None` where
    the application returns a tuple of `None`s. */
module Sizing {
  import opened Wrappers

  function Abs(x: real): real { if x < 0.0 then -x else x }

  /** The four values of compute_position_sizing. */
  datatype StopSizing = StopSizing(riskAmount: real, quantity: real, stopLoss: real, takeProfit: real)

  /** The three values of position_from_entry_sl; `riskReward` is absent when no usable target was given. */
  datatype LevelSizing = LevelSizing(riskAmount: real, quantity: real, riskReward: Option<real>)

  /** compute_position_sizing: size from the current price and a stop distance in percent,
      with the target at twice the stop distance above the price. */
  function SizeByStopPercent(balance: real, riskPct: real, stopPct: real, price: real): (r: Option<StopSizing>)
    ensures r.None? <==> balance <= 0.0 || riskPct <= 0.0 || stopPct <= 0.0 || price <= 0.0
    ensures r.Some? ==>
      && r.value.riskAmount == balance * riskPct / 100.0
      && r.value.quantity > 0.0
      && r.value.quantity * (price * stopPct / 100.0) == r.value.riskAmount
      && price - r.value.stopLoss == price * stopPct / 100.0
      && r.value.stopLoss < price
      && r.value.takeProfit - price == 2.0 * (price - r.value.stopLoss)
  {
    if balance <= 0.0 || riskPct <= 0.0 || stopPct <= 0.0 || price <= 0.0 then None
    else
      var riskAmount := balance * (riskPct / 100.0);
      var riskPerUnit := price * (stopPct / 100.0);
      if riskPerUnit == 0.0 then None
      else
        var qty := riskAmount / riskPerUnit;
        var sl := price * (1.0 - stopPct / 100.0);
        var tp := price + (price - sl) * 2.0;
        Some(StopSizing(riskAmount, qty, sl, tp))
  }

  /** The second guard of compute_position_sizing (a zero risk per unit) never decides:
      past the first guard the risk per unit is positive. */
  lemma RiskPerUnitPositive(price: real, stopPct: real)
    requires price > 0.0 && stopPct > 0.0
    ensures price * (stopPct / 100.0) > 0.0
  {
  }

  /** position_from_entry_sl: size from explicit entry and stop levels, long or short,
      with the reward-to-risk ratio when a usable target is given. A target of 0 counts as absent. */
  function SizeByLevels(balance: real, riskPct: real, entry: real, stopLoss: real, takeProfit: Option<real>)
    : (r: Option<LevelSizing>)
    ensures r.None? <==>
      balance <= 0.0 || riskPct <= 0.0 || entry <= 0.0 || stopLoss <= 0.0 || entry == stopLoss
    ensures r.Some? ==>
      && r.value.riskAmount == balance * riskPct / 100.0
      && r.value.quantity > 0.0
      && r.value.quantity * Abs(entry - stopLoss) == r.value.riskAmount
    ensures r.Some? ==>
      (r.value.riskReward.Some? <==> takeProfit.Some? && takeProfit.value > 0.0 && takeProfit.value != entry)
    ensures r.Some? && r.value.riskReward.Some? ==>
      && r.value.riskReward.value > 0.0
      && r.value.riskReward.value * Abs(entry - stopLoss) == Abs(takeProfit.value - entry)
  {
    if balance <= 0.0 || riskPct <= 0.0 then None
    else if entry <= 0.0 || stopLoss <= 0.0 || entry == stopLoss then None
    else
      var riskAmount := balance * (riskPct / 100.0);
      var riskPerUnit := Abs(entry - stopLoss);
      var qty := riskAmount / riskPerUnit;
      var rr :=
        if takeProfit.Some? && takeProfit.value != 0.0 && takeProfit.value != entry && takeProfit.value > 0.0
        then Some(Abs(takeProfit.value - entry) / Abs(entry - stopLoss))
        else None;
      Some(LevelSizing(riskAmount, qty, rr))
  }

  /** Long and short setups are sized alike: a stop the same distance on the other side
      of the entry gives the same risk and the same quantity. */
  lemma MirroredStopSameSize(balance: real, riskPct: real, entry: real, stopLoss: real, takeProfit: Option<real>)
    requires stopLoss > 0.0 && 2.0 * entry - stopLoss > 0.0
    ensures var a, b := SizeByLevels(balance, riskPct, entry, stopLoss, takeProfit),
                        SizeByLevels(balance, riskPct, entry, 2.0 * entry - stopLoss, takeProfit);
      && a.Some? == b.Some?
      && (a.Some? ==> a.value.riskAmount == b.value.riskAmount && a.value.quantity == b.value.quantity)
  {
    var a := SizeByLevels(balance, riskPct, entry, stopLoss, takeProfit);
    var b := SizeByLevels(balance, riskPct, entry, 2.0 * entry - stopLoss, takeProfit);
    if a.Some? {
      var d := Abs(entry - stopLoss);
      assert Abs(entry - (2.0 * entry - stopLoss)) == d;
      assert a.value.quantity * d == b.value.quantity * d;
    }
  }

  /** The two calculators agree: the stop and target of the percentage mode, entered as
      levels (with a stop above zero, i.e. under 100 %), give the same risk, the same
      quantity and a 1:2 reward-to-risk ratio. */
  lemma ModesAgree(balance: real, riskPct: real, stopPct: real, price: real)
    requires balance > 0.0 && riskPct > 0.0 && 0.0 < stopPct < 100.0 && price > 0.0
    ensures var p := SizeByStopPercent(balance, riskPct, stopPct, price).value;
      && SizeByLevels(balance, riskPct, price, p.stopLoss, Some(p.takeProfit))
         == Some(LevelSizing(p.riskAmount, p.quantity, Some(2.0)))
  {
    var ra := balance * (riskPct / 100.0);
    var d := price * (stopPct / 100.0);
    var sl := price * (1.0 - stopPct / 100.0);
    var tp := price + (price - sl) * 2.0;
    assert SizeByStopPercent(balance, riskPct, stopPct, price) == Some(StopSizing(ra, ra / d, sl, tp));
    assert price - sl == d && d > 0.0;
    var f := 1.0 - stopPct / 100.0;
    assert f > 0.0;
    MulPositive(price, f);
    assert sl == price * f;
    assert Abs(price - sl) == d;
    assert tp - price == 2.0 * d;
    assert Abs(tp - price) / Abs(price - sl) == 2.0;
    assert SizeByLevels(balance, riskPct, price, sl, Some(tp))
           == Some(LevelSizing(ra, ra / Abs(price - sl), Some(Abs(tp - price) / Abs(price - sl))));
  }

  lemma MulPositive(x: real, y: real)
    requires x > 0.0 && y > 0.0
    ensures x * y > 0.0
  {
  }

  /** The sizes are proportional to the balance: twice the account, twice the position. */
  lemma QuantityScalesWithBalance(balance: real, riskPct: real, entry: real, stopLoss: real, k: real)
    requires k > 0.0
    requires SizeByLevels(balance, riskPct, entry, stopLoss, None).Some?
    ensures SizeByLevels(k * balance, riskPct, entry, stopLoss, None).Some?
    ensures SizeByLevels(k * balance, riskPct, entry, stopLoss, None).value.quantity
            == k * SizeByLevels(balance, riskPct, entry, stopLoss, None).value.quantity
  {
    var a := SizeByLevels(balance, riskPct, entry, stopLoss, None).value;
    var b := SizeByLevels(k * balance, riskPct, entry, stopLoss, None).value;
    var d := Abs(entry - stopLoss);
    assert b.quantity * d == k * (a.quantity * d);
    assert (b.quantity - k * a.quantity) * d == 0.0;
  }

  /** 1000 of balance, 2 % risk, a 5 % stop at price 100: risk 20, 4 units, stop 95, target 110. */
  lemma StopPercentExample()
    ensures SizeByStopPercent(1000.0, 2.0, 5.0, 100.0) == Some(StopSizing(20.0, 4.0, 95.0, 110.0))
  {
  }

  /** A price of 0 gives no result at all. */
  lemma StopPercentZeroPrice(balance: real, riskPct: real, stopPct: real)
    ensures SizeByStopPercent(balance, riskPct, stopPct, 0.0) == None
  {
  }

  /** 1000 of balance, 1 % risk, entry 50, stop 48, target 56: risk 10, 5 units, ratio 3. */
  lemma LevelsExample()
    ensures SizeByLevels(1000.0, 1.0, 50.0, 48.0, Some(56.0)) == Some(LevelSizing(10.0, 5.0, Some(3.0)))
  {
  }
}
