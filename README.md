# trading-analisa core in Dafny

A model of the analysis core of the trading-assistant dashboard in `trading_app.py`, with proofs of its properties. The core has four parts and one piece of glue:

- **Ticker normaliser** (`map_ticker_to_yahoo`). The typed ticker is trimmed and upper-cased, then rewritten for the data provider:
  - Forex pairs get `=X`, except that spot gold and silver become the futures codes `GC=F` and `SI=F`.
  - Indonesian shares get `.JK`.
  - Every other market passes through.
- **Indicator engine**:
  - `compute_emas`: the EMA10/20/50/100/200 columns of `ewm(span, adjust=False)`.
  - `compute_rsi`: the 14-bar simple-rolling-mean RSI.
  - Both are computed over exact reals. A pandas NaN is `None`.
- **Signal classifier** (`generate_smart_signal`). It applies a first-match-wins chain of BUY / SELL / WAIT rules to the last two rows of the clean frame. Below 60 rows it answers DATA KURANG ("not enough data").
- **Risk sizing**:
  - `compute_position_sizing` sizes from a price and a stop percentage, with a fixed 1:2 target.
  - `position_from_entry_sl` sizes from explicit entry and stop levels, with an optional reward-to-risk ratio.
  - Both return `None` where the application returns a tuple of `None`s.
- **Glue** (lines 343-366):
  - Add the EMA columns to the frame in place.
  - Add the RSI column.
  - Drop rows with an undefined indicator (`dropna`).
  - Classify what is left.

Modules: `Wrappers` (Option), `Ticker`, `Indicators`, `Signals`, `Sizing`, `Pipeline`. `compute_emas` writes into the caller's DataFrame, so it is the method `PriceFrame.ComputeEmas` on a class whose fields are the frame's columns. Everything else is pure and is modelled as functions and lemmas.

Behaviour of the code that is easy to misread, and what the model does:

- **RSI warm-up.** The first delta is NaN, and the `where` comparisons turn it into a gain and a loss of 0. So the RSI is defined from bar `period − 1` (bar 13), not from bar `period`.
- **RSI saturation.** It happens only when the average gain is positive. A window with neither gains nor losses gives 0/0 = NaN. The `dropna` filter then removes that row wherever it occurs. Then the "previous" row the crossover test reads may not be the bar just before the latest one.
- **Idempotence of the normaliser.** It fails for the metal overrides: `GC=F` entered as Forex becomes `GC=F=X`.
- **RSI bands.** The docstring of `generate_smart_signal` gives 45–70 for BUY and 30–55 for SELL. The code and its inline comments use 45–80 and 20–55. The model uses the code's bands. `BuyAtRsi75` and `SellAtRsi25` show inputs where the two readings differ.
- **Dead SELL rule.** The second SELL rule (band 30–55) is kept as written. `NarrowSellRuleUnreachable` proves it never fires.
- **dropna subset.** The subset leaves out EMA100. For NaN-free closes no EMA is ever NaN, so only the RSI decides which rows `dropna` keeps.

## Model

| member | source | states |
|---|---|---|
| Ticker.Upper | trading_app.py:20 | upper-casing keeps the length, turns each letter a–z into the capital 32 code points below it, keeps every other character, and leaves no lower-case letter |
| Ticker.TrimLeft | trading_app.py:20 | leading strip: the result is a suffix of the input, only whitespace is cut, and it does not start with whitespace |
| Ticker.TrimRight | trading_app.py:20 | trailing strip: the result is a prefix of the input, only whitespace is cut, and it does not end with whitespace |
| Ticker.Strip | trading_app.py:20 | `strip()` never lengthens the ticker and leaves no whitespace at either end |
| Ticker.Normalize | trading_app.py:20 | `strip().upper()` never lengthens the ticker and yields a normal symbol (no whitespace at the ends, no lower-case letter) |
| Ticker.NormalizeFixesNormal | trading_app.py:20 | strip-then-upper is the identity exactly on symbols with no surrounding whitespace and no lower-case letter |
| Ticker.MapTickerToYahoo | trading_app.py:11-41 | an empty ticker is returned untouched; every other result is a normal symbol and, unless a metal override applies, starts with the normalised ticker and adds at most three characters |
| Ticker.ForMarket | trading_app.py:22-41 | the market rules keep a normal symbol normal, and except for a metal override they only extend it by at most a three-character suffix |
| Ticker.ForexMapping | trading_app.py:22-32 | XAUUSD→GC=F, XAGUSD→SI=F; every other Forex result ends in "=X", a ticker already ending in "=X" is kept, any other gets "=X" appended |
| Ticker.IdxMapping | trading_app.py:34-37 | Saham Indonesia results always end in ".JK"; the suffix is appended only when missing, so never doubled |
| Ticker.OtherMarketMapping | trading_app.py:39-41 | any other market only trims and upper-cases |
| Ticker.MapTickerIdempotent | trading_app.py:11-41 | mapping a mapped symbol again with the same market changes nothing, unless a metal override was applied |
| Ticker.FuturesCodeReadAsPair | trading_app.py:22-32 | the override breaks idempotence: "GC=F" as Forex maps to "GC=F=X" |
| Ticker.GoldOverride | trading_app.py:20-28 | "xauusd" as Forex maps to "GC=F" |
| Ticker.IdxExample | trading_app.py:34-37 | "bbca" as Saham Indonesia maps to "BBCA.JK" |
| Ticker.CryptoExample | trading_app.py:39-41 | "BTC-USD" as Crypto is unchanged |
| Ticker.TrimLeftUpper | trading_app.py:20 | cutting leading whitespace commutes with upper-casing |
| Ticker.TrimRightUpper | trading_app.py:20 | cutting trailing whitespace commutes with upper-casing |
| Ticker.NormalizeCaseInsensitive | trading_app.py:20 | two tickers with the same upper-cased form normalise to the same symbol |
| Ticker.MapTickerCaseInsensitive | trading_app.py:11-41 | two tickers with the same upper-cased form map to the same provider symbol in every market |
| Ticker.MixedCaseGold | trading_app.py:20-28 | "XauUsd" as Forex maps to "GC=F", like "xauusd" |
| Indicators.Alpha | trading_app.py:63-67 | the smoothing factor 2/(span+1) lies in (0, 1] for every span ≥ 1 |
| Indicators.Ema | trading_app.py:63-67 | the EMA column has one value per close, and each value lies between the lowest and the highest close up to that bar |
| Indicators.EmaAtWithinRange | trading_app.py:63-67 | the EMA at a bar lies between the lowest and the highest close up to that bar |
| Indicators.EmaRecurrence | trading_app.py:63-67 | EMA₀ = close₀ and EMAᵢ = α·closeᵢ + (1−α)·EMAᵢ₋₁ |
| Indicators.EmaPrefix | trading_app.py:63-67 | no look-ahead: the EMA of a prefix of the closes is the prefix of the EMA |
| Indicators.EmaBounded | trading_app.py:63-67 | each EMA value lies within any bounds of the closes up to that bar, so between their minimum and maximum |
| Indicators.EmaConstant | trading_app.py:63-67 | a constant series has a constant EMA equal to the price |
| Indicators.Gain | trading_app.py:48-49 | a gain is never negative, and is positive exactly when the bar is not the first and closes above the previous one |
| Indicators.Loss | trading_app.py:48-50 | a loss is never negative, is positive exactly when the bar is not the first and closes below the previous one, and gain − loss is the price change |
| Indicators.Gains | trading_app.py:48-49 | the gain column has one non-negative value per bar |
| Indicators.Losses | trading_app.py:48-50 | the loss column has one non-negative value per bar |
| Indicators.AvgGain | trading_app.py:52 | the rolling mean of gains is non-negative |
| Indicators.AvgLoss | trading_app.py:53 | the rolling mean of losses is non-negative |
| Indicators.RsiPrefix | trading_app.py:47-57 | no look-ahead: the RSI of a prefix of the closes is the prefix of the RSI |
| Indicators.RsiDefinedness | trading_app.py:47-57 | the RSI is undefined below bar period−1; from there it is defined exactly when the average gain or the average loss is positive (both zero is 0/0) |
| Indicators.RsiAt | trading_app.py:47-57 | the RSI at a bar is undefined during the warm-up (bar < period − 1), and any defined value lies in [0, 100] |
| Indicators.Rsi | trading_app.py:47-57 | the RSI column has one entry per close, none defined during the warm-up, every defined one in [0, 100] |
| Indicators.RsiAsShare | trading_app.py:55-56 | with a positive average loss, RSI = 100·avgGain/(avgGain+avgLoss) |
| Indicators.RsiSaturates | trading_app.py:55-56 | zero average loss with positive average gain gives exactly 100 (pandas: RS = inf) |
| Indicators.RsiBottoms | trading_app.py:55-56 | positive average loss with zero average gain gives exactly 0 |
| Indicators.RsiOfRisingSeries | trading_app.py:47-57 | a strictly rising series has RSI exactly 100 wherever a full window exists (period ≥ 2) |
| Indicators.RsiOfFallingSeries | trading_app.py:47-57 | a strictly falling series has RSI exactly 0 wherever a full window exists |
| Indicators.NoGainInWindow | trading_app.py:49-52 | a window of zero gains has a zero average gain |
| Indicators.NoLossInWindow | trading_app.py:50-53 | a window of zero losses has a zero average loss |
| Indicators.SomeGainInWindow | trading_app.py:49-52 | one positive gain in the window makes the average gain positive |
| Indicators.SomeLossInWindow | trading_app.py:50-53 | one positive loss in the window makes the average loss positive |
| Indicators.RsiOfFlatSeries | trading_app.py:47-57 | a flat series has no defined RSI at any bar |
| Signals.Classify | trading_app.py:71-150 | DATA KURANG exactly when the clean frame has fewer than 60 rows; BUY only when its setup (bull trend, upward cross, price above EMA20, RSI 45–80) holds on the last two rows; any SELL only when the first SELL setup (bear trend, downward cross, price below EMA20, RSI 20–55) holds |
| Signals.NarrowSellRuleUnreachable | trading_app.py:110-133 | the second SELL rule (RSI 30–55) never fires: the first rule's 20–55 band under the same conditions catches it |
| Signals.DecisionTable | trading_app.py:82-150 | each outcome exactly when its conditions hold: BUY, SELL, WAIT-bull-unconfirmed, WAIT-bear-unconfirmed, and the generic WAIT as the remaining cases, with the bull explanation before the bear one |
| Signals.BuySellExclusive | trading_app.py:86-120 | the BUY and SELL conditions never both hold |
| Signals.BuyAtRsi75 | trading_app.py:98-108 | bull trend, an upward cross, price above EMA20 and RSI 75 give BUY (outside the docstring's 45–70) |
| Signals.SellAtRsi25 | trading_app.py:110-120 | bear trend, a downward cross, price below EMA20 and RSI 25 give SELL by the 20–55 rule |
| Sizing.SizeByStopPercent | trading_app.py:153-166 | None exactly when balance, risk %, stop % or price is ≤ 0; otherwise risk = balance·risk/100, qty·price·stop/100 = risk, qty > 0, stop = price less stop %, stop < price, and target − price = 2·(price − stop) |
| Sizing.RiskPerUnitPositive | trading_app.py:158-161 | past the first guard the risk per unit is positive, so the zero guard never decides |
| Sizing.SizeByLevels | trading_app.py:169-185 | None exactly when balance ≤ 0, risk ≤ 0, entry ≤ 0, stop ≤ 0 or entry = stop; otherwise qty·abs(entry−stop) = balance·risk/100 with qty > 0; the ratio is present exactly when a target > 0 and ≠ entry is given, and then ratio·abs(entry−stop) = abs(target−entry) > 0 |
| Sizing.MirroredStopSameSize | trading_app.py:177-179 | long and short setups are sized alike: the stop mirrored across the entry gives the same risk and quantity |
| Sizing.ModesAgree | trading_app.py:153-185 | for a stop under 100 %, entering the percentage mode's stop and target as levels gives the same risk and quantity and a ratio of exactly 2 |
| Sizing.QuantityScalesWithBalance | trading_app.py:177-179 | the quantity is proportional to the balance |
| Sizing.StopPercentExample | trading_app.py:153-166 | (1000, 2 %, 5 %, 100) gives risk 20, 4 units, stop 95, target 110 |
| Sizing.StopPercentZeroPrice | trading_app.py:154-155 | price 0 gives no result |
| Sizing.LevelsExample | trading_app.py:169-185 | (1000, 1 %, entry 50, stop 48, target 56) gives risk 10, 5 units, ratio 3 |
| Pipeline.PriceFrame.constructor | trading_app.py:346-352 | a fresh frame holds the downloaded closes and no indicator column yet |
| Pipeline.PriceFrame.ComputeEmas | trading_app.py:60-68 | writes EMA10/20/50/100/200 of the close column into the frame and changes nothing else |
| Pipeline.PriceFrame.SetRsi | trading_app.py:359 | stores the RSI column and changes nothing else |
| Pipeline.PriceFrame.Rows | trading_app.py:361 | reading the frame row by row gives one row per bar |
| Pipeline.IndicatorRows | trading_app.py:358-359 | the indicator frame has one row per close with that close, no RSI during the warm-up, every RSI in [0, 100] |
| Pipeline.AnalysisOf | trading_app.py:343-366 | no data exactly for an empty series; fewer than 14 closes leave no indicator row; the narrow SELL rule is never the answer |
| Pipeline.WarmUpLeavesNothing | trading_app.py:361-363 | a frame that ends inside the RSI warm-up leaves nothing after `dropna` |
| Pipeline.DropNa | trading_app.py:361 | the clean frame is never longer than the frame |
| Pipeline.DropNaCount | trading_app.py:361 | the clean frame has exactly as many rows as the frame has rows with a defined RSI |
| Pipeline.DropNaAppend | trading_app.py:361 | filtering commutes with concatenation, so order is kept |
| Pipeline.DropNaAllUndefined | trading_app.py:361 | rows without an RSI leave nothing in the clean frame |
| Pipeline.DropNaKeepsLatest | trading_app.py:361-367 | when the latest bar has an RSI, it is the clean frame's last row |
| Pipeline.CleanRsiInRange | trading_app.py:361 | if every defined RSI is in [0, 100], so is every clean row's RSI |
| Pipeline.AnalysedRsiInRange | trading_app.py:358-361 | every row the classifier can read has an RSI in [0, 100] |
| Pipeline.Analyze | trading_app.py:343-366 | building the frame, writing its columns in place, filtering and classifying gives the same result as the analysis function of the closes |
| Pipeline.ShortHistory | trading_app.py:358-366 | fewer than 73 closes (60 clean rows plus 13 warm-up bars) never yield BUY, SELL or WAIT |
| Pipeline.ShortHistoryFewCleanRows | trading_app.py:358-361 | fewer than 73 closes leave fewer than 60 clean rows |
| Pipeline.FlatHistory | trading_app.py:358-364 | a flat price series never reaches the classifier |
| Pipeline.RisingHistoryNoEntry | trading_app.py:358-366 | a strictly rising series of at least 14 bars is classified, but never BUY or SELL (RSI 100 is above both bands) |
| Pipeline.FallingHistoryNoEntry | trading_app.py:358-366 | a strictly falling series of at least 14 bars is classified, but never BUY or SELL (RSI 0 is below both bands) |

## Left out

- The Streamlit dashboard (page setup, sidebar, preset tables, inputs, markdown output, lines 191-570) is presentation only.
- The market-data download `yf.download` (line 346) is a network call into a library. The model starts from the downloaded closes, and an empty download is an empty series.
- The MultiIndex column flattening (lines 351-352) is pandas plumbing. The frame is reduced to its `Close` column plus the indicator columns. The index, the timestamps and the Open/High/Low/Volume columns are not modelled.
- The Plotly charts and the PIL logo and screenshot loading (lines 198, 374-411, 499) are display and I/O.
- Floating-point arithmetic is not modelled: every computation is over exact reals, so rounding, overflow and underflow are out. A pandas NaN appears only as an RSI of `None`. The closes are assumed NaN-free, so EMA columns are never NaN.
- pandas' internal running-sum algorithms for `rolling` and `ewm` are not modelled. The model uses the windowed mean and the recurrence those algorithms compute.
- Ticker.Upper: only ASCII letters are upper-cased. Python's `str.upper` also maps other letters, and some of them to two characters (ß → SS).
- Indicators.Ema and Indicators.Rsi require span ≥ 1 and period ≥ 1. `ewm` rejects a span below 1. A rolling window of 0, which pandas answers with an all-NaN column, is not modelled. The application calls the indicators only with spans 10, 20, 50, 100, 200 and period 14.
- The rationale strings of `generate_smart_signal` are modelled as one tag per branch: `SellRule` and `WaitReason`. The Indonesian wording is not kept.
- `compute_emas` returns the frame it modified. The method modifies the frame and returns nothing, because the returned object is the same one.
- Python truthiness for other input types is not modelled. A missing target is `None`; a target of 0 is treated like a missing one, as `if tp_price` does.
