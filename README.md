# A verified model of a quantitative research pipeline

This project is a Dafny model of the core of a Python equity research pipeline, with proofs of its properties. The pipeline downloads prices, fundamentals and corporate actions. It computes per-instrument factors incrementally behind checkpoints, and turns a day's factors into cross-sectional signals. It scores and selects instruments from those signals, and backtests the result by rebalancing a simulated portfolio once a month.

Each Dafny module follows one part of the program:

- `PortfolioSim` (portfolio.dfy): `Portfolio` in engine/portfolio.py. It is a class with `cash` and an insertion-ordered `positions` dict and provides `total_value`, `rebalance` (directional slippage, linear transaction cost) and `snapshot` (positions plus a cash row with instrument id 0).
- `Backtest` (backtest.dfy): engine/backtest_runner.py: rebalance-date generation ('last', 'first', day N rolled forward), equal weights, and the day loop that rebalances and writes snapshots.
- `Normalizer` (normalizer.dfy): engine/normalizer.py: percentile rank, robust z-score with its MAD = 0 fallback, and the magnitude normaliser.
- `Signals` (signals.dfy): engine/signals.py: `FactorSpec`, `normalize_cross_section`, the long-to-wide pivot, and the argument checks and clauses of the factor query.
- `LinearScoring` (scorer.dfy): engine/scorers/linear.py: the linear scorer and its post transforms.
- `Selectors` (selectors.dfy): engine/selectors/topk.py and rules.py: filtering, then top-k by a column or by a row-wise mean or sum.
- `Frames` (frame.dfy): The DataFrame operations these steps share: column access, `assign`, boolean masks, `sort_values` and `head`.
- `FactorCheckpoint`, `FactorDrivers` (checkpoint.dfy): The checkpoint state machine of the six drivers under engine/compute_factors/. Five drivers guard each instrument and never move a checkpoint back. The jump-risk driver has no guard and sets the checkpoint to `req_end`.
- `FactorKernels` (kernels.dfy): factors/momentum.py, factors/jump_risk.py, factors/dollar_volume.py: row shifts, rolling windows, validity masks, range truncation and the batch write.
- `PriceIngest` (ingest_prices.dfy): The decision logic of `download_prices`: date range, per-instrument counting, batch flushing, and the checkpoint-advance rule.
- `TiingoRecords` (tiingo.dfy): The Tiingo record transform: tiingo_downloader.py and its copy in price_downloader.py.
- `SecFacts` (sec_edgar.dfy): SEC fact filtering, latest-filed de-duplication, row building and the CIK lookup.
- `CorporateActions` (corporate_actions.dfy): Dividend and split classification, chunked writes and the checkpoint rule of corporate_actions_extractor.py.
- `Candidates` (candidates.dfy): Ticker validation, the fetchers' column choices, and the merge and dedupe of the candidate list.
- `FactorStore` (factor_values.dfy): rw_factor_values.py: row normalisation, upsert on (instrument_id, date, factor_name, factor_version), and the `get_factor_values` query builder.
- `Text`, `Common` (text.dfy, common.dfy): Python string operations the code relies on (`str(n)`, `upper`, `strip`, `zfill`, slicing, `<` on `str`), plus Option, Result and the exception kinds.

Conventions:

- **Frames.** A DataFrame is a list of column names plus a list of rows.
  - A row maps column names to `Option<real>`, and `None` is NaN.
  - Frames are values, so a function never changes its input frame. This stands in for the code's `df.copy()`.
- **Money.** Money and factor values are exact `real`s.
- **Dates.** Dates are integer day numbers. The exception is a date the code compares as a string: the SEC `filed` field is compared with `<` exactly as Python compares `str`.
- **Errors.** Every exception the code raises is an `Err(kind)` of a `Result`. The model keeps the order of the checks, so the first failing check decides the kind, as it does in the code.
- **Parameters.** Code that the model does not cover becomes a parameter:
  - the database, the network, the calendar, the kernels of volatility, max drawdown and vol-of-vol, and `get_prices_on_date` (imported by the runner but defined nowhere);
  - the exponential, `log` and pandas quantile interpolation.
  - tanh and sigmoid are written through the exponential. Only its positivity and, where order matters, its monotonicity are assumed.
- **Stateful code.** It stays imperative:
  - `Portfolio` is a `class` whose `rebalance` reassigns its fields;
  - the runner's day loop, the checkpoint drivers, the download loop, the chunk loop and the SEC loops are `method`s with loop invariants.
  - Each method is proved equal to a specification function, and the properties are lemmas about that function.

Places where the code does something other than its comments or docstrings suggest. The model follows the code in each case:

- **Roll-forward of the rebalance day.** For an integer rebalance day, the comment at engine/backtest_runner.py:196 says a roll-forward stays in the same month. The code only checks that the next trading day is a trading day of the run (line 197). `Backtest.RollsIntoNextMonth` shows a date of the following month being chosen. `Backtest.SameMonthDayTarget` keeps a rolled date only when it lies in the same month: `Backtest.SameMonthDatesInMonth` proves every date it yields lies in its month, and `Backtest.SameMonthGap` shows it yields nothing on the calendar where the code rolls over.
- **Jump-risk checkpoint.** compute_jump_risk.py writes `req_end` without taking the maximum with the stored date. Under `force` the checkpoint can move backwards (`FactorCheckpoint.ForcedJumpRegresses`). The other five drivers never regress (`FactorCheckpoint.CountedSpecsMonotone`).
- **Price-download resume point.** `download_prices` advances the `last_price_download` state (price_downloader.py:283). `_resolve_date_range` resumes from the greatest stored price date instead (lines 90-94). A run the advance rule refuses (lines 279-291) therefore still moves the next start past every stored day, so the days its failed instruments miss are not requested again (`PriceIngest.HeldCheckpointDoesNotHoldResume`). `PriceIngest.StateResolveDateRange` resumes from the checkpoint instead, and `PriceIngest.StateResumeRetriesHeldRun` proves a refused run then leaves the next start where it was.
- **Unused exchange cost.** `exchange_cost` is stored in a `Portfolio` but never enters `rebalance`. `PortfolioSim.ExchangeCostUnused` proves two portfolios that differ only in it rebalance to the same book.

## Model

| member | source | states |
|---|---|---|
| PortfolioSim.Portfolio.constructor | engine/portfolio.py:17-27 | A new portfolio holds the given cash and cost parameters and no position. |
| PortfolioSim.Portfolio.TotalValue | engine/portfolio.py:33-40 | `total_value` returns cash plus quantity × price over the held positions that have a price, in dict order; the portfolio is unchanged. |
| PortfolioSim.UnpricedPositionIgnored | engine/portfolio.py:35-38 | An unpriced position adds nothing: removing it from the book leaves the marked value unchanged, and no error is raised. |
| PortfolioSim.HeldIsPricedWhenAllPriced | engine/portfolio.py:95-98 | When every position has a price, the guarded `total_value` sum equals the unguarded `invested_value` sum. |
| PortfolioSim.Portfolio.Rebalance | engine/portfolio.py:46-103 | On success the book becomes `Rebalanced` of the old book. On an exception the outcome is that exception and cash and positions are unchanged, because the raise comes before the fields are assigned. |
| PortfolioSim.Portfolio.FillTargets | engine/portfolio.py:54-92 | The loop over `target_weights` yields the ids in insertion order, the new positions and the summed trading cost of `Fills`, or the first target's exception. |
| PortfolioSim.Portfolio.FillTarget | engine/portfolio.py:59-92 | One iteration: the position and cost `FillFor` gives for the target, or KeyError / ValueError / ZeroDivisionError. |
| PortfolioSim.InvestedValue | engine/portfolio.py:95-98 | `invested_value` is Σ quantity × market price over the new positions. |
| PortfolioSim.Fills | engine/portfolio.py:57-92 | A successful loop gives one fill per target, in target order, each for the target's id, and that id has a price. |
| PortfolioSim.FillsAt | engine/portfolio.py:57-92 | Each fill of a successful loop is the fill its own target gives. |
| PortfolioSim.FillsFailure | engine/portfolio.py:57-64 | The loop fails exactly when some target cannot be filled, and then with the exception of the first such target. |
| PortfolioSim.FillForOk | engine/portfolio.py:62-92 | A successful fill has a positive price. Its buy price is the slipped execution price: price × (1 + slippage) for a buy, price × (1 − slippage) otherwise. Quantity × buy price equals target_total × weight, and the cost is abs(delta) × transaction_cost. |
| PortfolioSim.RebalanceFailure | engine/portfolio.py:57-87 | The rebalance fails exactly when some target cannot be filled. The first such target decides the error: no price gives KeyError, price ≤ 0 gives ValueError, and a zero execution price gives ZeroDivisionError. |
| PortfolioSim.RebalancedShape | engine/portfolio.py:89-103 | After a successful rebalance the positions are exactly the fills, keyed in target order. |
| PortfolioSim.RebalanceKeys | engine/portfolio.py:89-102 | After a successful rebalance the position keys are exactly the target keys, in target order. Non-targets are dropped, and a weight-0 target stays. |
| PortfolioSim.RebalancePosition | engine/portfolio.py:87-92 | Each target is held afterwards with exactly the position its fill computed. |
| PortfolioSim.RebalanceConservesValue | engine/portfolio.py:94-103 | Marked at the same prices, the rebalanced book is worth the old value minus the total trading cost. |
| PortfolioSim.CostIsRateTimesTraded | engine/portfolio.py:80-84 | The total trading cost is transaction_cost × Σ abs(delta_value). It is non-negative for a non-negative rate and does not involve slippage. |
| PortfolioSim.SlippageDoesNotChangeValue | engine/portfolio.py:72-103 | Two rebalances that differ only in slippage leave the same total value. |
| PortfolioSim.SnapshotShape | engine/portfolio.py:109-143 | `snapshot` succeeds exactly when every held position has a price, and raises KeyError otherwise. It gives one row per position in dict order with market value quantity × price, then one cash row: id 0, quantity and market value equal to cash, both prices 1.0. |
| PortfolioSim.PositionRowsShape | engine/portfolio.py:117-131 | The position loop of `snapshot` gives one row per position, or KeyError for the first unpriced one. |
| PortfolioSim.Portfolio.Snapshot | engine/portfolio.py:109-143 | The method returns the rows `SnapshotOf` gives and leaves the portfolio unchanged. |
| PortfolioSim.SnapshotAfterRebalance | engine/portfolio.py:117-119 | A snapshot taken right after a rebalance, at the same prices, cannot raise: every new position was priced. |
| PortfolioSim.BuyAtSlippedPrice | tests/engine/test_portfolio.py:10-21 | Buying weight 1.0 at 100 with 1% slippage records a buy price of 101.0. |
| PortfolioSim.SellToZero | tests/engine/test_portfolio.py:23-39 | Selling 1000 shares to weight 0 keeps the key with quantity 0, and the whole value ends in cash. |
| PortfolioSim.CostReducesValue | tests/engine/test_portfolio.py:41-56 | With any positive transaction cost, a fully invested rebalance of 100000 ends with a total value below 100000. |
| PortfolioSim.ExactWithoutFrictions | engine/portfolio.py:66-100 | Without slippage or cost, weight 1 at price 100 with 100000 cash buys exactly 1000 shares at 100 and leaves cash 0. |
| PortfolioSim.SnapshotOfCashOnly | tests/engine/test_portfolio.py:58-67 | A fresh portfolio with cash 5000 snapshots a single row: the cash row with quantity and market value 5000. |
| PortfolioSim.FillsWellFormed | engine/portfolio.py:54-92 | The ids of a successful loop's fills are the target keys, each with a position and a price. For distinct keys they form a well-formed book. |
| PortfolioSim.FillFor | engine/portfolio.py:59-92 | Defines one iteration of the rebalance loop: its exceptions, then the slipped fill and its cost. `FillsAt`, `FillForOk` and `FillForCost` state its properties. |
| PortfolioSim.Rebalanced | engine/portfolio.py:89-103 | Defines what `rebalance` does to a book. `RebalancedShape`, `RebalanceKeys`, `RebalancePosition`, `RebalanceFailure` and `RebalanceConservesValue` state its properties. |
| PortfolioSim.SnapshotOf | engine/portfolio.py:109-143 | Defines the rows of `snapshot`. `SnapshotShape` and `SnapshotAfterRebalance` state its properties. |
| PortfolioSim.FillsIgnoreExchangeCost | engine/portfolio.py:59-92 | The target loop gives the same fills, or the same exception, whatever the exchange cost. |
| PortfolioSim.ExchangeCostUnused | engine/portfolio.py:24 | Two portfolios that differ only in `exchange_cost` rebalance to the same book, or raise the same exception. |
| Backtest.Weighted | engine/backtest_runner.py:137-138 | Gives one pair per id, in list order, and every pair has the same weight. |
| Backtest.WeightedKeys | engine/backtest_runner.py:138 | The keys of the weighted list are the ids, in order. |
| Backtest.WeightedTotal | engine/backtest_runner.py:137-138 | The weights sum to len(ids) × w. |
| Backtest.EqualWeightSpec | engine/backtest_runner.py:134-138 | `_equal_weight` raises ValueError exactly on an empty list. Otherwise its keys are distinct and are exactly the ids, and each weight is 1/len(ids). |
| Backtest.EqualWeightSumsToOne | engine/backtest_runner.py:134-138 | For distinct non-empty ids the equal weights sum to 1. |
| Backtest.PicksSpec | engine/backtest_runner.py:155-178 | The group-by keeps one date per (year, month) key, and that date is a trading day of the month. No trading day of a month beats the kept date: none is later for 'last', none earlier for 'first'. |
| Backtest.Months | engine/backtest_runner.py:156-157 | The year and month columns: one (year, month) per trading day, in order. |
| Backtest.LastDatesAreMonthEnds | engine/backtest_runner.py:162-169 | 'last' gives exactly one date per month present, and it is the latest trading day of that month. |
| Backtest.FirstDatesAreMonthStarts | engine/backtest_runner.py:171-178 | 'first' gives exactly one date per month present, and it is the earliest trading day of that month. |
| Backtest.DayDatesSpec | engine/backtest_runner.py:184-198 | A date is added by the int branch exactly when it is the target of some month, and every added date is a trading day of the run. |
| Backtest.DayOfMonthHit | engine/backtest_runner.py:187-190 | When day n of a month is itself a trading day, that date is added. |
| Backtest.DayOfMonthOrigin | engine/backtest_runner.py:187-198 | Every added date is either the literal day-n date of a month present, or the calendar's next trading day after a day-n date that is not a trading day. |
| Backtest.DayOfMonthDates | engine/backtest_runner.py:180-198 | For 1 ≤ n ≤ 28 the int branch succeeds. It contains every literal day-n date that is a trading day, and every date it yields is a trading day that comes from some month's day n. |
| Backtest.MonthOrigin | engine/backtest_runner.py:187-198 | The date one month yields comes from that month's day-n target. |
| Backtest.RebalanceDatesAreTradingDays | engine/backtest_runner.py:140-204 | Every generated date is a trading day. The only failures are ValueError for an int outside 1..28 and ValueError for an unsupported setting. |
| Backtest.RollsIntoNextMonth | engine/backtest_runner.py:191-198 | With no trading day from 2024-01-28 to 2024-01-31, January's day-28 rule picks 2024-02-01. The roll-forward checks only membership in the run's trading days, not the month. |
| Backtest.GapMonths | engine/backtest_runner.py:186 | The gap calendar groups into January and then February, once each. |
| Backtest.GapDayDates | engine/backtest_runner.py:186-198 | In the gap calendar, January's target rolls to February 1 and February's target has no successor. |
| Backtest.CollectDayDates | engine/backtest_runner.py:184-198 | The loop of the int branch yields exactly the set `DayDates` describes. |
| Backtest.GenerateRebalanceDates | engine/backtest_runner.py:140-204 | `_generate_rebalance_dates` returns exactly `RebalanceDates`, about which the lemmas above state the contents. |
| Backtest.Priced | engine/backtest_runner.py:109 | An id is kept exactly when it is selected and has a price. |
| Backtest.DayStep | engine/backtest_runner.py:79-128 | A rebalance date keeps the book well formed: each id is held once. |
| Backtest.RunDays | engine/backtest_runner.py:73-128 | The loop over the trading days keeps the book well formed. |
| Backtest.DayStepSkips | engine/backtest_runner.py:87-112 | When scoring raises KeyError or ValueError, or no selected id has a price, the day changes nothing but the optional delete, and the run goes on. |
| Backtest.DayStepWrites | engine/backtest_runner.py:79-128 | A day writes the optional delete and at most one snapshot. With a snapshot, scoring, selection and rebalance all succeeded, and the held ids are exactly the selected ids that have a price. The snapshot is for that date, with one row per position and then the cash row. |
| Backtest.DayStepDates | engine/backtest_runner.py:79-128 | Every delete and insert of a day is for that day. |
| Backtest.AllOnInsert | engine/backtest_runner.py:125-128 | Appending that day's insert keeps every write on the day. |
| Backtest.WritesInAppend | engine/backtest_runner.py:73-128 | Two logs that write only on rebalance trading days concatenate into one that does too. |
| Backtest.WritesOnRebalanceDates | engine/backtest_runner.py:71-128 | Every delete and every insert of a run is for a generated rebalance date that is a trading day. |
| Backtest.RunDaysNext | engine/backtest_runner.py:73-77 | A trading day that is not a rebalance date changes nothing. A rebalance date extends the log with that day's operations, and its outcome becomes the run's. |
| Backtest.RunDaysPrefixRaised | engine/backtest_runner.py:73-128 | Once a day raises, the run stops there: later days add no write and the outcome stays the exception. |
| Backtest.SingleDayWritesOnce | tests/engine/test_backtest_runner.py:28-70 | The test's calendar of one day gives one delete and exactly one snapshot insert for 2024-01-31, with at least one row. |
| Backtest.Run | engine/backtest_runner.py:51-128 | `run` yields the outcome and the writes of `RunBacktest`: a fresh portfolio, the generated dates, then the loop. |
| Backtest.RunBacktestIs | engine/backtest_runner.py:60-73 | A date-generation error ends the run before any write. Otherwise the run is the loop from the fresh book with the initial cash. |
| Backtest.RunLoop | engine/backtest_runner.py:73-128 | The loop's outcome and writes are those of `RunDays`. |
| Backtest.NextDay | engine/backtest_runner.py:73-128 | One more trading day advances the loop state exactly as `RunDays` does on the longer prefix. |
| Backtest.RunDay | engine/backtest_runner.py:79-128 | One rebalance date updates the portfolio and writes exactly what `DayStep` gives. |
| Backtest.EqualWeight | engine/backtest_runner.py:134-138 | Defines the equal-weight dict. `EqualWeightSpec` and `EqualWeightSumsToOne` state its properties. |
| Backtest.Picks | engine/backtest_runner.py:155-178 | Defines the date kept for each month of the group-by. `PicksSpec` states its properties. |
| Backtest.DayTarget | engine/backtest_runner.py:187-198 | Defines one month's date for an int rebalance day, rolled forward as the code does. `DayDatesSpec` and `MonthOrigin` state its properties. |
| Backtest.DayDates | engine/backtest_runner.py:184-198 | Defines the dates of the int branch. `DayDatesSpec`, `DayOfMonthHit`, `DayOfMonthOrigin` and `GapDayDates` state its properties. |
| Backtest.RebalanceDates | engine/backtest_runner.py:140-204 | Defines `_generate_rebalance_dates` and its ValueError. `LastDatesAreMonthEnds`, `FirstDatesAreMonthStarts`, `DayOfMonthDates`, `RebalanceDatesAreTradingDays` and `RollsIntoNextMonth` state its properties. |
| Backtest.RunBacktest | engine/backtest_runner.py:51-128 | Defines `BacktestRunner.run` as a function of its inputs. `Run` is proved equal to it, and `SingleDayWritesOnce` states one of its properties. |
| Backtest.SameMonthDayTarget | engine/backtest_runner.py:196-197 | The intended rebalance date of a month: the rolled-forward trading day only when it lies in the same month. The result is a trading day of that month. |
| Backtest.SameMonthRestrictsCode | engine/backtest_runner.py:196-197 | The intended date is the code's date when that one lies in the month, and none otherwise. |
| Backtest.SameMonthDayDates | engine/backtest_runner.py:184-198 | Defines the dates of the int branch under the same-month rule. `SameMonthDatesInMonth` and `SameMonthGap` state its properties. |
| Backtest.SameMonthDatesInMonth | engine/backtest_runner.py:196-197 | Every date of the same-month rule is a trading day whose month is one of the months of the run. |
| Backtest.SameMonthGap | engine/backtest_runner.py:196-197 | On the calendar where the code rolls into the next month, the same-month rule yields no date. |
| Normalizer.Insert | engine/normalizer.py:104 | Inserting into a sorted list keeps it sorted, adds one element and no value other than the new one. |
| Normalizer.Sort | engine/normalizer.py:104 | The values in increasing order, with the same length and only input values. |
| Normalizer.InsertPermutes | engine/normalizer.py:104 | Insertion adds exactly the new value to the multiset. |
| Normalizer.SortPermutes | engine/normalizer.py:104 | Sorting permutes the values. |
| Normalizer.MedianBetween | engine/normalizer.py:104 | The median lies between any lower and upper bound of the values. |
| Normalizer.MedianOfConstant | engine/normalizer.py:104-105 | The median of values all equal to c is c. |
| Normalizer.Present | engine/normalizer.py:104 | `median` skips NaN: the present values never outnumber the entries. |
| Normalizer.PresentFrom | engine/normalizer.py:104 | Every present value comes from a present entry. |
| Normalizer.PresentHas | engine/normalizer.py:104 | Every present entry is among the present values. |
| Normalizer.MedianOfPresent | engine/normalizer.py:104 | `Series.median()` is NaN exactly when no value is present. |
| Normalizer.MedianOfBetween | engine/normalizer.py:104 | A series whose present values lie in [lo, hi] has its median there. |
| Normalizer.Deviations | engine/normalizer.py:105 | `(values − median).abs()` entry by entry, NaN staying NaN. |
| Normalizer.RobustZscore | engine/normalizer.py:100-111 | The z-score series has the input's index. |
| Normalizer.MadSpec | engine/normalizer.py:104-105 | The MAD is NaN exactly when no value is present, and otherwise it is never negative. |
| Normalizer.MadNonNegative | engine/normalizer.py:105 | The median of non-negative deviations is non-negative. |
| Normalizer.RobustZscoreSpec | engine/normalizer.py:100-111 | A MAD of 0 or NaN makes every entry 0.0, NaN entries included. Otherwise each present value scores (x − median) / MAD and NaN stays NaN. |
| Normalizer.ScaledScores | engine/normalizer.py:111 | With a non-zero MAD each entry is (x − median) / MAD. |
| Normalizer.ZeroScores | engine/normalizer.py:107-109 | With a MAD of 0 or NaN every entry is 0.0. |
| Normalizer.ConstantSeriesIsZero | tests/engine/test_normalizer.py:40-43 | A constant series scores 0 everywhere. |
| Normalizer.MedianScoresZero | engine/normalizer.py:104-111 | A value equal to the median scores exactly 0. |
| Normalizer.SortOneTwoThree | tests/engine/test_normalizer.py:46-49 | [1, 2, 3] is already sorted. |
| Normalizer.PresentOneTwoThree | tests/engine/test_normalizer.py:46-49 | All of [1, 2, 3] are present. |
| Normalizer.MiddleOfThreeIsZero | tests/engine/test_normalizer.py:46-49 | In [1, 2, 3] the middle element scores 0. |
| Normalizer.CountSplits | engine/normalizer.py:27 | Every present value is below, equal to or above x. |
| Normalizer.SameIncludesSelf | engine/normalizer.py:27 | A present value counts among the values equal to itself. |
| Normalizer.BelowGrows | engine/normalizer.py:27 | For x < y, all values at or below x are below y, and all values at or above y are above x. |
| Normalizer.PctRank | engine/normalizer.py:27 | The percentile ranks have the input's index. |
| Normalizer.RankBounds | engine/normalizer.py:27 | A present value's average rank lies in [1, count]. |
| Normalizer.PctRankBounds | engine/normalizer.py:27 | Percentile ranks lie in (0, 1], and they are NaN exactly at the NaN inputs. |
| Normalizer.DivideBounds | engine/normalizer.py:27 | A rank in [1, n] divided by n lies in (0, 1]. |
| Normalizer.RankNormalizeSpec | engine/normalizer.py:5-35 | `rank_normalize` raises ValueError exactly for an unknown range. "0_1" values lie in (0, 1]. "minus1_1" values are 2 × pct − 1 in (−1, 1]. NaN stays NaN. |
| Normalizer.RankStrictlyMonotone | tests/engine/test_normalizer.py:12-31 | A strictly larger value gets a strictly larger percentile rank when ascending and a strictly smaller one otherwise, ties elsewhere included. |
| Normalizer.DivideStrict | engine/normalizer.py:27 | Dividing by a positive count keeps strict order. |
| Normalizer.Negated | engine/normalizer.py:72-73 | `-x` negates every present value and keeps NaN. |
| Normalizer.Clipped | engine/normalizer.py:81 | `clip(lo, hi)` clips every present value and keeps NaN. |
| Normalizer.ClipMonotone | engine/normalizer.py:81-89 | Clipping keeps the order of values. |
| Normalizer.ActivationRange | engine/normalizer.py:114-120 | tanh lies in (−1, 1) and sigmoid in (0, 1). |
| Normalizer.ReciprocalStrict | engine/normalizer.py:116 | 1 / (1 + e) falls strictly as e grows. |
| Normalizer.ActivationMonotone | engine/normalizer.py:114-120 | With an increasing exponential both activations are increasing, strictly on strictly ordered inputs. |
| Normalizer.Activated | engine/normalizer.py:91-95 | The activation is applied to every present value, and NaN stays NaN. |
| Normalizer.Squashed | engine/normalizer.py:83-95 | The squashed series has the input's index. |
| Normalizer.MagnitudeErrors | engine/normalizer.py:76-97 | `magnitude_normalize` fails exactly when the clip quantile is outside (0, 0.5), z_clip ≤ 0, or the activation is unknown. Each check raises ValueError. |
| Normalizer.SquashedSpec | engine/normalizer.py:83-95 | With a non-zero MAD, every present value gets activation(clip(z)) and NaN stays NaN. With a MAD of 0 or NaN, every entry gets activation(0). |
| Normalizer.MagnitudeRange | engine/normalizer.py:66-67 | A successful output lies strictly inside (−1, 1) for tanh and inside (0, 1) for sigmoid. |
| Normalizer.MagnitudeDirection | engine/normalizer.py:71-73 | `ascending=False` is the ascending normaliser applied to −values. |
| Normalizer.MagnitudeNaNs | tests/engine/test_normalizer.py:114-119 | With a non-zero MAD of the clipped series, NaN inputs stay NaN and present inputs stay present. With a MAD of 0 or NaN, every entry, NaN included, maps to activation(0). |
| Normalizer.DivideMonotone | engine/normalizer.py:111 | Dividing by a positive MAD keeps order. |
| Normalizer.ScoreMonotone | engine/normalizer.py:83-95 | The score of a value keeps the order of values. |
| Normalizer.SquashedMonotone | engine/normalizer.py:83-95 | The squashed series keeps the order of present values. |
| Normalizer.MagnitudeMonotone | engine/normalizer.py:38-97 | A direction-adjusted value no larger than another never scores higher, with or without quantile clipping. |
| Normalizer.MagnitudeStrictlyMonotone | tests/engine/test_normalizer.py:52-93 | Without quantile clipping, with a non-zero MAD and both z-scores inside the z clip, a strictly larger direction-adjusted value scores strictly higher. |
| Normalizer.SquashedStrict | engine/normalizer.py:83-95 | Strictly ordered z-scores inside the clip stay strictly ordered after clipping and activation. |
| Normalizer.ScoresStrict | engine/normalizer.py:111 | With a non-zero MAD, a strictly larger value has a strictly larger z-score. |
| Normalizer.Median | engine/normalizer.py:104 | Defines the median of the present values, none for none. `MedianBetween` and `MedianOfConstant` state its properties. |
| Normalizer.Mad | engine/normalizer.py:104-105 | Defines the MAD, the median absolute deviation from the median, NaN for an empty series. `MadSpec` states its properties. |
| Normalizer.RankNormalize | engine/normalizer.py:5-35 | Defines `rank_normalize` for both modes and its ValueError. `RankNormalizeSpec` states its properties. |
| Normalizer.MagnitudeNormalize | engine/normalizer.py:76-97 | Defines `magnitude_normalize`: its checks in order, then the clipped robust score and the activation. `MagnitudeErrors`, `MagnitudeRange`, `MagnitudeDirection`, `MagnitudeNaNs` and `MagnitudeMonotone` state its properties. |
| Signals.DefaultSpec | engine/signals.py:27-33 | A spec is ascending by default and builds rank and mag, with tanh, a 0.01 clip quantile and a z clip of 6. |
| Signals.SignalColumnIsNew | engine/signals.py:59-65 | `{name}_rank` and `{name}_mag` never overwrite the factor column itself. |
| Signals.SignalColumnInjective | engine/signals.py:59-65 | Different methods write different columns. |
| Signals.Signal | engine/signals.py:57-73 | A method's signal has the factor column's length. |
| Signals.SignalErrors | engine/signals.py:57-73 | A method fails only with ValueError. "rank" never fails, and any method other than rank and mag always fails. |
| Signals.Step | engine/signals.py:57-73 | Writing one signal keeps every column and the row count. |
| Signals.StepSpec | engine/signals.py:57-73 | A step fails exactly when its signal does, with the same error. It writes the signal to `{name}_{method}` and leaves every other column as it was. |
| Signals.SpecMethods | engine/signals.py:57-73 | Running a spec's methods keeps every column and the row count. |
| Signals.Specs | engine/signals.py:53-73 | Running the specs keeps every column and the row count. |
| Signals.ApplyMethods | engine/signals.py:57-73 | The imperative method loop computes exactly the spec's methods. |
| Signals.NormalizeCrossSection | engine/signals.py:36-75 | The imperative `normalize_cross_section` returns exactly the cross-section or its exception. |
| Signals.CrossSectionErrors | engine/signals.py:48-55 | A missing id column raises KeyError, and so does a missing first factor column. Every failure is KeyError or ValueError. |
| Signals.SpecMethodsErrors | engine/signals.py:57-73 | A spec's methods fail only with ValueError. |
| Signals.SpecsErrors | engine/signals.py:53-73 | The spec loop fails only with KeyError or ValueError. |
| Signals.CrossSectionColumns | engine/signals.py:45-75 | The result keeps every original column and row and contains every spec's signal columns. |
| Signals.SpecMethodsColumns | engine/signals.py:57-73 | Every method of the spec writes its column. |
| Signals.SpecsColumns | engine/signals.py:53-73 | Every method of every spec writes its column. |
| Signals.SpecMethodsPreserves | engine/signals.py:57-73 | A column that none of the methods writes keeps its values. |
| Signals.SpecMethodsValue | engine/signals.py:57-73 | After a spec's methods, `{name}_{method}` holds that method's signal of the unchanged factor column. |
| Signals.CrossSectionSingleSpec | engine/signals.py:53-75 | With one spec, each method's column holds its signal of the factor column. |
| Signals.CrossSectionDirection | engine/signals.py:58-63 | An ascending spec gives the larger of two present values the higher `_rank`. A descending spec gives it the lower one. |
| Signals.InsertInt | engine/signals.py:141 | Insertion into an increasing list of ids keeps it increasing and adds just that id. |
| Signals.SortedInts | engine/signals.py:141 | The pivot's index holds the distinct ids in increasing order. |
| Signals.IncreasingNamesDistinct | engine/signals.py:141 | Strictly increasing names are distinct. |
| Signals.InsertName | engine/signals.py:141 | Insertion into an increasing list of names keeps it increasing and adds just that name. |
| Signals.SortedNames | engine/signals.py:141 | The pivot's columns are the distinct factor names in increasing order. |
| Signals.Ids | engine/signals.py:141 | The id of each long row, in order. |
| Signals.Factors | engine/signals.py:141 | The factor name of each long row, in order. |
| Signals.CellFound | engine/signals.py:141 | Without duplicates, the cell of a long row's (id, factor) holds that row's value. |
| Signals.CellMissing | engine/signals.py:141 | A cell with no long row is NaN. |
| Signals.PivotErrors | engine/signals.py:136-143 | The pivot raises KeyError exactly for a missing id, factor or value column. It raises ValueError exactly for a repeated (id, factor) cell or a factor named like the id column. |
| Signals.PivotColumns | engine/signals.py:140-147 | The wide frame has the id column, then the distinct factor names in increasing order. |
| Signals.PivotRows | engine/signals.py:140-143 | There is one row per distinct instrument id, ids increasing, with each row's id cell holding its id. |
| Signals.PivotCells | engine/signals.py:140-143 | Each factor cell holds the long row's value for that instrument and factor, or NaN when there is none. |
| Signals.LiteralsDistinct | engine/signals.py:97-109 | The four WHERE clauses are distinct, and so are the four parameter names. |
| Signals.FetchQuerySpec | engine/signals.py:94-115 | The query raises ValueError exactly for no factor names or an empty given universe. It always filters on date and factor names. It filters on version and universe exactly when each is given, with one parameter per clause. |
| Signals.SpecNames | engine/signals.py:163 | The factor names of the specs, in order. |
| Signals.BuildSignalsSpec | engine/signals.py:150-176 | No specs or an empty given universe raises ValueError before any query. A result has the id column and every spec's signal columns. |
| Signals.CrossSection | engine/signals.py:36-75 | Defines `normalize_cross_section` over the specs in order. `CrossSectionErrors`, `CrossSectionColumns`, `CrossSectionSingleSpec` and `CrossSectionDirection` state its properties. |
| Signals.Pivot | engine/signals.py:136-147 | Defines the long-to-wide pivot and its KeyError and ValueError. `PivotErrors`, `PivotColumns`, `PivotRows` and `PivotCells` state its properties. |
| Signals.FetchQuery | engine/signals.py:94-115 | Defines the clauses and parameters of the factor query. `FetchQuerySpec` states its properties. |
| Signals.BuildSignals | engine/signals.py:150-176 | Defines `build_signals` as query, pivot and normalise. `BuildSignalsSpec` states its properties. |
| LinearScoring.DefaultScorer | engine/scorers/linear.py:29-32 | A scorer built from terms alone writes `_score`, with bias 0 and no post transform. |
| LinearScoring.TimesSome | engine/scorers/linear.py:49 | Weighting a present term value gives that term's contribution. |
| LinearScoring.PlusSome | engine/scorers/linear.py:49 | Adding two present floats gives their sum. |
| LinearScoring.WeightedSumSnoc | engine/scorers/linear.py:48-49 | Σ w_i × col_i over the terms is the sum over all but the last term plus the last term's contribution. |
| LinearScoring.LinearSpec | engine/scorers/linear.py:47-49 | A row's accumulated score is present exactly when every term value is present. It then equals bias + Σ w_i × col_i. |
| LinearScoring.LinearPresent | engine/scorers/linear.py:47-49 | NaN absorbs: the score is present exactly when every term value is. |
| LinearScoring.LinearValue | engine/scorers/linear.py:47-49 | With every term value present, the score is bias + Σ w_i × col_i. |
| LinearScoring.Raw | engine/scorers/linear.py:47-49 | There is one raw score per row of the frame. |
| LinearScoring.ScoreSeries | engine/scorers/linear.py:47-49 | The accumulation loop computes the raw score of every row. |
| LinearScoring.Transform | engine/scorers/linear.py:51-61 | A post transform that succeeds keeps the series length. |
| LinearScoring.ScoreSignals | engine/scorers/linear.py:34-64 | The imperative `score`, with its column-check loop, returns exactly the scorer's result. |
| LinearScoring.ScoreErrors | engine/scorers/linear.py:35-45 | Checks run in order: KeyError without `instrument_id`, ValueError for empty terms, KeyError for a missing term column, ValueError for an unknown transform. `score` succeeds exactly when none applies. |
| LinearScoring.TransformSpec | engine/scorers/linear.py:51-61 | A known transform keeps length and NaN positions. None is the identity, tanh lands in (−1, 1), sigmoid in (0, 1) and rank in (−1, 1]. |
| LinearScoring.TransformStrict | engine/scorers/linear.py:51-61 | Each known transform keeps the strict order of present scores. |
| LinearScoring.ScoreSpec | engine/scorers/linear.py:41-64 | The result keeps every other input column unchanged, adds `out_col` and names it the score column. A row's score is NaN exactly when a term value is NaN, and is bias + Σ w_i × col_i when there is no transform. |
| LinearScoring.ScoreOrder | engine/scorers/linear.py:47-63 | Under any transform, a row with all terms present and a smaller weighted sum gets a smaller output score. |
| LinearScoring.LinearExample | tests/engine/test_linear_scorer.py:9-34 | 0.6 × mom_rank − 0.4 × vol_rank on the row (1, −1) is 1. |
| LinearScoring.RankExample | tests/engine/test_linear_scorer.py:48-63 | The rank transform maps 10, 20, 30 to −1/3, 1/3, 1. |
| LinearScoring.Score | engine/scorers/linear.py:34-64 | Defines `LinearScorer.score`: its errors in source order, then the weighted sum and the post transform. `ScoreErrors`, `ScoreSpec` and `ScoreOrder` state its properties. |
| Selectors.DefaultTopK | engine/selectors/topk.py:27-30 | A top-k selector sorts descending with no filters unless told otherwise. |
| Selectors.DefaultRules | engine/selectors/rules.py:26-30 | A rule selector aggregates by mean and sorts descending unless told otherwise. |
| Selectors.ApplyFilters | engine/selectors/topk.py:44-59 | Filtering keeps the frame's columns and its well-formedness. |
| Selectors.FilterLoop | engine/selectors/topk.py:42-59 | The imperative filter loop computes exactly the filtered frame or its exception. |
| Selectors.ApplyFiltersErrors | engine/selectors/topk.py:44-59 | Filtering succeeds exactly when every condition names an existing column and a known operator. The first bad condition decides: a missing column raises KeyError and an unknown operator raises ValueError. |
| Selectors.ApplyFiltersSound | engine/selectors/topk.py:44-59 | Every kept row satisfies every condition, and no row is kept more often than it occurs. |
| Selectors.ApplyFiltersComplete | engine/selectors/topk.py:44-59 | Every row satisfying all conditions is kept. |
| Selectors.TopKSelect | engine/selectors/topk.py:32-67 | The imperative `select` returns exactly the top-k selection or its exception. |
| Selectors.TopKErrors | engine/selectors/topk.py:33-46 | Checks run in order: ValueError for k ≤ 0, KeyError for a missing `instrument_id` or `sort_by` column, then the filter errors. `select` succeeds exactly when none applies. |
| Selectors.TopKSpec | engine/selectors/topk.py:32-67 | The selection has min(k, #filtered) rows, keeps the columns and names `sort_by` the ranking column. Every row passes every filter and none occurs more often than in the input. The rows are sorted by `sort_by`, and none ranks after a left-out filtered row. |
| Selectors.TopKIs | engine/selectors/topk.py:61-67 | A successful selection is the head of the sorted, filtered frame. |
| Selectors.PrefixPrecedes | engine/selectors/topk.py:61-65 | In a sorted frame every row of a head may precede every row after it. |
| Selectors.PresentSumBounds | engine/selectors/rules.py:68-70 | With the present values in [lo, hi], the NaN-skipping sum lies between count × lo and count × hi. |
| Selectors.PresentSumBetween | engine/selectors/rules.py:68-70 | The sum lies between the bounds counted once per present value. |
| Selectors.PresentBoundIsCount | engine/selectors/rules.py:68 | Counting a bound once per present value gives count × bound. |
| Selectors.AggregateSpec | engine/selectors/rules.py:66-72 | A row sum is never NaN. A row mean is NaN exactly when no rank value is present, and otherwise lies within the bounds of the present values. |
| Selectors.DivideBetween | engine/selectors/rules.py:68 | A value between n × lo and n × hi, divided by n > 0, lies in [lo, hi]. |
| Selectors.AggregateIgnores | engine/selectors/rules.py:66-70 | A column that is not a rank column does not affect a row's aggregate. |
| Selectors.PresentIgnores | engine/selectors/rules.py:66-70 | A column that is not a rank column does not affect the present sum or count. |
| Selectors.Scores | engine/selectors/rules.py:66-70 | There is one aggregate score per row. |
| Selectors.RuleSelect | engine/selectors/rules.py:32-77 | The imperative `select` returns exactly the rule-based selection or its exception. |
| Selectors.RulesErrors | engine/selectors/rules.py:33-72 | Checks run in order: ValueError for k ≤ 0, KeyError without `instrument_id`, the rule errors, ValueError for empty rank columns, KeyError for a missing rank column, ValueError for an unknown aggregate. `select` succeeds exactly when none applies. |
| Selectors.ScoredRows | engine/selectors/rules.py:41-70 | After filtering and scoring, every row satisfies each rule and carries the mean or sum of its rank columns as `_selector_score`. |
| Selectors.RulesSpec | engine/selectors/rules.py:32-77 | The selection has min(k, #filtered) rows, sorted by `_selector_score`, which is named the ranking column. Each row satisfies the rules and carries its aggregate score. The selected rows are a sub-multiset of the scored rows, and every selected score precedes every score left after the first k of the sorted frame. |
| Selectors.TopRuleRows | engine/selectors/rules.py:74-77 | Taking the top rows of scored rows keeps them selectable. |
| Selectors.SelectTopK | engine/selectors/topk.py:32-67 | Defines `TopKSelector.select`: its errors in source order, then the first k filtered rows by the ranking column. `TopKErrors`, `TopKSpec` and `TopKIs` state its properties. |
| Selectors.SelectByRules | engine/selectors/rules.py:32-77 | Defines `RuleSelector.select`: its errors in source order, then the rules, the row-wise score and the top k. `RulesErrors` and `RulesSpec` state its properties. |
| Frames.Column | engine/selectors/rules.py:46 | `df[c]` gives one value per row, in row order. |
| Frames.Assign | engine/selectors/rules.py:68 | `df.assign(c=s)` keeps the frame well formed and the row count unchanged. |
| Frames.AssignSpec | engine/selectors/rules.py:68-70 | After the assign, column c holds the new series and every other column is unchanged. The columns keep their order, and a new c is added at the end. |
| Frames.ParseOp | engine/selectors/rules.py:45-56 | An operator is accepted exactly when it is one of `>`, `>=`, `<`, `<=`, `==`. |
| Frames.Where | engine/selectors/rules.py:46 | A boolean mask never adds rows. |
| Frames.WhereSpec | engine/selectors/rules.py:45-54 | The mask keeps exactly the rows whose value satisfies the comparison (NaN never does). No row is duplicated, and the kept rows are a subsequence of the input, so they keep their original order. |
| Frames.WhereSubset | engine/selectors/rules.py:46 | The kept rows are a sub-multiset of the rows. |
| Frames.WhereHolds | engine/selectors/rules.py:46 | Every kept row satisfies the comparison. |
| Frames.WhereKeeps | engine/selectors/rules.py:46 | Every row satisfying the comparison is kept. |
| Frames.Filtered | engine/selectors/topk.py:48-57 | Filtering keeps the columns as they were. |
| Frames.InsertRow | engine/selectors/topk.py:62 | Inserting a row into rows sorted by the column keeps them sorted and adds exactly that row. |
| Frames.SortRows | engine/selectors/topk.py:62 | `sort_values` keeps the row count and orders the rows by the column in the requested direction, NaN last. Every output row is an input row. |
| Frames.InsertRowPermutes | engine/selectors/topk.py:62 | Insertion adds the row once to the multiset of rows. |
| Frames.SortRowsPermutes | engine/selectors/topk.py:62 | Sorting permutes the rows. |
| Frames.TopRows | engine/selectors/topk.py:61-65 | `sort_values(...).head(k)` keeps the frame's columns. |
| Frames.TopRowsSpec | engine/selectors/topk.py:61-65 | The head holds min(k, n) rows. They are sorted and are the first rows of the sorted frame, and no row appears more often than in the frame. |
| Frames.WhereOrder | engine/selectors/rules.py:45-54 | The rows a mask keeps are a subsequence of the input rows. |
| FactorCheckpoint.OneFieldKeyInjective | engine/compute_factors/compute_dollar_volume.py:45 | Keys `prefix{n}:v1` built from different windows are different keys. |
| FactorCheckpoint.TwoFieldKeyInjective | engine/compute_factors/compute_momentum.py:51 | Keys `prefix{a}:{b}:v1` built from different pairs are different keys. |
| FactorCheckpoint.MomentumKeys | engine/compute_factors/compute_momentum.py:15-20 | The four momentum specs give four distinct state keys. |
| FactorCheckpoint.VolatilityKeys | engine/compute_factors/compute_volatility.py:15-18 | The two volatility specs give two distinct state keys. |
| FactorCheckpoint.DollarVolumeKeys | engine/compute_factors/compute_dollar_volume.py:15-18 | The two dollar-volume specs give two distinct state keys. |
| FactorCheckpoint.LastDone | engine/compute_factors/compute_momentum.py:52-58 | A checkpoint is read exactly when the key is stored, and it is the stored date. |
| FactorCheckpoint.ActualStart | engine/compute_factors/compute_momentum.py:54-63 | The start is never before the requested start. With `force`, or with no checkpoint, it is the requested start. Otherwise it is the later of the two, and the stored date itself is recomputed. |
| FactorCheckpoint.CountedTally | engine/compute_factors/compute_momentum.py:73-99 | The failure and zero-row counters together never exceed the number of instruments. |
| FactorCheckpoint.TallyCounts | engine/compute_factors/compute_momentum.py:77-99 | `failed` counts exactly the instruments whose kernel raised, and each one counted did raise. The total written is positive exactly when some instrument wrote a row. |
| FactorCheckpoint.TallyFailed | engine/compute_factors/compute_momentum.py:97-98 | The failure counter equals the number of instruments that raised. |
| FactorCheckpoint.FailedIdsRaised | engine/compute_factors/compute_momentum.py:97-98 | Every instrument counted as failed is an input instrument whose kernel raised. |
| FactorCheckpoint.TallyWritten | engine/compute_factors/compute_momentum.py:88 | The written total is positive exactly when some instrument wrote rows. |
| FactorCheckpoint.NewLastDone | engine/compute_factors/compute_momentum.py:107-110 | The new checkpoint is `req_end`, raised to the stored date when that is later, so it never moves back. |
| FactorCheckpoint.CountedSpecAdvance | engine/compute_factors/compute_momentum.py:48-125 | One spec touches only its own key. It is skipped as up to date exactly when the start is after `req_end`. It writes the checkpoint exactly when it ran and wrote rows, and then writes `NewLastDone`. The stored date never decreases. |
| FactorCheckpoint.CountedSpecs | engine/compute_factors/compute_momentum.py:48 | One report per spec, in spec order. |
| FactorCheckpoint.CountedSpecsMonotone | engine/compute_factors/compute_momentum.py:48-125 | After all specs every checkpoint is still stored, at the same or a later date, and only the driver's own keys can be new. |
| FactorCheckpoint.CountedRunMonotone | engine/compute_factors/compute_momentum.py:23-125 | A guarded driver always finishes without an exception and never moves a checkpoint back. With no tradable instrument or no price it changes nothing. |
| FactorCheckpoint.TallyInstruments | engine/compute_factors/compute_momentum.py:73-99 | The instrument loop computes exactly the tally `CountedTally` describes. |
| FactorCheckpoint.RunCounted | engine/compute_factors/compute_momentum.py:23-125 | The run of a guarded driver (momentum, volatility, dollar volume, max drawdown, vol-of-vol) does exactly what `CountedRun` describes. |
| FactorCheckpoint.UnguardedTotalFails | engine/compute_factors/compute_jump_risk.py:58-67 | The jump loop has no `try`: it fails exactly when some instrument's kernel raises. |
| FactorCheckpoint.UnguardedSpecEffect | engine/compute_factors/compute_jump_risk.py:39-80 | A jump spec raises exactly when it runs and some instrument raises. It touches only its own key, and any write sets that key to `req_end`. Without `force` the stored date never decreases. |
| FactorCheckpoint.UnguardedSpecsMonotone | engine/compute_factors/compute_jump_risk.py:39-80 | Without `force`, no jump checkpoint regresses, including when a spec raises. |
| FactorCheckpoint.ForcedJumpRegresses | engine/compute_factors/compute_jump_risk.py:69-79 | With `force`, a stored checkpoint of 200 is overwritten with an earlier `req_end` of 100: unlike the guarded drivers, there is no max with the old date. |
| FactorCheckpoint.TotalInstruments | engine/compute_factors/compute_jump_risk.py:56-67 | The loop returns the summed rows, or the first exception, exactly as `UnguardedTotal` does. |
| FactorCheckpoint.UnguardedPrefixErr | engine/compute_factors/compute_jump_risk.py:58-67 | Once an instrument raises, the later instruments change nothing. |
| FactorCheckpoint.RunUnguarded | engine/compute_factors/compute_jump_risk.py:20-83 | `run` of the jump driver does exactly what `UnguardedRun` describes. |
| FactorCheckpoint.UnguardedSpecsStep | engine/compute_factors/compute_jump_risk.py:39-80 | One more spec either raises, keeping the store the earlier specs wrote, or appends its report. |
| FactorCheckpoint.RunUnguardedSpec | engine/compute_factors/compute_jump_risk.py:40-80 | One spec of the jump driver gives exactly what `UnguardedSpec` does. |
| FactorCheckpoint.UnguardedSpecsPrefixRaised | engine/compute_factors/compute_jump_risk.py:39-80 | Once a spec raises, the later specs are not run. |
| FactorDrivers.RunMomentum | engine/compute_factors/compute_momentum.py:15-128 | `compute_momentum.run` is the guarded run over the four momentum keys. |
| FactorDrivers.RunVolatility | engine/compute_factors/compute_volatility.py:15-109 | `compute_volatility.run` is the guarded run over the two volatility keys. |
| FactorDrivers.RunDollarVolume | engine/compute_factors/compute_dollar_volume.py:15-109 | `compute_dollar_volume.run` is the guarded run over the two dollar-volume keys. |
| FactorDrivers.RunMaxDrawdown | engine/compute_factors/compute_max_drawdown.py:15-106 | `compute_max_drawdown.run` is the guarded run over the max-drawdown key. |
| FactorDrivers.RunVolVol | engine/compute_factors/compute_volatility_of_volatility.py:17-112 | `compute_volatility_of_volatility.run` is the guarded run over the vol-of-vol key. |
| FactorDrivers.RunJumpRisk | engine/compute_factors/compute_jump_risk.py:15-83 | `compute_jump_risk.run` is the unguarded run over the jump key. |
| FactorCheckpoint.CountedSpec | engine/compute_factors/compute_momentum.py:48-125 | Defines one spec of a guarded driver: the new store and the report. `CountedSpecAdvance` states its properties. |
| FactorCheckpoint.CountedRun | engine/compute_factors/compute_momentum.py:23-125 | Defines `run` of a guarded driver. `CountedRunMonotone` states its properties, and `RunCounted` is proved equal to it. |
| FactorCheckpoint.UnguardedTotal | engine/compute_factors/compute_jump_risk.py:58-67 | Defines the unguarded instrument loop, which the first exception aborts. `UnguardedTotalFails` states its properties. |
| FactorCheckpoint.UnguardedSpec | engine/compute_factors/compute_jump_risk.py:39-80 | Defines one spec of compute_jump_risk. `UnguardedSpecEffect` states its properties. |
| FactorCheckpoint.UnguardedSpecs | engine/compute_factors/compute_jump_risk.py:39-80 | Defines the specs in order, keeping checkpoints written before an exception. `UnguardedSpecsMonotone` and `UnguardedSpecsPrefixRaised` state its properties. |
| FactorCheckpoint.UnguardedRun | engine/compute_factors/compute_jump_risk.py:20-83 | Defines `run` of compute_jump_risk. `ForcedJumpRegresses` states its properties, and `RunUnguarded` is proved equal to it. |
| FactorKernels.Commit | factors/momentum.py:115-126 | A committed batch returns its length. A failed write is rolled back, returns 0 and commits nothing. |
| FactorKernels.Kept | factors/momentum.py:78-89 | The kept rows, in increasing row order, are exactly the rows whose date is in the range and that have a value. |
| FactorKernels.Emit | factors/momentum.py:101-113 | One record per kept row, in row order. Each carries the instrument, the factor name, version and arguments, config {} and source "internal", and is dated inside the range. |
| FactorKernels.MomentumLoadsHistory | factors/momentum.py:35-36 | The load starts `(lookback + skip + 10) × 2` days early, strictly before the requested start. |
| FactorKernels.MomentumValues | factors/momentum.py:74-76 | The factor column holds each row's momentum. |
| FactorKernels.MomentumMeaning | factors/momentum.py:74-87 | A momentum value exists exactly when both anchors, skip and skip + lookback rows back, exist and are positive. It is then p0/p1 − 1, above −1, positive exactly when the price rose and zero exactly when it is unchanged. |
| FactorKernels.RatioSign | factors/momentum.py:76 | For positive prices the ratio is positive, above 1 exactly when p0 > p1, and 1 exactly when they are equal. |
| FactorKernels.MomentumRows | factors/momentum.py:101-113 | Every momentum record carries the instrument, `mom_{lookback}d[_skip{skip}]`, the version and the arguments, and is dated inside the range. |
| FactorKernels.EmitSound | factors/momentum.py:101-113 | Every emitted record holds the date and value of some row that has a value. |
| FactorKernels.EmitComplete | factors/momentum.py:78-113 | Every row in range with a value has its record. |
| FactorKernels.MomentumRowsMeaning | factors/momentum.py:74-113 | The momentum records are exactly the momentum values of the rows in range that have one. |
| FactorKernels.Momentum | factors/momentum.py:17-126 | An empty range returns 0 and loads nothing. Otherwise the history from the buffered start is loaded. A failed or unusable load, or a failed write, writes nothing. Otherwise `MomentumRows` is committed and its length returned. |
| FactorKernels.JumpNames | factors/jump_risk.py:18-19 | `jump_{w}d_max` and `jump_{w}d_cnt` are two different factor names. |
| FactorKernels.JumpLoadStart | factors/jump_risk.py:46-47 | The load starts `(window + 5) × 2` days before the requested start. |
| FactorKernels.WindowMax | factors/jump_risk.py:96-98 | The rolling maximum is at least every jump value of the window and is one of them. |
| FactorKernels.WindowCount | factors/jump_risk.py:99 | The rolling count never exceeds the window length. |
| FactorKernels.WindowCountPositive | factors/jump_risk.py:99 | The count is positive exactly when some day of the window is a jump. |
| FactorKernels.JumpBounds | factors/jump_risk.py:85-106 | Both statistics are defined exactly on full windows. There the count is at most the window, and the maximum is 0 or a gap in [threshold, limit]. With a positive threshold the maximum is positive exactly when the count is. |
| FactorKernels.JumpMaxValues | factors/jump_risk.py:98 | The `jump_max` column holds each row's rolling maximum. |
| FactorKernels.JumpRows | factors/jump_risk.py:112-139 | Two records per kept row, in order: the maximum, then the count. |
| FactorKernels.JumpBatch | factors/jump_risk.py:112-139 | The append loop builds exactly `JumpRows`. |
| FactorKernels.JumpRowsStep | factors/jump_risk.py:113-139 | One more kept row appends its pair. |
| FactorKernels.JumpRiskRowsEven | factors/jump_risk.py:112-139 | A jump batch is always an even number of records. |
| FactorKernels.JumpRiskRowsShape | factors/jump_risk.py:116-139 | Record pair i is `jump_{w}d_max` then `jump_{w}d_cnt`, both for the instrument and version on the same day of the range. |
| FactorKernels.JumpRiskRowsSound | factors/jump_risk.py:106-139 | Every pair holds the jump maximum and count of a row with a full window. |
| FactorKernels.JumpRiskRowsPairAt | factors/jump_risk.py:106-139 | Pair i holds the statistics of some row with a full window. |
| FactorKernels.JumpRowsPair | factors/jump_risk.py:113-139 | Pair i of the batch belongs to the i-th kept row. |
| FactorKernels.JumpRiskRowsComplete | factors/jump_risk.py:101-139 | Every row in range with a full window has its pair in the batch. |
| FactorKernels.JumpRiskRowsHas | factors/jump_risk.py:101-139 | One row in range with a full window has its pair. |
| FactorKernels.JumpRisk | factors/jump_risk.py:22-152 | An empty range returns 0 and loads nothing. Otherwise the buffered history is loaded. A failed or unusable load, or a failed write, writes nothing. Otherwise the pairs of `JumpRiskRows` are committed and their number of records returned. |
| FactorKernels.DollarVolumeLoadStart | factors/dollar_volume.py:41-42 | The load starts `(window + 10) × 2` days before the requested start. |
| FactorKernels.MaskedSum | factors/dollar_volume.py:83-89 | A non-empty window of valid dollar volumes has a positive sum. |
| FactorKernels.DollarVolumeMeaning | factors/dollar_volume.py:83-92 | A value exists exactly when the window is full and every row in it has price > 0, volume ≥ 0 and a positive product. The mean is then positive, so the `x > 0` guard always passes and the value is log(mean). |
| FactorKernels.DollarVolumeValues | factors/dollar_volume.py:89-92 | The factor column holds each row's log mean dollar volume. |
| FactorKernels.DollarVolumeRows | factors/dollar_volume.py:113-125 | Every record carries the instrument, `dv_{w}d_log`, the version and the arguments, and is dated inside the range. |
| FactorKernels.DollarVolumeRowsMeaning | factors/dollar_volume.py:83-125 | The records are exactly the values of the rows in range whose window is full and valid. |
| FactorKernels.DollarVolume | factors/dollar_volume.py:19-138 | An empty range returns 0 and loads nothing. Otherwise the buffered history is loaded. A failed or unusable load, or a failed write, writes nothing. Otherwise `DollarVolumeRows` is committed and its length returned. |
| FactorKernels.MomentumAt | factors/momentum.py:74-87 | Defines the momentum of one row. `MomentumMeaning` states its properties. |
| FactorKernels.JumpRiskRows | factors/jump_risk.py:112-139 | Defines the batch of a jump-risk call. `JumpRiskRowsEven`, `JumpRiskRowsShape`, `JumpRiskRowsSound` and `JumpRiskRowsComplete` state its properties. |
| FactorKernels.DollarVolumeAt | factors/dollar_volume.py:89-92 | Defines the dollar-volume value of one row. `DollarVolumeMeaning` states its properties. |
| PriceIngest.ResolveDateRange | data_download/input/price_downloader.py:69-98 | RuntimeError exactly when no end is given and the calendar has no previous trading day. The end is the given one, else the previous trading day. The start is the given one, else the day after the latest stored price, else the default start. |
| PriceIngest.ResumeAfterStored | data_download/input/price_downloader.py:90-94 | Resuming without a start never re-requests a day that already has stored prices. |
| PriceIngest.AbsoluteFailureAllowance | data_download/input/price_downloader.py:128 | `int(0.005 * requested)` is ⌊requested / 200⌋. |
| PriceIngest.ShouldAdvanceMeaning | data_download/input/price_downloader.py:101-130 | `_should_advance_state` holds exactly when the successes reach the minimum, something was requested, failed < rate × requested, and failed ≤ max(20, ⌊requested / 200⌋). |
| PriceIngest.RateBound | data_download/input/price_downloader.py:127-130 | For a positive request count, the failure-rate test `failed / requested < rate` is the same as `failed < rate × requested`. |
| PriceIngest.ShouldAdvanceMonotone | data_download/input/price_downloader.py:101-130 | Fewer failures never stop a checkpoint that would advance. |
| PriceIngest.DefaultRuleSmallUniverse | data_download/input/price_downloader.py:106-130 | With the defaults and at most 2000 requests the absolute allowance of 20 never binds. The checkpoint advances exactly when something succeeded and fewer than 1% of the requests failed. |
| PriceIngest.FateOf | data_download/input/price_downloader.py:213-247 | An instrument fails exactly when its fetch raises, returns None, or returns records whose transform raises. It is fetched only with records whose transform gives a non-empty batch. |
| PriceIngest.Flush | data_download/input/price_downloader.py:249-273 | A batch write always empties the batch. On commit its rows are added to the records; on rollback one failure is counted. The other counters are unchanged. |
| PriceIngest.FateAtPrefix | data_download/input/price_downloader.py:201-247 | An instrument's fate does not depend on the instruments after it. |
| PriceIngest.StepAccounts | data_download/input/price_downloader.py:201-261 | One iteration keeps the loop's bookkeeping and counts the instrument under its fate. |
| PriceIngest.LoopLast | data_download/input/price_downloader.py:201-261 | The loop and the per-fate counts unfold one instrument at a time. |
| PriceIngest.LoopAccounting | data_download/input/price_downloader.py:201-261 | Throughout the loop, every instrument is requested once and counted as exactly one of success, skipped or failed. Beyond the failed instruments, `failed` also counts rolled-back writes. Committed plus pending rows never exceed the fetched rows, and equal them while every write commits. The pending batch stays below the batch size. |
| PriceIngest.FinishAccounting | data_download/input/price_downloader.py:201-273 | After the final flush nothing is pending and `requested` is the instrument count. success + skipped + failed instruments make up all of them. When every write commits, `records` is every fetched row and `failed` is exactly the failed instruments. |
| PriceIngest.Selected | data_download/input/price_downloader.py:186-190 | A non-empty `asset_types` keeps exactly the instruments of those types. Without it every instrument is kept. |
| PriceIngest.Download | data_download/input/price_downloader.py:136-317 | Without a token or a connection it returns all zeros. The only exception is the RuntimeError of the date range, which leaves the store alone. At most the price checkpoint key changes. |
| PriceIngest.UpToDateIsNoOp | data_download/input/price_downloader.py:166-181 | A range whose start is after its end makes no request, returns all zeros with `requested` 0, and leaves the checkpoint alone. |
| PriceIngest.CheckpointRule | data_download/input/price_downloader.py:278-287 | The checkpoint changes only to the latest stored price date after the run, and only when the advance rule holds for the run's counters. |
| PriceIngest.DownloadLoop | data_download/input/price_downloader.py:199-273 | The instrument loop followed by the final flush computes exactly the counters `Finish(Loop(...))` describes. |
| PriceIngest.ShouldAdvance | data_download/input/price_downloader.py:101-130 | Defines `_should_advance_state`. `ShouldAdvanceMeaning` and `ShouldAdvanceMonotone` state its properties. |
| PriceIngest.Loop | data_download/input/price_downloader.py:201-261 | Defines the instrument loop of `download_prices`. `LoopAccounting` states its properties. |
| PriceIngest.Finish | data_download/input/price_downloader.py:201-273 | Defines the loop followed by the final flush. `FinishAccounting` states its properties, and `DownloadLoop` is proved equal to it. |
| PriceIngest.HeldCheckpointDoesNotHoldResume | data_download/input/price_downloader.py:86-98 | After a run the advance rule refuses, the checkpoint is unchanged, yet the next resolved start still lies after the greatest stored price date. |
| PriceIngest.StateResolveDateRange | data_download/input/price_downloader.py:279-291 | The resume the checkpoint implies: the given start, else the day after `last_price_download`, else the default start. The end and the RuntimeError are those of `_resolve_date_range`. |
| PriceIngest.StateResumeRetriesHeldRun | data_download/input/price_downloader.py:279-291 | Resuming from the checkpoint, a refused run leaves the next start unchanged, and an advancing run moves it to the day after the greatest stored date. |
| TiingoRecords.GetOr | data_download/input/tiingo_downloader.py:95-106 | `record.get(key, default)` returns the stored value, JSON null included, when the key is present, and the default otherwise. |
| TiingoRecords.DateText | data_download/input/tiingo_downloader.py:89 | `record["date"][:10]` is the first min(10, len) characters of the date text. It raises KeyError when the key is missing and TypeError when the value is not a string. |
| TiingoRecords.Convert | data_download/input/tiingo_downloader.py:89-108 | An element converts exactly when its date is usable. Otherwise it raises the date's error. |
| TiingoRecords.ConvertFields | data_download/input/tiingo_downloader.py:91-108 | A converted row has the given instrument id, the source "tiingo" and the 10-character date. Each price and volume field is copied, with a missing one as null. Dividends default to 0 and splits to 1. |
| TiingoRecords.Transform | data_download/input/tiingo_downloader.py:75-111 | The transform succeeds exactly when every element has a usable date. It gives one converted row per element, in order. |
| TiingoRecords.TransformRaisesFirst | data_download/input/tiingo_downloader.py:87-89 | A failing transform raises the error of the first element without a usable date. |
| TiingoRecords.TransformOwner | data_download/input/tiingo_downloader.py:91-108 | Every row belongs to the instrument and comes from "tiingo". |
| TiingoRecords.TransformLoop | data_download/input/price_downloader.py:366-402 | The append loop of `transform_tiingo_price_data_to_db_format` computes exactly the transform. |
| SecFacts.PeriodType | data_download/input/sec_edgar_fundamental_single.py:134-139 | FY maps to Annual and Q1–Q4 to Quarterly. Any other fiscal period raises ValueError. |
| SecFacts.DurationDays | data_download/input/sec_edgar_fundamental_single.py:128-131 | Start plus the result is the end day. It raises ValueError exactly when one of the dates does not parse. |
| SecFacts.KeepRecord | data_download/input/sec_edgar_fundamental_single.py:142-166 | Kept: FY facts, quarterly facts without both ends, and quarterly periods of 80–110 days. Dropped: unknown fiscal periods. A quarterly period with an unparsable date raises ValueError. |
| SecFacts.Passes | data_download/input/sec_edgar_fundamental_single.py:173-182 | A fact passes exactly when its form and fiscal period are allowed, `_keep_record` holds and it has a value. It raises exactly when the form is allowed and `_keep_record` raises. |
| SecFacts.Filtered | data_download/input/sec_edgar_fundamental_single.py:172-182 | The filter loop succeeds exactly when no fact's test raises. Otherwise it raises ValueError. |
| SecFacts.FilteredMembers | data_download/input/sec_edgar_fundamental_single.py:172-182 | The kept facts are exactly the input facts that pass, and there are no more of them than inputs. |
| SecFacts.FilteredRaises | data_download/input/sec_edgar_fundamental_single.py:173-182 | A fact whose test raises after a clean prefix makes the whole loop raise. |
| SecFacts.FilteredStep | data_download/input/sec_edgar_fundamental_single.py:173-182 | One loop iteration appends the fact exactly when it passes. |
| SecFacts.KeysOf | data_download/input/sec_edgar_fundamental_single.py:186-189 | The key of each fact is (metric, end, fp), in order. |
| SecFacts.BestOf | data_download/input/sec_edgar_fundamental_single.py:184-191 | The `best` dict's key order and its entries agree. |
| SecFacts.BestStep | data_download/input/sec_edgar_fundamental_single.py:185-191 | One iteration of the dedupe loop is one insertion or overwrite step. |
| SecFacts.BestKeys | data_download/input/sec_edgar_fundamental_single.py:184-193 | The keys of `best` are the input keys, deduplicated in order of first occurrence. |
| SecFacts.Values | data_download/input/sec_edgar_fundamental_single.py:193 | `list(best.values())` has one element per key. |
| SecFacts.BelowLater | data_download/input/sec_edgar_fundamental_single.py:190 | On filing dates, c ≤ a < b gives c < b. |
| SecFacts.FirstLatestExtend | data_download/input/sec_edgar_fundamental_single.py:185-191 | A fact that is the first of the latest stays so when facts are appended. |
| SecFacts.BestEntries | data_download/input/sec_edgar_fundamental_single.py:185-191 | Each entry of `best` is an input fact filed under its own key. |
| SecFacts.BestCovers | data_download/input/sec_edgar_fundamental_single.py:185-191 | Every input key has an entry. |
| SecFacts.BestLatest | data_download/input/sec_edgar_fundamental_single.py:188-191 | No fact of a key was filed later than the key's entry. A missing filing date counts as "0000-00-00". |
| SecFacts.FirstAtReplaced | data_download/input/sec_edgar_fundamental_single.py:190-191 | A strictly later filing that replaces the entry was filed after every earlier fact of its key. |
| SecFacts.FirstAtNew | data_download/input/sec_edgar_fundamental_single.py:190-191 | A fact with a new key is the first fact of that key. |
| SecFacts.BestFirstAt | data_download/input/sec_edgar_fundamental_single.py:190-191 | The entry of a key is the first of that key's latest filings. |
| SecFacts.DedupeKeys | data_download/input/sec_edgar_fundamental_single.py:184-193 | Every survivor is an input fact. Exactly one survives per key, in order of first occurrence. |
| SecFacts.DedupeLatest | data_download/input/sec_edgar_fundamental_single.py:184-193 | No input fact was filed later than the survivor of its key. |
| SecFacts.DedupeFirst | data_download/input/sec_edgar_fundamental_single.py:190 | Among equally late filings, the first one seen survives, since the comparison is strict. |
| SecFacts.DedupeUniqueKeys | data_download/input/sec_edgar_fundamental_single.py:184-193 | The survivors have pairwise distinct keys. |
| SecFacts.DedupeAmended | data_download/input/sec_edgar_fundamental_single.py:190-191 | A later-filed fact of the same key replaces the earlier one in its place, next to a fact of another key. |
| SecFacts.NormalizedPasses | data_download/input/sec_edgar_fundamental_single.py:169-193 | Every normalised fact is an input fact with an allowed form, an allowed fiscal period and a value, so its period type resolves. |
| SecFacts.NormalizeAndDedupe | data_download/input/sec_edgar_fundamental_single.py:169-193 | The two imperative loops compute exactly `normalize_and_dedupe_records`. |
| SecFacts.RowOf | data_download/input/sec_edgar_fundamental_single.py:242-259 | A row is built exactly when the fiscal period is allowed and the end and value exist. It carries the id, metric, currency, source and value. Report date and period end are the first 10 characters of `end`. Period type follows fp. The period start is present exactly for a non-empty start. |
| SecFacts.PickedRows | data_download/input/sec_edgar_fundamental_single.py:242-259 | Succeeds exactly when every picked fact yields a row, giving the rows one per fact in order. |
| SecFacts.PickedRowsRaise | data_download/input/sec_edgar_fundamental_single.py:242-259 | The first picked fact that raises, after a clean prefix, decides the loop's exception. |
| SecFacts.PickedRowsRaiseEarlier | data_download/input/sec_edgar_fundamental_single.py:242-259 | The same, when the failing fact is not the last. |
| SecFacts.PickedRowsInitErr | data_download/input/sec_edgar_fundamental_single.py:242-259 | An exception among the earlier facts is the loop's exception. |
| SecFacts.PickedRowsLastErr | data_download/input/sec_edgar_fundamental_single.py:242-259 | With a clean prefix, the last fact's exception is the loop's exception. |
| SecFacts.UnitRows | data_download/input/sec_edgar_fundamental_single.py:232-259 | Every row of a unit has the instrument id, data source, metric name and upper-cased unit as currency. |
| SecFacts.UnitRowsMeaning | data_download/input/sec_edgar_fundamental_single.py:236-259 | After normalisation, a unit raises only for a picked fact without an end. Otherwise it yields one row per picked fact. |
| SecFacts.UnitsRows | data_download/input/sec_edgar_fundamental_single.py:232-259 | Every row of a tag carries that tag's metric name. |
| SecFacts.UnitsRowsRaise | data_download/input/sec_edgar_fundamental_single.py:232-259 | The first unit that raises, after a clean prefix, decides the exception. |
| SecFacts.UnitsRowsRaiseEarlier | data_download/input/sec_edgar_fundamental_single.py:232-259 | The same, when the failing unit is not the last. |
| SecFacts.UnitsRowsInitErr | data_download/input/sec_edgar_fundamental_single.py:232-259 | An exception among the earlier units is the loop's exception. |
| SecFacts.UnitsRowsLastErr | data_download/input/sec_edgar_fundamental_single.py:232-259 | With a clean prefix, the last unit's exception is the loop's exception. |
| SecFacts.UnitsRowsStep | data_download/input/sec_edgar_fundamental_single.py:232-259 | One more unit appends its rows. |
| SecFacts.TagsOf | data_download/input/sec_edgar_fundamental_single.py:204-208 | Exactly the tags of a taxonomy that have units are yielded. |
| SecFacts.FactTags | data_download/input/sec_edgar_fundamental_single.py:199-208 | `iterate_all_fact_tags` yields exactly the tags with units of the dict-valued taxonomies. |
| SecFacts.AllRows | data_download/input/sec_edgar_fundamental_single.py:227-259 | Every row to insert has the instrument id and the data source. |
| SecFacts.AllRowsRaise | data_download/input/sec_edgar_fundamental_single.py:229-259 | The first tag that raises, after a clean prefix, decides the exception. |
| SecFacts.AppendPicked | data_download/input/sec_edgar_fundamental_single.py:242-259 | Appending the picked rows to `to_insert` adds exactly PickedRows, or raises its exception. |
| SecFacts.AppendUnit | data_download/input/sec_edgar_fundamental_single.py:232-259 | The unit loop body appends exactly the unit's rows, or raises its exception. |
| SecFacts.AppendTag | data_download/input/sec_edgar_fundamental_single.py:232-259 | The loop over a tag's units appends exactly that tag's rows, or raises its exception. |
| SecFacts.DownloadRows | data_download/input/sec_edgar_fundamental_single.py:227-259 | The nested loops build exactly the rows of every yielded tag. |
| SecFacts.CikText | data_download/input/sec_edgar_fundamental_single.py:51 | `str(int(cik)).zfill(10)` is all digits, at least 10 long, and denotes the CIK. |
| SecFacts.CikFromTicker | data_download/input/sec_edgar_fundamental_single.py:41-53 | Raises ValueError exactly when no entry matches the upper-cased, stripped ticker. Otherwise it returns the zero-padded CIK of the first match. |
| SecFacts.ExamplePasses | tests/data_download/test_sec_edgar_fundamental_single.py:46-68 | The annual fact and both Q1 facts pass. The 271-day Q3 figure does not. |
| SecFacts.ExampleFiltered | tests/data_download/test_sec_edgar_fundamental_single.py:46-68 | Filtering keeps the annual fact and both Q1 facts. |
| SecFacts.ExampleFilteredFirst | tests/data_download/test_sec_edgar_fundamental_single.py:53-59 | The first two records leave the annual fact. |
| SecFacts.ExampleNormalized | tests/data_download/test_sec_edgar_fundamental_single.py:87-88 | Normalising the test's facts leaves the annual fact and the amended Q1. |
| SecFacts.ExampleRows | tests/data_download/test_sec_edgar_fundamental_single.py:94-110 | The two rows are written under us-gaap.Revenues in USD, dated by the period end, with the amended value 76000000000. |
| SecFacts.Dedupe | data_download/input/sec_edgar_fundamental_single.py:184-193 | Defines the latest-filed de-duplication. `DedupeKeys`, `DedupeLatest`, `DedupeFirst` and `DedupeUniqueKeys` state its properties. |
| SecFacts.Normalized | data_download/input/sec_edgar_fundamental_single.py:169-193 | Defines `normalize_and_dedupe_records`. `NormalizedPasses` states its properties, and `NormalizeAndDedupe` is proved equal to it. |
| CorporateActions.ResolveRange | data_download/input/corporate_actions_extractor.py:39-64 | The range becomes the empty sentinel exactly when there is no end and no stored price, or no start, no checkpoint and no stored price. Otherwise it ends at the given end, else the latest price date. It starts at the given start, else the day after the checkpoint, else the earliest price date. |
| CorporateActions.CaughtUpIsNoOp | data_download/input/corporate_actions_extractor.py:53-57 | A run without dates, once the checkpoint has reached the latest price date, has nothing to do (start > end). |
| CorporateActions.Query | data_download/input/corporate_actions_extractor.py:73-87 | The query returns exactly the price rows in the range with a non-zero dividend or a split factor other than 1. |
| CorporateActions.ActionsOf | data_download/input/corporate_actions_extractor.py:90-119 | A row gives a DIVIDEND_CASH action exactly when its dividend is non-zero, first and carrying that value. It gives a split action exactly when the factor is not 1, last and carrying the factor: SPLIT above 1, REVERSE_SPLIT below. Each action carries the row's instrument, its date, currency USD and source tiingo. |
| CorporateActions.AllActions | data_download/input/corporate_actions_extractor.py:88-121 | Every extracted action is in USD from tiingo. |
| CorporateActions.AllActionsAppend | data_download/input/corporate_actions_extractor.py:90-121 | The actions follow the row order: two runs of rows give their actions one after the other. |
| CorporateActions.AllActionsFromRows | data_download/input/corporate_actions_extractor.py:90-121 | Every action belongs to the instrument and date of some returned row. |
| CorporateActions.AllActionsCount | data_download/input/corporate_actions_extractor.py:160 | `events` is the number of dividends plus the number of splits among the rows. |
| CorporateActions.ExtractActions | data_download/input/corporate_actions_extractor.py:88-121 | The append loop builds exactly the actions `AllActions` describes. |
| CorporateActions.ChunksBounded | data_download/input/corporate_actions_extractor.py:165-166 | Each chunk holds 1 to batch_size actions, and there are ⌈n / batch_size⌉ of them. |
| CorporateActions.ChunksStep | data_download/input/corporate_actions_extractor.py:165-166 | The chunk starting at i is `actions[i : i + batch_size]`, cut at the end, and the next one starts where it stops. |
| CorporateActions.ChunkLoopStep | data_download/input/corporate_actions_extractor.py:165-169 | After one more chunk is written, the actions written so far are still the concatenation of the chunks written. |
| CorporateActions.InsertChunks | data_download/input/corporate_actions_extractor.py:165-169 | `range(0, n, 0)` raises ValueError and a negative step writes nothing. Otherwise the loop succeeds exactly when every chunk insert succeeds, writing every action once and in order. The first failing insert stops it, after the chunks before it are written. |
| CorporateActions.Extract | data_download/input/corporate_actions_extractor.py:127-184 | With no connection, or an empty range, it returns zero counts and changes nothing. Otherwise `events` counts the actions of the range and `inserted` equals it for a positive batch size. On success the rows written are exactly the actions of the queried prices, in order. On failure they are the chunks before the first failing insert. The checkpoint becomes the latest price date when there is one, and a failure leaves it alone. |
| CorporateActions.Events | data_download/input/corporate_actions_extractor.py:160 | Defines the count of actions. `AllActionsCount` states its properties. |
| CorporateActions.Chunks | data_download/input/corporate_actions_extractor.py:165-166 | Defines the slices `actions[i : i + size]`. `ChunksBounded` and `ChunksStep` state its properties. |
| Candidates.LeadingUpper | data_download/input/tradable_candidates.py:19 | The length of the run of letters A–Z at the start of the string: all of that prefix is uppercase, and the next character is not. |
| Candidates.LeadingUpperAt | data_download/input/tradable_candidates.py:19 | Any k where an all-uppercase prefix ends at a non-uppercase character, or at the end, is that length. |
| Candidates.ValidTickerIsPattern | data_download/input/tradable_candidates.py:19-25 | `is_valid_us_ticker` accepts a string exactly when `^[A-Z]{1,5}([.-][A-Z]{1,2})?$` matches it in full. |
| Candidates.EmptyTickerInvalid | data_download/input/tradable_candidates.py:23-24 | The empty ticker is rejected. |
| Candidates.ClassShareValid | data_download/input/tradable_candidates.py:19 | "BRK.B" and "BRK-B" are both valid. |
| Candidates.MalformedInvalid | data_download/input/tradable_candidates.py:19 | Six letters, a three-letter suffix and lower case are each rejected. |
| Candidates.RewriteKeepsValidity | data_download/input/tradable_candidates.py:39 | Rewriting '.' to '-' never changes whether a ticker is valid. |
| Candidates.Dashed | data_download/input/tradable_candidates.py:39 | `str.replace(".", "-")` keeps the length, replaces each '.' by '-' and changes nothing else, so no '.' is left. |
| Candidates.ColumnIndex | data_download/input/tradable_candidates.py:83-85 | A column is found exactly when the table has it, at a position that holds that name. |
| Candidates.Listings | data_download/input/tradable_candidates.py:39-42 | One listing per table row, in order: the dashed ticker text, the name text, the source tag and today's date. |
| Candidates.Column | data_download/input/tradable_candidates.py:39-40 | `df[name]` finds a column exactly when the table has it, and raises KeyError otherwise. |
| Candidates.Sp500 | data_download/input/tradable_candidates.py:31-43 | `read_html` with no table raises ValueError. The first table must have "Symbol" and "Security", and a missing one raises KeyError. A success gives one "sp500" listing per row. |
| Candidates.FirstWithTickerAndCompany | data_download/input/tradable_candidates.py:56-60 | This is the first table with both "Ticker" and "Company". None means no table has both. |
| Candidates.Nasdaq100 | data_download/input/tradable_candidates.py:49-67 | `fetch_nasdaq100_list` raises ValueError exactly when no table has "Ticker" and "Company". Otherwise it lists every row of the first such table under "nasdaq100". |
| Candidates.FirstPresent | data_download/input/tradable_candidates.py:83-85 | This is the first preferred name the table has. None means it has none of them. |
| Candidates.PreferredColumn | data_download/input/tradable_candidates.py:83-85 | The chained conditional picks the first preferred name present. Failing that it takes the column at the fallback position, or raises IndexError when there is none. |
| Candidates.MidSmallCap | data_download/input/tradable_candidates.py:73-115 | `fetch_sp400_list` and `fetch_sp600_list` raise ValueError with no table and IndexError on a table without columns. They always succeed on a table with two or more columns, giving one listing per row. |
| Candidates.FirstHeader | data_download/input/tradable_candidates.py:136-139 | This is the first line that mentions "Ticker" or "Symbol". None means no line does. |
| Candidates.FindHeader | data_download/input/tradable_candidates.py:136-141 | The `for … else` search returns the first header line, and raises ValueError exactly when no line is a header. |
| Candidates.TickerColumn | data_download/input/tradable_candidates.py:146-148 | This is the first column named "Ticker", "Symbol" or "Ticker Symbol". None means there is none. |
| Candidates.NameColumn | data_download/input/tradable_candidates.py:149 | This is the first column whose name contains "Name" or "Company". None means there is none. |
| Candidates.IShares | data_download/input/tradable_candidates.py:123-210 | `fetch_russell1000_list` and `fetch_russell2000_list` raise ValueError without a header line, or when the parsed table lacks a ticker or name column. Otherwise they give one listing per row of the table parsed from the header on. |
| Candidates.FromListing | data_download/input/tradable_candidates.py:301-303 | A crawled row keeps its ticker and source, is not active by default, and has empty notes. |
| Candidates.FromListings | data_download/input/tradable_candidates.py:301-303 | One candidate row per crawled listing, in order. |
| Candidates.ManualCandidate | data_download/input/tradable_candidates.py:307-311 | A carried-over row keeps each saved column. A missing notes column becomes '' and other missing columns become None. |
| Candidates.ManualRows | data_download/input/tradable_candidates.py:255-258 | The carried rows are exactly the saved rows whose source starts with "manual". |
| Candidates.TickerCheck | data_download/input/tradable_candidates.py:320 | The filter keeps a cell exactly when it is a string that is a valid ticker. A non-string that reaches the regex raises TypeError. |
| Candidates.KeepValid | data_download/input/tradable_candidates.py:319-320 | The row filter succeeds exactly when no row's check raises, any failure is TypeError, and it never adds rows. |
| Candidates.KeepValidMembers | data_download/input/tradable_candidates.py:320 | The filtered rows are exactly the input rows with a valid string ticker. |
| Candidates.KeepValidAppend | data_download/input/tradable_candidates.py:314-320 | Filtering the crawled rows followed by the manual rows gives the filtered crawled rows followed by the filtered manual rows. |
| Candidates.TickersOf | data_download/input/tradable_candidates.py:326 | The ticker column, row by row. |
| Candidates.KeepFirst | data_download/input/tradable_candidates.py:326 | `drop_duplicates` never adds rows. |
| Candidates.KeepFirstMembers | data_download/input/tradable_candidates.py:326 | The survivors of `drop_duplicates(keep='first')` are exactly the first row of each ticker. |
| Candidates.KeepFirstLast | data_download/input/tradable_candidates.py:326 | Adding one row adds it to the survivors exactly when its ticker is new. |
| Candidates.KeepFirstSound | data_download/input/tradable_candidates.py:326 | Every survivor is the first row of its ticker. |
| Candidates.KeepFirstComplete | data_download/input/tradable_candidates.py:326 | The first row of every ticker survives. |
| Candidates.KeepFirstKeeps | data_download/input/tradable_candidates.py:326 | The first row of a ticker survives. |
| Candidates.KeepFirstTickers | data_download/input/tradable_candidates.py:325-326 | The ticker is a primary key afterwards: every input ticker is still present, no other ticker is, and none appears twice. |
| Candidates.KeepFirstCovers | data_download/input/tradable_candidates.py:326 | The survivors carry exactly the input's tickers. |
| Candidates.KeepFirstDistinct | data_download/input/tradable_candidates.py:326 | No ticker survives twice. |
| Candidates.Crawled | data_download/input/tradable_candidates.py:266-295 | Russell 1000 is fetched first, and its failure is the outcome. Without all sources the crawl is Russell 1000 alone. Otherwise it is sp500, sp400, sp600, russell1000, nasdaq100, russell2000 concatenated, once every fetch succeeded. |
| Candidates.FirstComesFirst | data_download/input/tradable_candidates.py:326 | The first row of a ticker precedes every other row with that ticker. |
| Candidates.CrawledWins | data_download/input/tradable_candidates.py:314-326 | A valid crawled ticker survives, and its survivor is a crawled row: crawled rows shadow manual rows with the same ticker. |
| Candidates.CrawledPrefix | data_download/input/tradable_candidates.py:314-320 | Among the filtered rows the crawled ones come first, so a valid crawled row sits inside a prefix made only of crawled rows. |
| Candidates.SaveCandidates | data_download/input/tradable_candidates.py:222-326 | A fetch failure is raised unchanged. A TypeError arises exactly when the ticker filter raises. Otherwise the result is the first row per valid ticker of crawled-then-manual. Every row kept is an input row with a valid ticker, every valid input ticker is kept, and none twice. |
| Candidates.IsValidUsTicker | data_download/input/tradable_candidates.py:19-25 | Defines `is_valid_us_ticker`. `ValidTickerIsPattern`, `EmptyTickerInvalid`, `ClassShareValid` and `MalformedInvalid` state its properties. |
| FactorStore.Normalize | database/readwrite/rw_factor_values.py:62-74 | A row normalises exactly when it has the instrument, date, name and value keys, and KeyError is raised otherwise. Those four are copied. Version, args, config and source default to "v1", {}, {} and "internal". |
| FactorStore.NormalizeFull | database/readwrite/rw_factor_values.py:62-74 | A row that spells out every field normalises to itself: defaults never override a given value. |
| FactorStore.NormalizeAll | database/readwrite/rw_factor_values.py:61-74 | A successful loop gives one normalised row per input row. |
| FactorStore.NormalizeAllSpec | database/readwrite/rw_factor_values.py:61-74 | The loop succeeds exactly when every row has the required keys, and a failure is KeyError. Otherwise row i of the output is row i normalised. |
| FactorStore.NormalizeRows | database/readwrite/rw_factor_values.py:61-74 | The loop that fills `normalized` computes exactly `NormalizeAll`. |
| FactorStore.NormalizeAllRaises | database/readwrite/rw_factor_values.py:62-65 | Once a row lacks a required key, the later rows change nothing: the loop raises on it. |
| FactorStore.LastWith | database/readwrite/rw_factor_values.py:94-101 | This is the last row with a given conflict key: no later row shares it. None means no row has the key. |
| FactorStore.UpsertAllSpec | database/readwrite/rw_factor_values.py:77-103 | After the upsert a key is present exactly when it was before or some row has it. Its entry comes from the last row with the key, or stays the old entry when no row has it. |
| FactorStore.UpsertKeyStep | database/readwrite/rw_factor_values.py:94-101 | The key clause of `UpsertAllSpec` follows for one key from the rows after the first. |
| FactorStore.UpsertEntryStep | database/readwrite/rw_factor_values.py:94-101 | The entry clause of `UpsertAllSpec` follows for one key from the rows after the first. |
| FactorStore.LastWithTail | database/readwrite/rw_factor_values.py:94-101 | The last row with a key, seen from the rows after the first, shifted by one. It is the first row itself only when no later row has the key. |
| FactorStore.LastWithUnique | database/readwrite/rw_factor_values.py:94-101 | A row with the key that no later row shares is the last one with it. |
| FactorStore.UpsertAllIdempotent | database/readwrite/rw_factor_values.py:94-101 | Writing the same rows twice gives the table of writing them once: a re-insert overwrites and never duplicates. |
| FactorStore.BatchInsertSpec | database/readwrite/rw_factor_values.py:57-103 | An empty batch issues no statement and leaves the table. A batch succeeds exactly when every row has the required keys. A written batch stores the key of every row and adds no key no row has. |
| FactorStore.Params | database/readwrite/rw_factor_values.py:143-183 | One parameter per clause, in clause order: a list filter passes its whole list as one parameter. |
| FactorStore.BuildQuery | database/readwrite/rw_factor_values.py:137-185 | `get_factor_values` raises ValueError exactly when the clause plan fails. Otherwise it gives the select, the clauses of the plan in order and the closing ORDER BY, with one parameter per clause. |
| FactorStore.AddNames | database/readwrite/rw_factor_values.py:141-151 | The name step raises for a name with a list, or for an empty list. Otherwise it appends the name clause: `= %s` for a name, `= ANY(%s)` for a list. |
| FactorStore.AddIds | database/readwrite/rw_factor_values.py:158-168 | The instrument step raises for an id with a list, or for an empty list. Otherwise it appends the instrument clause. |
| FactorStore.AddDates | database/readwrite/rw_factor_values.py:171-183 | The date step raises exactly for an exact date with a range bound. Otherwise it appends the date clause or the range clauses. |
| FactorStore.AddRange | database/readwrite/rw_factor_values.py:177-183 | Without an exact date, the bounds given are appended, start before end. |
| FactorStore.Add | database/readwrite/rw_factor_values.py:145-146 | One `query += …; params.append(…)` step extends the clause list by one clause and one parameter. |
| FactorStore.PlanSelects | database/readwrite/rw_factor_values.py:141-183 | The query fails exactly on the mutually exclusive pairs and the empty lists. Otherwise a stored row passes every clause exactly when it has the asked name, version, instrument and date. |
| FactorStore.NamePass | database/readwrite/rw_factor_values.py:144-151 | A row passes the name clauses exactly when it has the given name, or its name is in the given list. |
| FactorStore.DatePass | database/readwrite/rw_factor_values.py:174-183 | A row passes the date clauses exactly when it is on the exact date, or within the given bounds. |
| FactorStore.PlanOrder | database/readwrite/rw_factor_values.py:143-183 | The clauses appear in the order name(s), version, instrument(s), date or start, end, with each kind at most once. |
| FactorStore.PartSlots | database/readwrite/rw_factor_values.py:143-183 | Each clause kind sits in its own band of slots, and the range start comes before the end. |
| FactorStore.SlotsJoin | database/readwrite/rw_factor_values.py:143-183 | Two increasing runs of slots, the first wholly below the second, join into one increasing run. |
| FactorStore.AllPassConcat | database/readwrite/rw_factor_values.py:137-183 | AND-ed clauses: a row passes a concatenation exactly when it passes both parts. |
| FactorStore.RenderShape | database/readwrite/rw_factor_values.py:137-185 | Every query starts with `SELECT * FROM factor_values WHERE 1=1` and ends with ` ORDER BY date, instrument_id`. |
| FactorStore.QueryExample | tests/database/test_rw_factor_values.py:107-141 | The test's call gives the parameters name, version, instrument, start, end in that order. |
| FactorStore.UpsertAll | database/readwrite/rw_factor_values.py:77-103 | Defines the upsert applied row by row. `UpsertAllSpec` and `UpsertAllIdempotent` state its properties. |
| FactorStore.BatchInsert | database/readwrite/rw_factor_values.py:57-103 | Defines `batch_insert_factor_values` and its KeyError. `BatchInsertSpec` states its properties. |
| FactorStore.Plan | database/readwrite/rw_factor_values.py:143-183 | Defines the clauses `get_factor_values` adds. `PlanSelects` and `PlanOrder` state its properties. |
| FactorStore.Render | database/readwrite/rw_factor_values.py:137-185 | Defines the SQL text and parameters of a plan. `RenderShape` states its properties. |
| Text.Decimal | data_download/input/sec_edgar_fundamental_single.py:51 | `str(n)` of a non-negative integer is a non-empty string of digits. |
| Text.DecimalRoundTrip | data_download/input/sec_edgar_fundamental_single.py:51 | `int(str(n)) == n`. |
| Text.DecimalInjective | engine/compute_factors/compute_momentum.py:51 | Distinct numbers render as distinct strings, which keeps each parameter set's state key apart. |
| Text.DecimalHasNo | engine/compute_factors/compute_momentum.py:51 | A rendered number contains no colon. |
| Text.SplitAtSeparator | engine/compute_factors/compute_momentum.py:51 | A colon-free field followed by a colon is recovered unambiguously from a colon-separated key. |
| Text.ShorterFieldDiffers | engine/compute_factors/compute_momentum.py:51 | Keys whose first fields differ in length differ. |
| Text.SuffixCancel | engine/compute_factors/compute_momentum.py:51 | Keys equal up to the common ":v1" suffix have equal heads. |
| Text.UpperChar | data_download/input/sec_edgar_fundamental_single.py:240 | `c.upper()` on ASCII: lower-case letters map to upper-case, every other character is left alone (Unicode letters are not modelled). |
| Text.Upper | data_download/input/sec_edgar_fundamental_single.py:240 | `s.upper()` on ASCII text: each character is mapped by `UpperChar` (Python can also change the length of non-ASCII text, which is not modelled). |
| Text.Strip | data_download/input/sec_edgar_fundamental_single.py:48 | `s.strip()` is no longer than `s` and neither starts nor ends with a character `str.isspace` accepts. |
| Text.ContainsAt | data_download/input/tradable_candidates.py:137 | `sub in s` holds exactly when `sub` occurs at some offset of `s`. |
| Text.Take | data_download/input/sec_edgar_fundamental_single.py:248 | `s[:n]` is the first min(n, len(s)) characters of `s`. |
| Text.ParseLeadingZeros | data_download/input/sec_edgar_fundamental_single.py:51 | Zero padding does not change the number a digit string denotes. |
| Text.ReplaceChar | data_download/input/tradable_candidates.py:39 | `s.replace(".", "-")` replaces exactly the dots and keeps every other character. |
| Text.ZFill | data_download/input/sec_edgar_fundamental_single.py:51 | `s.zfill(w)` left-pads with zeros to width w and ends with `s`. |
| Text.LessAt | data_download/input/sec_edgar_fundamental_single.py:190 | Strings equal up to a position are ordered by their characters there. |
| Text.LessIrreflexive | data_download/input/sec_edgar_fundamental_single.py:190 | No string is less than itself. |
| Text.LessTrichotomy | data_download/input/sec_edgar_fundamental_single.py:190 | Exactly one of a < b, a == b and b < a holds. |
| Text.LessTransitive | data_download/input/sec_edgar_fundamental_single.py:190 | String comparison is transitive. |
| Text.StripSpec | data_download/input/sec_edgar_fundamental_single.py:48 | `s.strip()` is the slice of `s` between a whitespace prefix and a whitespace suffix. |

## Left out

- HTTP and scraping: `_build_session` (data_download/input/price_downloader.py:37-63) and `fetch_tiingo_prices` (lines 320-363), the Wikipedia and iShares downloads of tradable_candidates.py, and the SEC `_get_json` and `fetch_companyfacts`. These are network I/O, retries and sleeps. Their results are parameters of the model: a fetched list, `None`, or an exception kind.
- SQL statements and connections: the SEC `get_instrument_id` and `upsert_fundamental_data`. Also from rw_factor_values.py: `insert_factor_value` (lines 15-54, the single-row case of the same upsert), `get_latest_factor_value` (lines 194-216), `get_factor_snapshot` (lines 219-239) and `delete_factor_values` (lines 245-263). The model covers query construction and upsert-by-key semantics. Store reads (prices, the checkpoint table `system_state`, the calendar, tradable instruments) are maps or parameters. Commit and rollback are modelled only as "the write succeeded or failed".
- Logging and `print` calls: they change no state the model tracks.
- Floating point: every amount is an exact `real`. The exponential, `log` and pandas quantile interpolation are parameters, with only positivity, monotonicity and `lo <= hi` assumed. `int(0.005 * requested)` is taken as the exact floor of `requested * 5 / 1000`.
- Sort stability: pandas `sort_values` uses quicksort, which is not stable. The model sorts stably by insertion and puts NaN last, so its order among equal keys is one of the orders pandas may produce.
- factors/volatility.py, factors/max_drawdown.py and factors/volatility_of_volatility.py are not part of this model. Their drivers' checkpoint machines are modelled, and their kernels are parameters that return a row count or raise.
- `get_prices_on_date`: it is imported by engine/backtest_runner.py:12 but defined nowhere in the repository, so the runner takes it as a parameter.
- The kernels take the price store's rows as already ordered by date (`ORDER BY date`), so their `sort_values("date")` is the identity.
- Date parsing: dates are integer day numbers. ISO date parsing, `pd.to_datetime` and `date.max`/`date.min` are represented by the day numbers they produce. The SEC `filed` string is the exception and is compared as text.
- FactorKernels.JumpRisk, FactorKernels.DollarVolume: windows are natural numbers, and a window of 0, which pandas `rolling` rejects with ValueError, yields no rows instead of an exception (`FullWindow` holds only for `window >= 1`). Negative windows are not modelled.
- Signals.BuildSignalsSpec: the database rows come in as a parameter whose value column is already called `value`. The clash between the `value` selected at engine/signals.py:112 and the table's `factor_value` column therefore does not show. The query builder keeps the code's column list.
- SecFacts.DownloadRows follows the signature of `download_one_ticker_fundamental_data`. The test's `tags=` argument, which that function does not accept, is not modelled.
- SecFacts.RowOf: an absent key and a JSON `null` are the same `None`. A `null` `end` is reported as the KeyError of a missing `end`, where Python raises TypeError on `r["end"][:10]`.
- SecFacts.CikFromTicker: a ticker-mapping entry is a ticker text plus a natural-number `cik_str`. Entries without a "ticker" key or with a non-integer CIK are not modelled.
- TiingoRecords: the transform written twice (tiingo_downloader.py and price_downloader.py) is modelled once, since both copies do the same thing.
- Candidates.SaveCandidates: CSV parsing is a parameter. Cells arrive as text, and an empty cell is NaN. pandas type inference shows only through the cell kinds `TickerCheck` distinguishes (None, False, NaN, True, a date). Columns of the saved file other than the six candidate columns are not carried over. `splitlines`, the CSV write and the printed summary are left out.
- CorporateActions.Query: the SQL filter on the price rows is modelled. Its `ORDER BY` is taken to be the order of the given rows.
- The tradable-universe jobs, the trading-calendar builder, the UI, the wiring under `tasks/`, `compute_all_factors.py` and `scoring_strategy.py` are not part of this model. They are SQL aggregates, calendars, plotting and orchestration.
- Text.UpperChar, Text.Upper, Text.Strip: `upper()` is modelled for ASCII letters only, which covers the tickers and form names it is applied to. Python upper-cases every cased Unicode letter and can change a string's length ('ß' becomes "SS"). `strip()` removes the characters `str.isspace` accepts, which `Text.IsSpace` lists.
