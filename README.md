# Volume-level trading robot, modelled in Dafny

This project models the decision core of a trading robot for the Tinkoff
Invest API. The robot:

- watches the stream of anonymised trades of a few instruments;
- tracks touches of the heaviest-volume price levels of hourly clusters;
- confirms or rejects each touch against a signal candle;
- on confirmation, either simulates a two-leg position (the back-testing
  `Analyzer`) or builds a take-profit ladder of orders (the live
  `ProfileTouchStrategy`).

It also models:

- the order record with its dictionary round trip;
- the session time gates;
- the quotation-to-price conversion;
- the live/backfill buffering protocol of `TradingRobot`, which keeps live
  ticks aside while the trade history is loaded and must never lose one.

Modules, one per source file plus shared pieces:

| module | models |
|---|---|
| `Wrappers` | `Option` / `Result` |
| `Clock` | timestamps as integer microseconds on the wall clock of their own zone; `replace(...)` keeps the date |
| `Market` | ticks, candles, clusters, settings |
| `PyDict` | Python's insertion-ordered `dict` as a sequence of distinct-key pairs |
| `Convert` | utils/convert.py, and the library conversion utils/utils.py uses |
| `ExchangeUtil` | utils/exchange_util.py |
| `OrderDomain` | domains/order.py |
| `OrderUtil` | utils/order_util.py |
| `VolumeLevels` | the touch tracker and pending-touch resolution, written out identically in analyzer.py and strategies/profile_touch_strategy.py |
| `TickSchedule` | the hour and five-minute bookkeeping of both analysers |
| `Analyzer` | analyzer.py |
| `ProfileTouchStrategy` | strategies/profile_touch_strategy.py |
| `TradingRobot` | trading_robot.py |

State the source updates in place is modelled as classes:

- `Analyzer.Analyzer`, `ProfileTouchStrategy.ProfileTouchStrategy` and
  `TradingRobot.Robot` are classes whose methods update their fields;
- the loops of `prepare_orders`, `processed_orders`, the touch loop,
  `check_entry_points`, the entry-leg loop and `get_history_trades` are
  methods with loop invariants, proved against specification functions.

Points of the code that shape the model:

- **Stop distance.** The stop is the max-volume price ∓ max-volume price ×
  PERCENTAGE_STOP_LOSS / 100. PERCENTAGE_STOP_LOSS is a percentage.
- **Per-leg quantity.** It is `int()` of the quotient, which truncates toward
  zero.
- **Buffer flush.** The buffered live ticks are flushed by the next live tick
  of that instrument after the sync. That tick is appended to the series and
  handed to the strategy with it, but not analysed.
- **Backfill merge.** Merging history into the series is whatever
  `Utils.merge_two_frames` does. Its body is not part of this model, so it
  is a parameter.
- **Premarket cutoff.** `analyzer.py` skips ticks before 07:30. The live
  strategy calls `Utils.is_premarket_time` and `Utils.is_open_orders` of
  utils/utils.py, whose bodies are not part of this model. The model takes
  them to be the 07:00 and 15:00 gates of `utils/exchange_util.py`.
- **Open-group guard.** The live strategy does not call
  `is_order_already_open`. The analyser blocks a second position on any
  active order of the same direction, whatever its group.

## Model

| member | source | states |
|---|---|---|
| `Convert.NatToString` | utils/convert.py:5 | `str(n)` is a non-empty digit string without a leading zero |
| `Convert.NatToStringValue` | utils/convert.py:5 | reading the digits of `str(n)` back gives `n` |
| `Convert.ZeroPadValue` | utils/convert.py:4 | zero-padding to width 9 keeps the digits and their value and gives max(9, length) characters |
| `Convert.NanoFieldWidth` | utils/convert.py:4 | the padded nano field has at least 9 digits, and exactly 9 iff abs(nano) < 10^9 |
| `Convert.QuotationTextShape` | utils/convert.py:4-5 | the text is `digits(abs(units)) . padded(abs(nano))`, preceded by a minus exactly when units < 0 |
| `Convert.QuotationToPrice` | utils/convert.py:3-6 | the price is what `float()` reads from the built text (which always parses) |
| `Convert.QuotationValue` | utils/convert.py:4-6 | the value is units + abs(nano)/10^width for units >= 0 and units − abs(nano)/10^width for units < 0; the sign of nano never reaches it |
| `Convert.QuotationValueInRange` | utils/convert.py:4-6 | for abs(nano) < 10^9 the price is units ± abs(nano)/10^9, the sign taken from units |
| `Convert.OverlongNanoWidensFraction` | utils/convert.py:4 | abs(nano) >= 10^9 produces more than nine fractional digits |
| `Convert.QuotationToDecimal` | utils/utils.py:7-8 | the decimal value is negative for zero units exactly when nano is; with same-signed fields it has their sign |
| `Convert.ConvertersAgree` | utils/convert.py:4-6 | for same-signed fields with abs(nano) < 10^9 (zero units and negative nano excluded) the text-built price equals the decimal value |
| `Convert.ZeroUnitsLoseNanoSign` | utils/convert.py:4-5 | Quotation(0, −10000000) gives 0.01 through the text but −0.01 as a decimal |
| `Convert.DecimalConversionExamples` | tests/test_convert.py:9-12 | the four pinned conversions 114.25, −200.2, −0.01 and 0.03718 hold |
| `Clock.AtTimeOfDay` | utils/exchange_util.py:16 | `replace(hour=h, minute=m, second=0, microsecond=0)` keeps the day and sets the time of day to h:m |
| `Clock.FloorToMinute` | analyzer.py:93 | `replace(second=0, microsecond=0)` is the start of the timestamp's minute |
| `Clock.Hour` | analyzer.py:89 | the `hour` attribute lies in 0..23 |
| `ExchangeUtil.IsOpenOrders` | utils/exchange_util.py:14-17 | true iff the time of day is strictly before 15:00:00.000000 |
| `ExchangeUtil.IsPremarketTime` | utils/exchange_util.py:20-23 | true iff the time of day is strictly before 07:00:00.000000 |
| `ExchangeUtil.PremarketImpliesOpenOrders` | utils/exchange_util.py:14-23 | every premarket time is also a time at which orders may be opened |
| `ExchangeUtil.GatesIgnoreTheDate` | utils/exchange_util.py:14-23 | shifting a timestamp by whole days changes neither gate |
| `ExchangeUtil.GetInstrumentByName` | utils/exchange_util.py:26-27 | the first instrument with that name, or StopIteration exactly when no instrument has it |
| `OrderDomain.ToFloat` | domains/order.py:8 | `float()` succeeds exactly on ints, floats and bools, and gives a float |
| `OrderDomain.ToInt` | domains/order.py:14 | `int()` succeeds exactly on ints, floats and bools, and gives an int |
| `OrderDomain.ToDatetime` | domains/order.py:20 | `pd.to_datetime` raises exactly on bools and text, and otherwise gives a timestamp or None |
| `OrderDomain.Truncate` | domains/order.py:14 | `int()` of a float truncates toward zero: within one of x, on the zero side |
| `OrderDomain.GetFloatValue` | domains/order.py:6-9 | 0 for a missing key; a float kept, an int widened to the float of the same value, a bool read as 1.0 or 0.0; an error for None, text or a timestamp |
| `OrderDomain.GetIntValue` | domains/order.py:12-15 | 0 for a missing key; an int kept; a float truncated toward zero (`Truncate`); a bool read as 1 or 0; an error for None, text or a timestamp |
| `OrderDomain.GetDatetimeValue` | domains/order.py:18-21 | None for a missing key; a timestamp or None kept; an int (or a float's whole part) read as nanoseconds since 1970-01-01 and kept to the microsecond holding it; a bool raises |
| `OrderDomain.FromDict` | domains/order.py:133-148 | succeeds exactly when all eight getters succeed, and then open, close, stop, take and result are the float getter's values, quantity and direction the int getter's and time the datetime getter's; id, group_id, instrument, status and is_win are passed through as given (None when missing); on failure the error names the first of open, close, stop, take, quantity, direction, time, result (argument order) whose conversion raises |
| `OrderDomain.NumericTimeFromDict` | domains/order.py:18-21 | `from_dict({'time': n})` succeeds with the instant n nanoseconds after 1970-01-01 00:00; `{'time': 0}` is that midnight |
| `OrderDomain.ConstructorDefaults` | domains/order.py:31-59 | omitted, status is 'active', result 0, is_win False and close 0 |
| `OrderDomain.Items` | domains/order.py:61-74 | `__iter__` yields exactly 13 pairs, named in the fixed field order |
| `OrderDomain.AsDict` | domains/order.py:61-74 | `dict(o)` maps the i-th field name to the i-th value `__iter__` yields |
| `OrderDomain.FieldNamesDistinct` | domains/order.py:61-74 | the 13 field names are pairwise distinct |
| `OrderDomain.AsDictKeys` | domains/order.py:61-74 | `dict(o)` has exactly the 13 field names as keys |
| `OrderDomain.AsDictHoldsItems` | domains/order.py:61-74 | every pair `__iter__` yields survives in `dict(o)` |
| `OrderDomain.ReadBack` | domains/order.py:61-74 | each key of `dict(o)` holds the field of that name |
| `OrderDomain.RoundTrip` | domains/order.py:133-148 | `from_dict(dict(o))` reproduces every field of an order whose numeric fields already have the converted types |
| `OrderDomain.RoundTripIntegerPrices` | domains/order.py:138-146 | integer prices and results come back as floats of the same value; every other field is reproduced |
| `OrderDomain.FromEmptyDict` | domains/order.py:133-148 | missing keys read as 0 for numbers and None otherwise; status and is_win get no constructor default |
| `OrderUtil.PerLegQuantity` | utils/order_util.py:19 | for non-negative lots and positive goals, `int(count_lots / count_goals)` is the integer quotient |
| `OrderUtil.Ladder` | utils/order_util.py:22-38 | the ladder has count_goals legs when goal_step > 0 and count_goals > 0, and none otherwise |
| `OrderUtil.GuardMeansLegsRemain` | utils/order_util.py:22-24 | the loop guard `step < goal_step * count_goals + 1` holds exactly while legs remain |
| `OrderUtil.GuardHoldsForever` | utils/order_util.py:22-38 | with goal_step < 0 and count_goals < 0 the guard holds at every step, so the loop never ends |
| `OrderUtil.PrepareOrders` | utils/order_util.py:7-39 | ZeroDivisionError for count_goals = 0; otherwise exactly the ladder, leg k at step 1 + k·goal_step |
| `OrderUtil.LegsShareTheSignal` | utils/order_util.py:18-36 | every leg has the group, open, stop, time, direction and quantity of the signal and starts active with result 0, is_win False, close 0 |
| `OrderUtil.TakesMoveAwayFromStop` | utils/order_util.py:25 | with positive first goal and goal step, takes rise leg by leg when the stop is below the price and fall when it is above |
| `OrderUtil.PinnedLadders` | tests/test_orders.py:7-99 | Buy 100/80, 10 lots, 2 goals gives takes 160, 190 of 5 lots each; Sell 100/120, 9 lots, 3 goals gives takes 40, 10, −20 of 3 lots each |
| `OrderUtil.ActiveSameDirection` | utils/order_util.py:43-46 | the filter keeps exactly the active orders of the order's direction (every kept order matches, every matching order is kept), is empty iff there are none, and starts with the first one |
| `OrderUtil.ActiveSameDirectionSplits` | utils/order_util.py:43-46 | the filter keeps the orders' order: filtering a concatenation is the concatenation of the filtered parts |
| `OrderUtil.IsOrderAlreadyOpen` | utils/order_util.py:42-54 | blocked iff the first active order of the same direction exists and belongs to another group |
| `OrderUtil.SameGroupNeverBlocked` | utils/order_util.py:47-50 | an order whose same-direction active orders all share its group is allowed |
| `OrderUtil.OtherGroupBlocks` | utils/order_util.py:51-53 | an active same-direction order of another group, with none of the same group, blocks |
| `OrderUtil.LadderIsAdmitted` | utils/order_util.py:42-54 | creating a ladder leg by leg after orders with no active leg in that direction refuses none of its legs |
| `PyDict.Get` | analyzer.py:130 | `d.get(k)` is None iff the key is absent, otherwise the value stored with it |
| `PyDict.Put` | analyzer.py:132-145 | assignment to a present key replaces its value in place, a new key is appended, and keys stay distinct |
| `VolumeLevels.FirstQualifying` | analyzer.py:118-140 | the first cluster, in order, whose level the tick touches: in band and past both cooldowns |
| `VolumeLevels.CooledDown` | analyzer.py:126-139 | the first cooldown runs from the cluster's time; the second, from the level's last touch, applies only to a known level that has one |
| `VolumeLevels.Qualifies` | analyzer.py:124-139 | the tick is in band of the cluster's max-volume price and both cooldowns have run out |
| `VolumeLevels.AfterTouch` | analyzer.py:118-151 | no qualifying cluster leaves the levels as they are; otherwise at most one level is added, the levels stay well formed, and a touch is pending |
| `VolumeLevels.RecordTouch` | analyzer.py:118-151 | at most one touch per tick, on the first qualifying cluster; the levels otherwise unchanged and still well formed |
| `VolumeLevels.TouchKeepsValid` | analyzer.py:130-145 | a touch keeps level prices and touch times distinct |
| `VolumeLevels.TouchEffect` | analyzer.py:130-145 | a touch adds one to the count, sets the last touch to the tick time, adds a pending entry there, and leaves every other level alone |
| `VolumeLevels.TouchLeavesPending` | analyzer.py:143-145 | after a touch some touch is pending |
| `VolumeLevels.FirstPendingTouch` | analyzer.py:211-213 | the first entry of a level's times still pending, or none |
| `VolumeLevels.FirstPendingFrom` | analyzer.py:210-213 | the first pending touch, levels and touches in insertion order; none iff nothing is pending |
| `VolumeLevels.ResolvePending` | analyzer.py:209-303 | the walk over pending touches equals the resolution: fewer than three candles raise; a winning signal candle confirms the first pending touch; otherwise every pending touch is rejected |
| `VolumeLevels.Resolve` | analyzer.py:209-303 | IndexError exactly when a touch is pending and there are fewer than three candles, leaving the levels alone; a confirmation needs a pending touch and a winning signal candle `iloc[-2]`, with `iloc[-3]` as the previous candle; well-formed levels stay well formed |
| `VolumeLevels.RejectStep` | analyzer.py:300-303 | rejecting one more pending touch marks it False and clears the level's last touch time |
| `VolumeLevels.ConfirmSettlesOne` | analyzer.py:227-232 | a confirmation marks exactly the first pending touch True and changes nothing else |
| `VolumeLevels.RejectAllSettlesEverything` | analyzer.py:300-303 | a rejection leaves nothing pending: pending touches become False, settled ones stay, counts stay, and exactly the levels that had a pending touch lose their last touch time |
| `VolumeLevels.RejectionWaivesSecondCooldown` | analyzer.py:136-140 | after a rejection only the first cooldown, from the cluster time, gates the next touch of that level |
| `VolumeLevels.StopOnLosingSide` | analyzer.py:241-257 | once the candle gates pass, the stop lies strictly below the price for a long and above it for a short |
| `TickSchedule.FirstTickNeverChecks` | analyzer.py:91-93 | the first tick anchors the five-minute gate to its own minute and never checks entries |
| `TickSchedule.ChecksAreSpacedOut` | analyzer.py:111-113 | two entry checks are more than four minutes apart |
| `TickSchedule.AnchorHoldsBetweenChecks` | analyzer.py:111-113 | until a check is due, the anchor does not move |
| `TickSchedule.RolloverOncePerHour` | analyzer.py:95-98 | clusters are rebuilt at most once per hour |
| `TickSchedule.FixHourNeverDecreases` | analyzer.py:88-97 | the stored hour never goes down; a rollover is exactly an increase of it |
| `Analyzer.IsAnalyzerPremarket` | analyzer.py:45-48 | true iff the time of day is before 07:30 |
| `Analyzer.AnalyzerPremarketIsLonger` | analyzer.py:39-48 | the exchange's premarket lies within the analyser's, which lies within the order-opening hours |
| `Analyzer.OrderStep` | analyzer.py:153-207 | prices, direction and time never change; a closed order is left alone; after 15:00 an active order is closed with is_win exactly when its gain is positive; before 15:00 a long below its stop or a short above its stop closes with is_win False, a long above its take or a short below its take (stop not crossed) closes with is_win True, and within its bracket it stays active and unchanged; a close records the tick price and the gain at it |
| `Analyzer.ProcessAll` | analyzer.py:153-207 | the k-th order becomes `OrderStep` of the k-th order at the tick, so every order keeps its place, direction and time; closed orders are untouched and orders left active are unchanged; after 15:00 every order is closed |
| `Analyzer.OrderStepKeepsShape` | analyzer.py:153-207 | one tick keeps an order well formed: a stop-loss close loses, a take-profit close wins, and an order left active is unchanged |
| `Analyzer.ClosedIsFinal` | analyzer.py:154-155 | a closed order is never modified |
| `Analyzer.ClosesOnce` | analyzer.py:154-155 | after it closes, no further tick changes an order |
| `Analyzer.CutoffTickClosesOrder` | analyzer.py:156-168 | a trace reaching a tick at or after 15:00 leaves every order closed |
| `Analyzer.CutoffClosesEverything` | analyzer.py:156-168 | after a tick at or after 15:00 no order is active |
| `Analyzer.ProcessKeepsInvariants` | analyzer.py:153-207 | processing a tick keeps every order well formed and one entry per direction |
| `Analyzer.ActiveOf` | analyzer.py:235-236 | exactly the active orders of one direction (every kept order matches, every matching order is kept), empty iff there are none |
| `Analyzer.ActiveOfSplits` | analyzer.py:235-236 | the filter keeps the orders' order: filtering a concatenation is the concatenation of the filtered parts |
| `Analyzer.LegBracketsOpen` | analyzer.py:256-262 | a leg with a positive multiplier and a stop on the losing side brackets its open price between stop and take |
| `Analyzer.LegTakesOrdered` | analyzer.py:256-258 | a larger multiplier puts the take further out |
| `Analyzer.EntryLegs` | analyzer.py:255-294 | two legs, both active with no outcome, opened at the price and time, in the candle's direction, with the stop beyond its max-volume price, the take at price - (stop - price) * TAKE_PROFIT * i for i = 1.0 and 1.5, and the level price and signal candle recorded |
| `Analyzer.EntryOrders` | analyzer.py:234-297 | orders are appended exactly when the entry gates pass, and each is an active order at the price in the candle's direction |
| `Analyzer.EntryLegsBracketOpen` | analyzer.py:234-297 | both legs of an admitted entry are active and bracket the price, the 1.5 leg's take beyond the 1.0 leg's |
| `Analyzer.EntryKeepsOneEntryPerDirection` | analyzer.py:234-271 | no second position opens on a side that already has one |
| `Analyzer.Takes` | analyzer.py:319 | the filter keeps only orders that are wins |
| `Analyzer.Losses` | analyzer.py:321 | the filter keeps only orders that are not wins |
| `Analyzer.Points` | analyzer.py:320-322 | the sum of the results; what it satisfies is stated by `TakesAndLossesSplit` and `PointsSign` |
| `Analyzer.PointsSign` | analyzer.py:320-322 | the points of wins are never negative and those of losses never positive |
| `Analyzer.TakesAndLossesSplit` | analyzer.py:319-322 | win and loss orders split the orders: their counts and points add up to the whole |
| `Analyzer.Statistics` | analyzer.py:319-341 | KeyError iff some order has no outcome; otherwise wins + losses = count and earned + lost = the sum of all results |
| `Analyzer.EarnedAndLostHaveTheirSigns` | analyzer.py:319-322 | once every order is closed, earned points are never negative and lost points never positive |
| `Analyzer.Analyzer.constructor` | analyzer.py:52-66 | empty series, no first tick, no hour, no clusters, no levels, no orders |
| `Analyzer.Analyzer.SetDf` | analyzer.py:74-76 | replaces the series and nothing else |
| `Analyzer.Analyzer.ProcessOrders` | analyzer.py:153-207 | each order is stepped once by the tick, in place, and the invariants hold |
| `Analyzer.Analyzer.CheckEntryPoints` | analyzer.py:209-303 | the levels become the resolution; IndexError on too few candles; a confirmed touch appends the entry legs exactly when the gates pass |
| `Analyzer.Analyzer.OpenPosition` | analyzer.py:256-297 | appends the two entry legs, the 1.0 leg first |
| `Analyzer.Analyzer.EntryLegsGuarded` | analyzer.py:234-297 | appending the entry orders keeps the orders well formed and one entry per direction |
| `Analyzer.Analyzer.OpenTick` | analyzer.py:86-108 | orders processed; hour and first-tick bookkeeping; clusters rebuilt from the earlier series on a rollover; tick appended |
| `Analyzer.Analyzer.CloseTick` | analyzer.py:110-151 | a due check moves the anchor and resolves entries while orders are open and levels exist; the tick is then checked for a touch unless the check raised |
| `Analyzer.Analyzer.Analyze` | analyzer.py:78-151 | a premarket tick changes nothing; any other tick updates series, hour, clusters, anchor, levels and orders as the two halves state |
| `Analyzer.Analyzer.WriteStatistics` | analyzer.py:305-341 | clusters rebuilt for a non-empty series; returns earned + lost, or KeyError for an unsettled order |
| `ProfileTouchStrategy.EntryResult` | strategies/profile_touch_strategy.py:147-203 | nothing unless the candle gates pass; ZeroDivisionError exactly when they pass with COUNT_GOALS = 0; otherwise `LegCount` legs, each opened at the price and time, for the strategy's instrument and group |
| `ProfileTouchStrategy.TakeOnWinningSide` | utils/order_util.py:25 | with a positive step every take lies on the far side of the price from the stop |
| `ProfileTouchStrategy.LadderBracketsEntry` | strategies/profile_touch_strategy.py:147-203 | every leg of an emitted ladder, a one-leg ladder included, brackets the entry: open at the price, stop on the losing side, take on the winning side |
| `ProfileTouchStrategy.LadderTakesSpreadOut` | strategies/profile_touch_strategy.py:147-203 | each later leg of an emitted ladder has its take further out than the one before |
| `ProfileTouchStrategy.ProfileTouchStrategy.constructor` | strategies/profile_touch_strategy.py:36-47 | empty series, no first tick, no hour, no clusters, no levels |
| `ProfileTouchStrategy.ProfileTouchStrategy.SetDf` | strategies/profile_touch_strategy.py:53-55 | replaces the series and nothing else |
| `ProfileTouchStrategy.ProfileTouchStrategy.PrepareOrders` | strategies/profile_touch_strategy.py:210-221 | the ladder for the strategy's instrument and the COUNT_* / GOAL_* settings, or ZeroDivisionError |
| `ProfileTouchStrategy.ProfileTouchStrategy.CheckEntryPoints` | strategies/profile_touch_strategy.py:129-208 | levels become the resolution; IndexError on too few candles; a confirmed touch returns the ladder exactly when the gates pass, and nothing otherwise |
| `ProfileTouchStrategy.ProfileTouchStrategy.OpenTick` | strategies/profile_touch_strategy.py:65-120 | hour and first-tick bookkeeping, clusters rebuilt on a rollover, tick appended, and at most one touch recorded |
| `ProfileTouchStrategy.ProfileTouchStrategy.CloseTick` | strategies/profile_touch_strategy.py:122-127 | a due check moves the anchor; entries are resolved only while orders are open and levels exist |
| `ProfileTouchStrategy.ProfileTouchStrategy.Analyze` | strategies/profile_touch_strategy.py:57-127 | the new state and the result are `Analyzed` of the old state: a premarket tick returns nothing and changes nothing; otherwise the bookkeeping, the rollover rebuild and the append are done, the touch is recorded first, then the due entry check's result is returned |
| `ProfileTouchStrategy.ProfileTouchStrategy.Analyzed` | strategies/profile_touch_strategy.py:57-127 | a premarket tick changes nothing and returns nothing; any other tick is appended and sets the hour to at least its own; well-formed levels stay well formed; returned orders are `LegCount` legs |
| `TradingRobot.ProcessedData` | trading_robot.py:75-93 | no tick exactly for a missing trade; otherwise the tick keeps the trade's figi, direction, quantity and time |
| `TradingRobot.ProcessedPriceSign` | trading_robot.py:80 | the tick price is negative exactly when the quotation is: negative units, or zero units and negative nano |
| `TradingRobot.InsertByTime` | trading_robot.py:169 | inserting a tick into time-ordered ticks keeps them ordered and adds exactly that tick |
| `TradingRobot.SortByTime` | trading_robot.py:169 | `sort_values('time')` orders by time and keeps the same ticks |
| `TradingRobot.WindowsAbut` | trading_robot.py:149-150 | consecutive request windows abut and each is one hour wide |
| `TradingRobot.WindowAt` | trading_robot.py:145-150 | after k requests the minute counter selects the k-th window |
| `TradingRobot.WindowTicks` | trading_robot.py:165-168 | a response gives at most one tick per trade |
| `TradingRobot.Collected` | trading_robot.py:147-170 | the ticks of the first k responses; `CollectedGrows` shows each step only appends |
| `TradingRobot.CollectedGrows` | trading_robot.py:164-170 | the walk only adds ticks: the ticks of the first j responses begin those of the first k |
| `TradingRobot.FirstStop` | trading_robot.py:162-163 | the first window whose response ends the walk; every earlier window lets it go on |
| `TradingRobot.FirstStopBound` | trading_robot.py:147-173 | a window before the first stop continues the walk; the first that does not is the stop |
| `TradingRobot.GetHistoryTrades` | trading_robot.py:141-175 | the history is time-ordered and holds exactly the ticks of the windows before the first empty or raising response |
| `TradingRobot.ProcessTrades` | trading_robot.py:165-168 | the ticks of a response's trades in order, skipping trades that give none |
| `TradingRobot.NewStrategies` | trading_robot.py:109-122 | one fresh, empty strategy per figi, no two figis sharing one |
| `TradingRobot.Robot.constructor` | trading_robot.py:103-122 | the flag is set, and every instrument has an empty series, an empty buffer and a fresh empty strategy |
| `TradingRobot.Robot.BeginSync` | trading_robot.py:125 | sets the flag; series, buffers and strategies unchanged |
| `TradingRobot.Robot.SyncInstrument` | trading_robot.py:126-137 | a failed read leaves the series; a time column that fails to parse leaves the frame as read and fetches nothing; otherwise the history is ordered, complete, and merged into that instrument's series only, and a failed merge leaves the series as read |
| `TradingRobot.Robot.EndSync` | trading_robot.py:138 | clears the flag; series, buffers and strategies unchanged |
| `TradingRobot.Robot.OnTrade` | trading_robot.py:192-231 | no trade: nothing; unknown figi: error; while syncing: buffered; after a sync with a buffer: series + buffer + tick, buffer emptied, and the strategy gets the series with its levels, anchor, hour and clusters unchanged (the tick is not analysed); else the strategy's state and result are those of its `Analyzed`, and the tick is appended unless analysis raised; other instruments untouched |
| `TradingRobot.Robot.Flush` | trading_robot.py:210-218 | series := series + buffer + tick, buffer emptied, the strategy handed the series with every other field of it unchanged |
| `TradingRobot.Robot.ClearBuffer` | trading_robot.py:215 | empties that instrument's buffer only |
| `TradingRobot.Robot.HandOver` | trading_robot.py:218 | the strategy's series becomes the instrument's series; its levels, anchor, hour and clusters stay |
| `TradingRobot.Robot.AnalyzeLive` | trading_robot.py:222-231 | the strategy's new state is that of its `Analyzed`; the result is its result, an exception wrapped as `AnalyzeFailed`; the tick is appended to the series iff `analyze` did not raise; buffers unchanged |
| `TradingRobot.Robot.Analyze` | trading_robot.py:226 | the strategy's new state and the result are `Analyzed` of its old state, and the robot stays well formed |
| `TradingRobot.TradeDuringSync` | trading_robot.py:203-206 | a tick during a sync goes to its buffer; the series do not change |
| `TradingRobot.BufferDuringSync` | trading_robot.py:203-206 | ticks arriving during a sync are buffered in arrival order; the series do not change |
| `TradingRobot.FirstTradeAfterSync` | trading_robot.py:210-215 | the first tick after the sync lands behind the buffered ticks at the end of the series, the buffer is empty, and the strategy receives the series without analysing that tick |
| `TradingRobot.SyncKeepsLiveTicks` | trading_robot.py:203-215 | no live tick is lost across a sync: the buffered ticks, then those arriving during the sync, then the first one after, end the series in arrival order |

## Left out

- Floating point: prices are exact reals. Binary rounding of `float()` and of `numpy.arange(1, 2, 0.5)` is not modelled; the two multipliers are fixed at 1.0 and 1.5.
- `Utils.ticks_to_cluster`, `Utils.calculate_ratio`, `Utils.is_price_in_range_cluster` and `Utils.merge_two_frames` are not part of this model. They enter as function-valued fields or parameters (`toClusters`, `toCandles`, `inBand`, `merge`), and candles are records given as input.
- `Utils.processed_volume_levels_to_times`, the chart (`IS_SHOW_CHART`), Telegram posts and logging are side effects and are left out.
- `current_candle['win'] is True` is modelled as the boolean `win`. Whether the bar code yields a Python `True` or a numpy boolean is not part of this model.
- `is_open_exchange` (both copies) reads the wall clock and is left out, as is the statistics message it triggers.
- CSV reads and writes, the statistics log file, the market-data client and the order service's `create_order` are left out. A read or fetch enters as a parameter (`loaded`, `fetch`); orders are returned, not sent.
- The asyncio pairing of `trades_stream` and `sync_df` is modelled as separate steps (`BeginSync`, `SyncInstrument`, `EndSync`, `OnTrade`) that a caller may interleave in any order. Thread start-up of the analysers is left out.
- `uuid4` ids are parameters (`groupId`, `legId`).
- `from_dict` conversions of text: `float()`, `int()` and `pd.to_datetime` of strings are counted as raising. Time zones of parsed strings are not modelled.
- `OrderDomain.GetDatetimeValue`: numbers are kept to the microsecond (the nanoseconds below it are dropped), and a float's fraction of a nanosecond is dropped rather than rounded as pandas does.
- `ProfileTouchStrategy.ProfileTouchStrategy.Analyze`: assumes that `Utils.is_premarket_time` and `Utils.is_open_orders` of utils/utils.py are the 07:00 and 15:00 gates of utils/exchange_util.py. Their bodies are not part of this model. `ProfileTouchStrategy.ProfileTouchStrategy.CloseTick` rests on the same assumption.
- `TradingRobot.ProcessedData`: its exception path (logged, then None) is not modelled, because the quotation conversion never raises here. The price is stated by `TradingRobot.ProcessedPriceSign` and the `Convert` lemmas rather than in the function's own contract.
- `TradingRobot.WindowTicks`: states only a length bound. `TradingRobot.ProcessTrades` ties the loop to it.
- `TradingRobot.GetHistoryTrades`: requires a window (a ghost `horizon`) whose response ends the walk. The source loops forever without one.
- `TradingRobot.Robot.SyncInstrument`: the frame kept when its time column fails to parse holds the times as text in the source; the model holds it as ticks, since unparsed text times are outside the model. The series is assigned once, after the merge; the source stores the read series first, and the contract states the outcome of each of the three failure points.
- `TradingRobot.Robot.OnTrade`: an unknown figi (`next` raising StopIteration) is returned as `Failure(UnknownInstrument)`, and an exception of `analyze` as `Failure(AnalyzeFailed)`. In the source both end `trades_stream`; the caller is expected to stop.
- `TradingRobot.Robot.constructor`: the buffers of `trades_stream` are fields created with the robot. A figi that appears twice in INSTRUMENTS collapses to one entry, as with a dict.
- `OrderUtil.PrepareOrders`: requires that goal_step and count_goals are not both negative. In that case the source's loop never ends (see Findings).
- `OrderUtil.PerLegQuantity`: the integer-quotient form is proved for non-negative lots and positive goals only. Other signs are covered by the truncation bounds of `OrderDomain.Truncate`.
- `Analyzer.Analyzer.constructor`: requires a positive PERCENTAGE_STOP_LOSS, a positive TAKE_PROFIT and positive max-volume prices of the candles. The orders' bracketing invariant depends on these; the source assumes them without checking.
- `Analyzer.Analyzer.WriteStatistics`: returns the net points. The log lines and the file write are left out.
- `ProfileTouchStrategy.ProfileTouchStrategy.constructor`: requires that goal_step and count_goals are not both negative, for the same reason as `OrderUtil.PrepareOrders`.
- The touches a history sync could miss are left out: the series the strategy analyses is only the one handed over, and the tick that flushes a buffer is not analysed.

## Findings

| source | as written | input that shows it | evidently intended | confidence | as-written member | corrected member |
|---|---|---|---|---|---|---|
| utils/order_util.py:22-38 | when goal_step and count_goals are both negative, `step` falls from 1 while `final_step` lies above 1, so the loop never ends | goal_step = −1, count_goals = −1: final_step = 2, and step runs 1, 0, −1, … | no legs, as for every other count_goals or goal_step that is not positive | not executed | `OrderUtil.GuardHoldsForever` | `OrderUtil.Ladder` |
| utils/convert.py:4-5 | the price text starts with `str(units)`, so for zero units the sign of a negative nano is lost | units = 0, nano = −10000000 gives 0.01 | −0.01: the older test (tests/convert_test.py:10) passes units as '-0'; the library conversion used in utils/utils.py:7-8 gives −0.01 | not executed | `Convert.ZeroUnitsLoseNanoSign` | `Convert.QuotationToDecimal` |

The live strategy builds its orders with `OrderUtil.Ladder`, whose length is `LegCount`: no legs unless goal_step and count_goals are both positive. `OrderUtil.PrepareOrders` is proved equal to it wherever the source's loop ends.

The rest of the model converts stream prices with `Convert.QuotationToDecimal`, as trading_robot.py does through utils/utils.py. `Convert.ConvertersAgree` proves that the two conversions agree everywhere the sign is carried by units.
