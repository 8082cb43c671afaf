/** The live strategy of strategies/profile_touch_strategy.py: the same
    volume-level touch tracking as the analyser, but a confirmed touch that
    passes the candle gates returns a take-profit ladder built by
    `prepare_orders` instead of simulating positions. Chart rendering is a
    side effect outside this model. */
module ProfileTouchStrategy {
  import opened Wrappers
  import opened Clock
  import opened Market
  import opened ExchangeUtil
  import opened VolumeLevels
  import opened TickSchedule
  import opened OrderDomain
  import opened OrderUtil

  /** The exceptions `analyze` lets through: `candles.iloc[-3]` on fewer than
      three candles, and `prepare_orders` with COUNT_GOALS == 0. */
  datatype StrategyError = IndexError | ZeroDivisionError

  /** The `prepare_orders` call for a confirmed signal: the strategy's
      instrument, the tick price and time, the stop beyond the signal
      candle's max-volume price, and the COUNT_* / GOAL_* settings. */
  function EntryRequest(instrument: string, price: real, time: Instant, current: Candle, s: Settings): LadderRequest
  {
    var direction := EntryDirection(current);
    LadderRequest(instrument, price, Time(time), EntryStop(direction, current, s), direction,
                  s.countLots, s.countGoals, s.goalStep, s.firstGoal)
  }

  /** What check_entry_points returns for a confirmed touch. */
  function EntryResult(instrument: string, price: real, time: Instant, prev: Candle, current: Candle,
                       s: Settings, groupId: string, legId: nat -> string): (r: Result<Option<seq<Order>>, StrategyError>)
    ensures !SignalGatesPass(price, prev, current) ==> r == Success(None)
    ensures r.Failure? <==> SignalGatesPass(price, prev, current) && s.countGoals == 0
    ensures r.Success? && r.value.Some? ==>
      SignalGatesPass(price, prev, current) && |r.value.value| == LegCount(s.goalStep, s.countGoals) &&
      forall k | 0 <= k < |r.value.value| ::
        r.value.value[k].open == Float(price) && r.value.value[k].instrument == Str(instrument) &&
        r.value.value[k].groupId == Str(groupId) && r.value.value[k].time == Time(time)
  {
    if !SignalGatesPass(price, prev, current) then Success(None)
    else if s.countGoals == 0 then Failure(StrategyError.ZeroDivisionError)
    else
      var req := EntryRequest(instrument, price, time, current, s);
      var legs := Ladder(req, groupId, legId);
      assert forall k | 0 <= k < |legs| :: legs[k].open == Float(price) && legs[k].instrument == Str(instrument) &&
                                          legs[k].groupId == Str(groupId) && legs[k].time == Time(time) by {
        forall k | 0 <= k < |legs| ensures legs[k] == Leg(req, groupId, legId(k), k) {
          LadderAt(req, groupId, legId, k);
        }
      }
      Success(Some(legs))
  }

  /** Every take of a ladder lies on the winning side of the entry price
      when its step is positive. */
  lemma TakeOnWinningSide(price: real, stop: real, firstGoal: real, step: real)
    requires firstGoal > 0.0 && step > 0.0
    ensures stop < price ==> TakeAt(price, stop, firstGoal, step) > price
    ensures stop > price ==> TakeAt(price, stop, firstGoal, step) < price
  {
    assert firstGoal * step > 0.0;
    if stop < price {
      assert (price - stop) * (firstGoal * step) > 0.0;
    } else if stop > price {
      assert (stop - price) * (firstGoal * step) > 0.0;
    }
  }

  /** An emitted ladder brackets the entry price: every leg of a long has
      its stop below and its take above the price, a short the other way
      round. */
  lemma LadderBracketsEntry(instrument: string, price: real, time: Instant, prev: Candle, current: Candle,
                            s: Settings, groupId: string, legId: nat -> string, j: nat)
    requires s.percentageStopLoss > 0.0 && s.firstGoal > 0.0 && s.goalStep > 0.0 && current.maxVolumePrice > 0.0
    requires EntryResult(instrument, price, time, prev, current, s, groupId, legId).Success?
    requires EntryResult(instrument, price, time, prev, current, s, groupId, legId).value.Some?
    requires j < |EntryResult(instrument, price, time, prev, current, s, groupId, legId).value.value|
    ensures var legs := EntryResult(instrument, price, time, prev, current, s, groupId, legId).value.value;
            var stop := EntryStop(EntryDirection(current), current, s);
            var tj := TakeAt(price, stop, s.firstGoal, StepAt(s.goalStep, j));
            legs[j].stop == Float(stop) && legs[j].open == Float(price) && legs[j].take == Float(tj) &&
            (EntryDirection(current) == Buy ==> stop < price < tj) &&
            (EntryDirection(current) == Sell ==> stop > price > tj)
  {
    var req := EntryRequest(instrument, price, time, current, s);
    var stop := req.stopLoss;
    StopOnLosingSide(price, prev, current, s);
    LadderAt(req, groupId, legId, j);
    assert StepAt(s.goalStep, j) > 0.0;
    TakeOnWinningSide(price, stop, s.firstGoal, StepAt(s.goalStep, j));
  }

  /** Each later leg of an emitted ladder aims further out than the one
      before: higher for a long, lower for a short. */
  lemma LadderTakesSpreadOut(instrument: string, price: real, time: Instant, prev: Candle, current: Candle,
                             s: Settings, groupId: string, legId: nat -> string, j: nat, k: nat)
    requires s.percentageStopLoss > 0.0 && s.firstGoal > 0.0 && s.goalStep > 0.0 && current.maxVolumePrice > 0.0
    requires EntryResult(instrument, price, time, prev, current, s, groupId, legId).Success?
    requires EntryResult(instrument, price, time, prev, current, s, groupId, legId).value.Some?
    requires j < k < |EntryResult(instrument, price, time, prev, current, s, groupId, legId).value.value|
    ensures var legs := EntryResult(instrument, price, time, prev, current, s, groupId, legId).value.value;
            var stop := EntryStop(EntryDirection(current), current, s);
            var tj := TakeAt(price, stop, s.firstGoal, StepAt(s.goalStep, j));
            var tk := TakeAt(price, stop, s.firstGoal, StepAt(s.goalStep, k));
            legs[j].take == Float(tj) && legs[k].take == Float(tk) &&
            (EntryDirection(current) == Buy ==> tj < tk) &&
            (EntryDirection(current) == Sell ==> tj > tk)
  {
    var req := EntryRequest(instrument, price, time, current, s);
    var stop := req.stopLoss;
    StopOnLosingSide(price, prev, current, s);
    LadderAt(req, groupId, legId, j);
    LadderAt(req, groupId, legId, k);
    TakesMoveAwayFromStop(price, stop, s.firstGoal, s.goalStep, j, k);
  }

  /** The fields of a strategy that `analyze` reads and writes. */
  datatype StrategyState = StrategyState(df: seq<Tick>, firstTickTime: Option<Instant>, fixHour: Option<int>,
                                         clusters: Option<seq<Cluster>>, levels: Levels)

  class ProfileTouchStrategy {
    const instrumentName: string
    const settings: Settings
    /** `Utils.ticks_to_cluster(df, period=PROFILE_PERIOD)`. */
    const toClusters: seq<Tick> -> seq<Cluster>
    /** `Utils.calculate_ratio(Utils.ticks_to_cluster(df, period=SIGNAL_CLUSTER_PERIOD))`. */
    const toCandles: seq<Tick> -> seq<Candle>
    /** `Utils.is_price_in_range_cluster`. */
    const inBand: (real, real) -> bool

    var df: seq<Tick>
    var firstTickTime: Option<Instant>
    /** `fix_date[PROFILE_PERIOD]`. */
    var fixHour: Option<int>
    var clusters: Option<seq<Cluster>>
    var levels: Levels

    ghost predicate Valid()
      reads this
    {
      ValidLevels(levels) && !(settings.goalStep < 0.0 && settings.countGoals < 0)
    }

    function State(): StrategyState
      reads this
    {
      StrategyState(df, firstTickTime, fixHour, clusters, levels)
    }

    /** What `analyze` makes of a state and a tick: the new state and the
        result. A premarket tick changes nothing. Otherwise the hour and
        first-tick bookkeeping is done, the clusters are rebuilt from the
        series before the tick on an hour rollover, the tick is appended and
        checked for a touch, and a due check while orders may be opened and
        some level exists resolves the pending touches against the candles
        of the series with the tick. */
    function Analyzed(st: StrategyState, tick: Tick, groupId: string, legId: nat -> string)
      : (r: (StrategyState, Result<Option<seq<Order>>, StrategyError>))
      ensures IsPremarketTime(tick.time) ==> r == (st, Success(None))
      ensures !IsPremarketTime(tick.time) ==>
        r.0.df == st.df + [tick] && r.0.fixHour.Some? && r.0.fixHour.value >= Hour(tick.time) &&
        r.0.firstTickTime.Some?
      ensures ValidLevels(st.levels) ==> ValidLevels(r.0.levels)
      ensures r.1.Success? && r.1.value.Some? ==> |r.1.value.value| == LegCount(settings.goalStep, settings.countGoals)
    {
      if IsPremarketTime(tick.time) then (st, Success(None))
      else
        var clusters := if HourRollover(st.fixHour, tick.time) then Some(toClusters(st.df)) else st.clusters;
        var touched := if clusters.Some? then AfterTouch(st.levels, clusters.value, tick.price, tick.time, settings, inBand)
                       else st.levels;
        var next := StrategyState(st.df + [tick], Some(FirstTickAfter(st.firstTickTime, tick.time)),
                                  Some(FixHourAfter(st.fixHour, tick.time)), clusters, touched);
        if !(EntryCheckDue(st.firstTickTime, tick.time) && IsOpenOrders(tick.time) && |touched| > 0) then
          (next, Success(None))
        else
          var (resolved, res) := Resolve(touched, toCandles(st.df + [tick]));
          (next.(levels := resolved),
           match res
           case CandleIndexError => Failure(IndexError)
           case NothingConfirmed => Success(None)
           case Confirmed(_, _, prev, current) =>
             EntryResult(instrumentName, tick.price, tick.time, prev, current, settings, groupId, legId))
    }

    constructor(instrumentName: string, settings: Settings, toClusters: seq<Tick> -> seq<Cluster>,
                toCandles: seq<Tick> -> seq<Candle>, inBand: (real, real) -> bool)
      requires !(settings.goalStep < 0.0 && settings.countGoals < 0)
      ensures Valid()
      ensures this.instrumentName == instrumentName && this.settings == settings
      ensures this.toClusters == toClusters && this.toCandles == toCandles && this.inBand == inBand
      ensures df == [] && firstTickTime == None && fixHour == None && clusters == None && levels == []
    {
      this.instrumentName := instrumentName;
      this.settings := settings;
      this.toClusters := toClusters;
      this.toCandles := toCandles;
      this.inBand := inBand;
      df := [];
      firstTickTime := None;
      fixHour := None;
      clusters := None;
      levels := [];
    }

    /** `set_df`: replaces the tick series. */
    method SetDf(newDf: seq<Tick>)
      modifies this
      ensures df == newDf
      ensures firstTickTime == old(firstTickTime) && fixHour == old(fixHour) && clusters == old(clusters)
      ensures levels == old(levels)
    {
      df := newDf;
    }

    /** The strategy's `prepare_orders`: the module function with this
        strategy's instrument and the COUNT_* / GOAL_* settings. */
    method PrepareOrders(price: real, time: Instant, stop: real, direction: Direction,
                         groupId: string, legId: nat -> string)
      returns (r: Result<seq<Order>, LadderError>)
      requires Valid()
      ensures var req := LadderRequest(instrumentName, price, Time(time), stop, direction,
                                       settings.countLots, settings.countGoals, settings.goalStep, settings.firstGoal);
              (settings.countGoals == 0 ==> r == Failure(LadderError.ZeroDivisionError)) &&
              (settings.countGoals != 0 ==> r == Success(Ladder(req, groupId, legId)))
    {
      var req := LadderRequest(instrumentName, price, Time(time), stop, direction,
                               settings.countLots, settings.countGoals, settings.goalStep, settings.firstGoal);
      r := OrderUtil.PrepareOrders(req, groupId, legId);
    }

    /** `check_entry_points`: resolves the pending touches against the
        latest signal candle; a confirmed touch that passes the candle gates
        yields the ladder of orders. */
    method CheckEntryPoints(price: real, time: Instant, groupId: string, legId: nat -> string)
      returns (r: Result<Option<seq<Order>>, StrategyError>)
      requires Valid()
      modifies this
      ensures var (resolved, res) := Resolve(old(levels), toCandles(old(df)));
              levels == resolved &&
              (res.CandleIndexError? ==> r == Failure(IndexError)) &&
              (res.NothingConfirmed? ==> r == Success(None)) &&
              (res.Confirmed? ==>
                 r == EntryResult(instrumentName, price, time, res.prev, res.current, settings, groupId, legId))
      ensures df == old(df) && firstTickTime == old(firstTickTime) && fixHour == old(fixHour)
      ensures clusters == old(clusters)
      ensures Valid()
    {
      var resolved, res := ResolvePending(levels, toCandles(df));
      levels := resolved;
      if res.CandleIndexError? {
        return Failure(IndexError);
      }
      if res.NothingConfirmed? {
        return Success(None);
      }
      var prev, current := res.prev, res.current;
      var direction: Direction;
      if current.direction == Buy {
        if prev.open < current.open {
          return Success(None);
        }
        if price < current.maxVolumePrice {
          return Success(None);
        }
        direction := Buy;
      } else {
        if prev.open > current.open {
          return Success(None);
        }
        if price > current.maxVolumePrice {
          return Success(None);
        }
        direction := Sell;
      }
      var stop := EntryStop(direction, current, settings);
      var orders := PrepareOrders(price, time, stop, direction, groupId, legId);
      if orders.Failure? {
        return Failure(StrategyError.ZeroDivisionError);
      }
      r := Success(Some(orders.value));
    }

    /** The first half of `analyze` after the premarket gate: hour and
        first-tick bookkeeping, the clusters rebuilt from the series before
        this tick on an hour rollover, the tick appended, and the tick
        checked for a touch. */
    method OpenTick(tick: Tick)
      requires Valid()
      modifies this
      ensures df == old(df) + [tick]
      ensures fixHour == Some(FixHourAfter(old(fixHour), tick.time))
      ensures clusters == (if HourRollover(old(fixHour), tick.time) then Some(toClusters(old(df))) else old(clusters))
      ensures firstTickTime == Some(FirstTickBase(old(firstTickTime), tick.time))
      ensures levels == (if clusters.Some? then AfterTouch(old(levels), clusters.value, tick.price, tick.time, settings, inBand)
                         else old(levels))
      ensures Valid()
    {
      var price, time := tick.price, tick.time;
      if fixHour.None? {
        fixHour := Some(Hour(time));
      }
      if firstTickTime.None? {
        firstTickTime := Some(FloorToMinute(time));
      }
      if fixHour.value < Hour(time) {
        fixHour := Some(Hour(time));
        clusters := Some(toClusters(df));
      }
      df := df + [tick];
      if clusters.Some? {
        var touched;
        levels, touched := RecordTouch(levels, clusters.value, price, time, settings, inBand);
      }
    }

    /** The second half of `analyze`: every five minutes of tick time the
        first-tick time moves on and, while orders may be opened and some
        level exists, the entry points are checked and their result returned. */
    method CloseTick(price: real, time: Instant, due: bool, groupId: string, legId: nat -> string)
      returns (r: Result<Option<seq<Order>>, StrategyError>)
      requires Valid()
      modifies this
      ensures firstTickTime == (if due then Some(FloorToMinute(time)) else old(firstTickTime))
      ensures df == old(df) && fixHour == old(fixHour) && clusters == old(clusters)
      ensures !(due && IsOpenOrders(time) && |old(levels)| > 0) ==> r == Success(None) && levels == old(levels)
      ensures due && IsOpenOrders(time) && |old(levels)| > 0 ==>
              var (resolved, res) := Resolve(old(levels), toCandles(old(df)));
              levels == resolved &&
              (res.CandleIndexError? ==> r == Failure(IndexError)) &&
              (res.NothingConfirmed? ==> r == Success(None)) &&
              (res.Confirmed? ==>
                 r == EntryResult(instrumentName, price, time, res.prev, res.current, settings, groupId, legId))
      ensures Valid()
    {
      r := Success(None);
      if due {
        firstTickTime := Some(FloorToMinute(time));
        if IsOpenOrders(time) && |levels| > 0 {
          r := CheckEntryPoints(price, time, groupId, legId);
        }
      }
    }

    /** `analyze`: one live tick; `groupId` and `legId` stand for the uuid4
        values `prepare_orders` draws. */
    method Analyze(tick: Tick, groupId: string, legId: nat -> string)
      returns (r: Result<Option<seq<Order>>, StrategyError>)
      requires Valid()
      modifies this
      ensures IsPremarketTime(tick.time) ==>
        r == Success(None) && df == old(df) && firstTickTime == old(firstTickTime) &&
        fixHour == old(fixHour) && clusters == old(clusters) && levels == old(levels)
      ensures (State(), r) == Analyzed(old(State()), tick, groupId, legId)
      ensures Valid()
    {
      if IsPremarketTime(tick.time) {
        return Success(None);
      }
      OpenTick(tick);
      var due := tick.time - firstTickTime.value >= EntryCheckInterval;
      r := CloseTick(tick.price, tick.time, due, groupId, legId);
    }
  }
}
