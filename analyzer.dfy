/** The back-testing analyser of analyzer.py: it replays ticks, tracks
    touches of volume levels, opens simulated two-leg positions on a winning
    signal candle, closes them on stop-loss, take-profit or the 15:00 cutoff,
    and sums up the points won and lost. Chart rendering, Telegram posts and
    the statistics file are side effects outside this model. */
module Analyzer {
  import opened Wrappers
  import opened Clock
  import opened Market
  import opened ExchangeUtil
  import opened VolumeLevels
  import opened TickSchedule

  /** The analyser skips everything before 07:30 of the tick's own day. */
  function IsAnalyzerPremarket(t: Instant): (r: bool)
    ensures r <==> TimeOfDay(t) < 7 * MicrosPerHour + 30 * MicrosPerMinute
  {
    t < AtTimeOfDay(t, 7, 30)
  }

  /** The analyser's own premarket ends half an hour after the exchange's. */
  lemma AnalyzerPremarketIsLonger(t: Instant)
    ensures IsPremarketTime(t) ==> IsAnalyzerPremarket(t)
    ensures IsAnalyzerPremarket(t) ==> IsOpenOrders(t)
  {
  }

  // ---------------------------------------------------------------------
  // Simulated orders

  /** The `status` entry: 'active' or 'close'. */
  datatype OrderStatus = Active | Closed

  /** One simulated order dict; `close`, `result` and `is_win` only exist
      once the order has been closed. */
  datatype SimOrder = SimOrder(
    open: real, stop: real, take: real, direction: Direction, time: Instant,
    status: OrderStatus, close: Option<real>, result: Option<real>, isWin: Option<bool>,
    volumePrice: real, signalCandle: Candle)

  function Close(o: SimOrder, price: real, result: real, isWin: bool): SimOrder
  {
    o.(status := Closed, close := Some(price), result := Some(result), isWin := Some(isWin))
  }

  /** Points gained by closing at `price`: a long gains when the price rose,
      anything else when it fell. */
  function Gain(o: SimOrder, price: real): real
  {
    if o.direction == Buy then price - o.open else o.open - price
  }

  /** What one tick does to one order in processed_orders. */
  function OrderStep(o: SimOrder, price: real, time: Instant): (r: SimOrder)
    ensures r.open == o.open && r.stop == o.stop && r.take == o.take && r.direction == o.direction && r.time == o.time
    ensures o.status != Active ==> r == o
    ensures r.status == Active ==> r == o
    ensures o.status == Active && !IsOpenOrders(time) ==> r.status == Closed && r.isWin == Some(Gain(o, price) > 0.0)
    ensures (o.status == Active && IsOpenOrders(time) &&
             if o.direction == Buy then price < o.stop else price > o.stop) ==>
            r.status == Closed && r.isWin == Some(false)
    ensures (o.status == Active && IsOpenOrders(time) &&
             if o.direction == Buy then o.stop <= price && price > o.take else price <= o.stop && price < o.take) ==>
            r.status == Closed && r.isWin == Some(true)
    ensures (o.status == Active && IsOpenOrders(time) &&
             if o.direction == Buy then o.stop <= price <= o.take else o.take <= price <= o.stop) ==> r == o
    ensures o.status == Active && r.status == Closed ==> r.close == Some(price) && r.result == Some(Gain(o, price))
  {
    if o.status != Active then o
    else if !IsOpenOrders(time) then Close(o, price, Gain(o, price), Gain(o, price) > 0.0)
    else if o.direction == Buy then
      if price < o.stop then Close(o, price, Gain(o, price), false)
      else if price > o.take then Close(o, price, Gain(o, price), true)
      else o
    else
      if price > o.stop then Close(o, price, Gain(o, price), false)
      else if price < o.take then Close(o, price, Gain(o, price), true)
      else o
  }

  function ProcessAll(orders: seq<SimOrder>, price: real, time: Instant): (r: seq<SimOrder>)
    ensures |r| == |orders|
    ensures forall k | 0 <= k < |r| :: r[k] == OrderStep(orders[k], price, time)
    ensures forall k | 0 <= k < |r| ::
      r[k].direction == orders[k].direction && r[k].time == orders[k].time &&
      (orders[k].status != Active ==> r[k] == orders[k]) && (r[k].status == Active ==> r[k] == orders[k])
    ensures !IsOpenOrders(time) ==> forall k | 0 <= k < |r| :: r[k].status == Closed
  {
    seq(|orders|, k requires 0 <= k < |orders| => OrderStep(orders[k], price, time))
  }

  /** A well-formed order: a long or a short; an active one brackets its
      open price between stop and take and has no outcome yet; a closed one
      has an outcome whose result is the gain at the close price and which
      is a win exactly when that result is positive. */
  predicate OrderShape(o: SimOrder)
  {
    (o.direction == Buy || o.direction == Sell) &&
    (o.status == Active ==>
      o.close.None? && o.result.None? && o.isWin.None? &&
      if o.direction == Buy then o.stop < o.open < o.take else o.take < o.open < o.stop) &&
    (o.status == Closed ==>
      o.close.Some? && o.result.Some? && o.isWin.Some? &&
      o.result.value == Gain(o, o.close.value) && o.isWin.value == (o.result.value > 0.0))
  }

  /** Only one position per direction is open at a time: all active orders
      of one direction are legs of the same entry. */
  predicate OneEntryPerDirection(orders: seq<SimOrder>)
  {
    forall i, j | 0 <= i < |orders| && 0 <= j < |orders| ::
      (orders[i].status == Active && orders[j].status == Active &&
       orders[i].direction == orders[j].direction) ==> orders[i].time == orders[j].time
  }

  /** A tick keeps an order well formed; stop-loss closes lose and
      take-profit closes win because the active order brackets its open. */
  lemma OrderStepKeepsShape(o: SimOrder, price: real, time: Instant)
    requires OrderShape(o)
    ensures OrderShape(OrderStep(o, price, time))
    ensures OrderStep(o, price, time).direction == o.direction && OrderStep(o, price, time).time == o.time
    ensures OrderStep(o, price, time).status == Active ==> OrderStep(o, price, time) == o
  {
  }

  /** A closed order is never touched again. */
  lemma ClosedIsFinal(o: SimOrder, price: real, time: Instant)
    requires o.status == Closed
    ensures OrderStep(o, price, time) == o
  {
  }

  /** Replaying a trace of ticks against one order. */
  function Replay(o: SimOrder, ticks: seq<(real, Instant)>): SimOrder
    decreases |ticks|
  {
    if |ticks| == 0 then o else Replay(OrderStep(o, ticks[0].0, ticks[0].1), ticks[1..])
  }

  /** An order closes at most once: after its closing tick nothing changes,
      whatever the rest of the trace. */
  lemma {:induction false} ClosesOnce(o: SimOrder, ticks: seq<(real, Instant)>)
    requires o.status == Closed
    ensures Replay(o, ticks) == o
    decreases |ticks|
  {
    if |ticks| > 0 {
      ClosedIsFinal(o, ticks[0].0, ticks[0].1);
      ClosesOnce(o, ticks[1..]);
    }
  }

  /** Once a trace reaches a tick at or after 15:00, every order it started
      with is closed. */
  lemma {:induction false} CutoffTickClosesOrder(o: SimOrder, ticks: seq<(real, Instant)>, k: nat)
    requires k < |ticks| && !IsOpenOrders(ticks[k].1)
    ensures Replay(o, ticks).status == Closed
    decreases |ticks|
  {
    var next := OrderStep(o, ticks[0].0, ticks[0].1);
    if k == 0 {
      ClosesOnce(next, ticks[1..]);
    } else {
      CutoffTickClosesOrder(next, ticks[1..], k - 1);
    }
  }

  /** After a tick at or after 15:00 no order is active. */
  lemma CutoffClosesEverything(orders: seq<SimOrder>, price: real, time: Instant)
    requires !IsOpenOrders(time)
    ensures forall k | 0 <= k < |orders| :: ProcessAll(orders, price, time)[k].status == Closed
  {
  }

  lemma ProcessKeepsInvariants(orders: seq<SimOrder>, price: real, time: Instant)
    requires forall k | 0 <= k < |orders| :: OrderShape(orders[k])
    requires OneEntryPerDirection(orders)
    ensures var after := ProcessAll(orders, price, time);
            (forall k | 0 <= k < |after| :: OrderShape(after[k])) && OneEntryPerDirection(after)
  {
    var after := ProcessAll(orders, price, time);
    forall k | 0 <= k < |orders|
      ensures OrderShape(after[k]) && after[k].direction == orders[k].direction && after[k].time == orders[k].time
      ensures after[k].status == Active ==> orders[k].status == Active
    {
      OrderStepKeepsShape(orders[k], price, time);
    }
  }

  // ---------------------------------------------------------------------
  // Entries

  /** `numpy.arange(1, 2, 0.5)`: the take multipliers of the two legs. */
  const Multipliers: seq<real> := [1.0, 1.5]

  function EntryLeg(direction: Direction, price: real, time: Instant, stop: real, s: Settings,
                    levelPrice: real, current: Candle, i: real): SimOrder
  {
    SimOrder(price, stop, price - (stop - price) * s.takeProfit * i, direction, time,
             Active, None, None, None, levelPrice, current)
  }

  function EntryLegs(price: real, time: Instant, s: Settings, levelPrice: real, current: Candle): (r: seq<SimOrder>)
    ensures |r| == |Multipliers|
    ensures forall k | 0 <= k < |r| ::
      r[k].status == Active && r[k].open == price && r[k].time == time &&
      r[k].direction == EntryDirection(current) && r[k].stop == EntryStop(EntryDirection(current), current, s) &&
      r[k].take == price - (r[k].stop - price) * s.takeProfit * Multipliers[k] &&
      r[k].volumePrice == levelPrice && r[k].signalCandle == current &&
      r[k].close.None? && r[k].result.None? && r[k].isWin.None?
  {
    var direction := EntryDirection(current);
    var stop := EntryStop(direction, current, s);
    seq(|Multipliers|, k requires 0 <= k < |Multipliers| =>
      EntryLeg(direction, price, time, stop, s, levelPrice, current, Multipliers[k]))
  }

  /** The active orders of one direction, in order (the `filter` of the
      open-position guard). */
  function ActiveOf(orders: seq<SimOrder>, direction: Direction): (r: seq<SimOrder>)
    ensures |r| <= |orders|
    ensures forall x | x in r :: x in orders && x.status == Active && x.direction == direction
    ensures forall k | 0 <= k < |orders| && orders[k].status == Active && orders[k].direction == direction :: orders[k] in r
    ensures |r| == 0 <==> forall k | 0 <= k < |orders| :: !(orders[k].status == Active && orders[k].direction == direction)
  {
    if |orders| == 0 then []
    else
      var rest := ActiveOf(orders[1..], direction);
      assert forall k | 1 <= k < |orders| :: orders[k] == orders[1..][k - 1];
      if orders[0].status == Active && orders[0].direction == direction then [orders[0]] + rest else rest
  }

  /** The filter keeps the orders' order: filtering a concatenation filters
      each part and joins the results. */
  lemma {:induction false} ActiveOfSplits(a: seq<SimOrder>, b: seq<SimOrder>, direction: Direction)
    ensures ActiveOf(a + b, direction) == ActiveOf(a, direction) + ActiveOf(b, direction)
  {
    if |a| == 0 {
      assert a + b == b;
    } else {
      assert (a + b)[1..] == a[1..] + b;
      ActiveOfSplits(a[1..], b, direction);
    }
  }

  /** The analyser's entry gates once a touch is confirmed: no position
      open on that side, and the signal candle's own gates. */
  predicate EntryAllowed(orders: seq<SimOrder>, price: real, prev: Candle, current: Candle)
  {
    |ActiveOf(orders, EntryDirection(current))| == 0 && SignalGatesPass(price, prev, current)
  }

  function EntryOrders(orders: seq<SimOrder>, price: real, time: Instant, s: Settings,
                       levelPrice: real, prev: Candle, current: Candle): (r: seq<SimOrder>)
    ensures |r| > 0 <==> EntryAllowed(orders, price, prev, current)
    ensures forall x | x in r :: x.status == Active && x.open == price && x.direction == EntryDirection(current)
  {
    if EntryAllowed(orders, price, prev, current) then EntryLegs(price, time, s, levelPrice, current) else []
  }

  /** The settings and candles the analyser relies on: positive stop
      percentage and take factor, positive max-volume prices. */
  ghost predicate SaneInputs(s: Settings, toCandles: seq<Tick> -> seq<Candle>)
  {
    s.percentageStopLoss > 0.0 && s.takeProfit > 0.0 &&
    forall ticks: seq<Tick>, c | c in toCandles(ticks) :: c.maxVolumePrice > 0.0
  }

  /** One leg with a positive multiplier whose stop is on the losing side
      is a well-formed active order; its take lies the multiplier times the
      take-profit ratio of the stop distance away from the open price. */
  lemma LegBracketsOpen(direction: Direction, price: real, time: Instant, stop: real, s: Settings,
                        levelPrice: real, current: Candle, i: real)
    requires 0.0 < i && 0.0 < s.takeProfit
    requires (direction == Buy && stop < price) || (direction == Sell && price < stop)
    ensures var leg := EntryLeg(direction, price, time, stop, s, levelPrice, current, i);
            OrderShape(leg) && leg.status == Active
  {
    var gap := (stop - price) * s.takeProfit;
    if direction == Buy {
      assert gap < 0.0;
      assert gap * i < 0.0;
    } else {
      assert gap > 0.0;
      assert gap * i > 0.0;
    }
  }

  /** A larger multiplier puts the take further from the open price. */
  lemma LegTakesOrdered(direction: Direction, price: real, time: Instant, stop: real, s: Settings,
                        levelPrice: real, current: Candle, i: real, j: real)
    requires i < j && 0.0 < s.takeProfit
    requires (direction == Buy && stop < price) || (direction == Sell && price < stop)
    ensures var a := EntryLeg(direction, price, time, stop, s, levelPrice, current, i);
            var b := EntryLeg(direction, price, time, stop, s, levelPrice, current, j);
            (direction == Buy ==> a.take < b.take) && (direction == Sell ==> b.take < a.take)
  {
    var gap := (stop - price) * s.takeProfit;
    var a := EntryLeg(direction, price, time, stop, s, levelPrice, current, i);
    var b := EntryLeg(direction, price, time, stop, s, levelPrice, current, j);
    assert a.take == price - gap * i && b.take == price - gap * j;
    ScaleSplits(gap, i, j - i);
    if direction == Buy {
      SignOfProduct(stop - price, s.takeProfit);
      SignOfProduct(gap, j - i);
    } else {
      SignOfProduct(price - stop, s.takeProfit);
      assert gap == -((price - stop) * s.takeProfit);
      SignOfProduct(gap, j - i);
    }
  }

  lemma ScaleSplits(g: real, i: real, d: real)
    ensures g * (i + d) == g * i + g * d
  {
  }

  lemma SignOfProduct(x: real, y: real)
    requires y > 0.0
    ensures x < 0.0 ==> x * y < 0.0
    ensures x > 0.0 ==> x * y > 0.0
  {
  }

  /** Every leg of an admitted entry brackets its open price: the stop on
      the losing side, the take on the winning side, and the 1.5 leg's take
      further out than the 1.0 leg's. */
  lemma EntryLegsBracketOpen(orders: seq<SimOrder>, price: real, time: Instant, s: Settings,
                             levelPrice: real, prev: Candle, current: Candle)
    requires s.percentageStopLoss > 0.0 && s.takeProfit > 0.0 && current.maxVolumePrice > 0.0
    requires EntryAllowed(orders, price, prev, current)
    ensures var legs := EntryLegs(price, time, s, levelPrice, current);
            (forall k | 0 <= k < |legs| :: OrderShape(legs[k]) && legs[k].status == Active) &&
            (EntryDirection(current) == Buy ==> legs[0].take < legs[1].take) &&
            (EntryDirection(current) == Sell ==> legs[1].take < legs[0].take)
  {
    var direction := EntryDirection(current);
    var stop := EntryStop(direction, current, s);
    StopOnLosingSide(price, prev, current, s);
    var legs := EntryLegs(price, time, s, levelPrice, current);
    forall k | 0 <= k < |legs| ensures OrderShape(legs[k]) && legs[k].status == Active {
      LegBracketsOpen(direction, price, time, stop, s, levelPrice, current, Multipliers[k]);
    }
    LegTakesOrdered(direction, price, time, stop, s, levelPrice, current, Multipliers[0], Multipliers[1]);
  }

  /** No second position is opened on a side that already has one. */
  lemma EntryKeepsOneEntryPerDirection(orders: seq<SimOrder>, price: real, time: Instant, s: Settings,
                                       levelPrice: real, prev: Candle, current: Candle)
    requires OneEntryPerDirection(orders)
    ensures OneEntryPerDirection(orders + EntryOrders(orders, price, time, s, levelPrice, prev, current))
  {
    var added := EntryOrders(orders, price, time, s, levelPrice, prev, current);
    var all := orders + added;
    if |added| > 0 {
      var d := EntryDirection(current);
      assert forall k | 0 <= k < |orders| :: !(all[k].status == Active && all[k].direction == d);
      assert forall k | |orders| <= k < |all| :: all[k].direction == d && all[k].time == time;
    }
  }

  // ---------------------------------------------------------------------
  // Statistics

  /** `order['is_win']` or `order['result']` on an order still open. */
  datatype StatsError = KeyError

  datatype Stats = Stats(count: nat, wins: nat, earned: real, losses: nat, lost: real)

  predicate Settled(o: SimOrder)
  {
    o.isWin.Some? && o.result.Some?
  }

  function Takes(orders: seq<SimOrder>): (r: seq<SimOrder>)
    requires forall k | 0 <= k < |orders| :: Settled(orders[k])
    ensures forall x | x in r :: x in orders && x.isWin == Some(true)
  {
    if |orders| == 0 then []
    else
      assert Settled(orders[0]);
      if orders[0].isWin.value then [orders[0]] + Takes(orders[1..]) else Takes(orders[1..])
  }

  function Losses(orders: seq<SimOrder>): (r: seq<SimOrder>)
    requires forall k | 0 <= k < |orders| :: Settled(orders[k])
    ensures forall x | x in r :: x in orders && x.isWin == Some(false)
  {
    if |orders| == 0 then []
    else
      assert Settled(orders[0]);
      if !orders[0].isWin.value then [orders[0]] + Losses(orders[1..]) else Losses(orders[1..])
  }

  /** The `sum(order['result'] ...)` of a list of settled orders. */
  function Points(orders: seq<SimOrder>): real
    requires forall k | 0 <= k < |orders| :: Settled(orders[k])
  {
    if |orders| == 0 then 0.0
    else
      assert Settled(orders[0]);
      orders[0].result.value + Points(orders[1..])
  }

  /** Wins and losses split the orders: their counts and their points add
      up to the whole. */
  lemma {:induction false} TakesAndLossesSplit(orders: seq<SimOrder>)
    requires forall k | 0 <= k < |orders| :: Settled(orders[k])
    ensures |Takes(orders)| + |Losses(orders)| == |orders|
    ensures Points(Takes(orders)) + Points(Losses(orders)) == Points(orders)
  {
    if |orders| > 0 {
      TakesAndLossesSplit(orders[1..]);
    }
  }

  /** The figures of write_statistics; it raises KeyError as soon as some
      order has no outcome. */
  function Statistics(orders: seq<SimOrder>): (r: Result<Stats, StatsError>)
    ensures r.Success? <==> forall k | 0 <= k < |orders| :: Settled(orders[k])
    ensures r.Success? ==>
      r.value.count == |orders| && r.value.wins + r.value.losses == |orders| &&
      r.value.earned + r.value.lost == Points(orders)
  {
    if exists k | 0 <= k < |orders| :: !Settled(orders[k]) then Failure(KeyError)
    else
      TakesAndLossesSplit(orders);
      Success(Stats(|orders|, |Takes(orders)|, Points(Takes(orders)), |Losses(orders)|, Points(Losses(orders))))
  }

  /** Points of orders that are all positive, or all not positive. */
  lemma {:induction false} PointsSign(orders: seq<SimOrder>, positive: bool)
    requires forall k | 0 <= k < |orders| :: Settled(orders[k]) && (orders[k].result.value > 0.0) == positive
    ensures positive ==> Points(orders) >= 0.0
    ensures !positive ==> Points(orders) <= 0.0
  {
    if |orders| > 0 {
      PointsSign(orders[1..], positive);
    }
  }

  /** Once every order is closed, the points earned are never negative and
      the points lost never positive. */
  lemma EarnedAndLostHaveTheirSigns(orders: seq<SimOrder>)
    requires forall k | 0 <= k < |orders| :: OrderShape(orders[k]) && orders[k].status == Closed
    ensures Statistics(orders).Success?
    ensures Statistics(orders).value.earned >= 0.0 >= Statistics(orders).value.lost
  {
    var t := Takes(orders);
    var l := Losses(orders);
    forall k | 0 <= k < |t| ensures Settled(t[k]) && (t[k].result.value > 0.0) == true {
      assert t[k] in orders;
    }
    forall k | 0 <= k < |l| ensures Settled(l[k]) && (l[k].result.value > 0.0) == false {
      assert l[k] in orders;
    }
    PointsSign(t, true);
    PointsSign(l, false);
  }

  // ---------------------------------------------------------------------
  // The analyser

  datatype AnalyzeError = IndexError

  class Analyzer {
    const settings: Settings
    /** `Utils.ticks_to_cluster(df, period=CURRENT_TIMEFRAME)`. */
    const toClusters: seq<Tick> -> seq<Cluster>
    /** `Utils.calculate_ratio(Utils.ticks_to_cluster(df, period=SIGNAL_CLUSTER_PERIOD))`. */
    const toCandles: seq<Tick> -> seq<Candle>
    /** `Utils.is_price_in_range_cluster`. */
    const inBand: (real, real) -> bool

    var df: seq<Tick>
    var firstTickTime: Option<Instant>
    /** `fix_date[CURRENT_TIMEFRAME]`, the hour the clusters were last built in. */
    var fixHour: Option<int>
    var clusters: Option<seq<Cluster>>
    var levels: Levels
    var orders: seq<SimOrder>

    ghost predicate Valid()
      reads this
    {
      ValidLevels(levels) && SaneInputs(settings, toCandles) &&
      (forall k | 0 <= k < |orders| :: OrderShape(orders[k])) && OneEntryPerDirection(orders)
    }

    constructor(settings: Settings, toClusters: seq<Tick> -> seq<Cluster>,
                toCandles: seq<Tick> -> seq<Candle>, inBand: (real, real) -> bool)
      requires SaneInputs(settings, toCandles)
      ensures Valid()
      ensures this.settings == settings && this.toClusters == toClusters
      ensures this.toCandles == toCandles && this.inBand == inBand
      ensures df == [] && firstTickTime == None && fixHour == None && clusters == None
      ensures levels == [] && orders == []
    {
      this.settings := settings;
      this.toClusters := toClusters;
      this.toCandles := toCandles;
      this.inBand := inBand;
      df := [];
      firstTickTime := None;
      fixHour := None;
      clusters := None;
      levels := [];
      orders := [];
    }

    /** `set_df`: replaces the tick series. */
    method SetDf(newDf: seq<Tick>)
      modifies this
      ensures df == newDf
      ensures firstTickTime == old(firstTickTime) && fixHour == old(fixHour) && clusters == old(clusters)
      ensures levels == old(levels) && orders == old(orders)
    {
      df := newDf;
    }

    /** `processed_orders`: every active order is closed on the cutoff, its
        stop or its take. */
    method ProcessOrders(price: real, time: Instant)
      requires Valid()
      modifies this
      ensures orders == ProcessAll(old(orders), price, time)
      ensures df == old(df) && firstTickTime == old(firstTickTime) && fixHour == old(fixHour)
      ensures clusters == old(clusters) && levels == old(levels)
      ensures Valid()
    {
      ProcessKeepsInvariants(orders, price, time);
      var i := 0;
      while i < |orders|
        invariant 0 <= i <= |orders| == |old(orders)|
        invariant forall k | 0 <= k < i :: orders[k] == OrderStep(old(orders)[k], price, time)
        invariant forall k | i <= k < |orders| :: orders[k] == old(orders)[k]
        invariant df == old(df) && firstTickTime == old(firstTickTime) && fixHour == old(fixHour)
        invariant clusters == old(clusters) && levels == old(levels)
      {
        var o := orders[i];
        if o.status == Active {
          if !IsOpenOrders(time) {
            var result := if o.direction == Buy then price - o.open else o.open - price;
            o := o.(status := Closed, close := Some(price), result := Some(result), isWin := Some(result > 0.0));
          } else if o.direction == Buy {
            if price < o.stop {
              o := o.(status := Closed, close := Some(price), isWin := Some(false), result := Some(price - o.open));
            } else if price > o.take {
              o := o.(status := Closed, close := Some(price), isWin := Some(true), result := Some(price - o.open));
            }
          } else {
            if price > o.stop {
              o := o.(status := Closed, close := Some(price), isWin := Some(false), result := Some(o.open - price));
            } else if price < o.take {
              o := o.(status := Closed, close := Some(price), isWin := Some(true), result := Some(o.open - price));
            }
          }
        }
        orders := orders[i := o];
        i := i + 1;
      }
      assert orders == ProcessAll(old(orders), price, time);
    }

    /** `check_entry_points`: resolves the pending touches against the
        latest signal candle and, on a confirmed touch that passes the
        gates, opens a two-leg position at the tick price. */
    method CheckEntryPoints(price: real, time: Instant) returns (r: Result<(), AnalyzeError>)
      requires Valid()
      modifies this
      ensures var (resolved, res) := Resolve(old(levels), toCandles(old(df)));
              levels == resolved &&
              (res.CandleIndexError? ==> r == Failure(IndexError) && orders == old(orders)) &&
              (res.NothingConfirmed? ==> r == Success(()) && orders == old(orders)) &&
              (res.Confirmed? ==>
                 r == Success(()) &&
                 orders == old(orders) + EntryOrders(old(orders), price, time, settings, res.levelPrice, res.prev, res.current))
      ensures df == old(df) && firstTickTime == old(firstTickTime) && fixHour == old(fixHour)
      ensures clusters == old(clusters)
      ensures Valid()
    {
      var candles := toCandles(df);
      var resolved, res := ResolvePending(levels, candles);
      levels := resolved;
      if res.CandleIndexError? {
        return Failure(IndexError);
      }
      if res.NothingConfirmed? {
        return Success(());
      }
      var prev, current := res.prev, res.current;
      assert current in candles;
      EntryLegsGuarded(price, time, res.levelPrice, prev, current);
      if current.direction == Buy {
        if |ActiveOf(orders, Buy)| > 0 {
          return Success(());
        }
        if prev.open < current.open {
          return Success(());
        }
        if price < current.maxVolumePrice {
          return Success(());
        }
      } else {
        if |ActiveOf(orders, Sell)| > 0 {
          return Success(());
        }
        if prev.open > current.open {
          return Success(());
        }
        if price > current.maxVolumePrice {
          return Success(());
        }
      }
      OpenPosition(price, time, res.levelPrice, current);
      r := Success(());
    }

    /** The two legs of an admitted entry are appended to the orders, the
        1.0 leg first. */
    method OpenPosition(price: real, time: Instant, levelPrice: real, current: Candle)
      modifies this
      ensures orders == old(orders) + EntryLegs(price, time, settings, levelPrice, current)
      ensures levels == old(levels) && df == old(df) && firstTickTime == old(firstTickTime)
      ensures fixHour == old(fixHour) && clusters == old(clusters)
    {
      var direction := EntryDirection(current);
      var stop := EntryStop(direction, current, settings);
      ghost var before := orders;
      ghost var legs := EntryLegs(price, time, settings, levelPrice, current);
      for k := 0 to |Multipliers|
        invariant orders == before + legs[..k]
        invariant levels == old(levels) && df == old(df) && firstTickTime == old(firstTickTime)
        invariant fixHour == old(fixHour) && clusters == old(clusters)
      {
        var take := price - (stop - price) * settings.takeProfit * Multipliers[k];
        var leg := SimOrder(price, stop, take, direction, time, Active, None, None, None, levelPrice, current);
        assert leg == legs[k];
        assert before + legs[..k + 1] == before + legs[..k] + [leg];
        orders := orders + [leg];
      }
      assert legs[..|Multipliers|] == legs;
    }

    /** An admitted entry keeps the orders well formed. */
    lemma EntryLegsGuarded(price: real, time: Instant, levelPrice: real, prev: Candle, current: Candle)
      requires Valid() && current.maxVolumePrice > 0.0
      ensures var after := orders + EntryOrders(orders, price, time, settings, levelPrice, prev, current);
              (forall k | 0 <= k < |after| :: OrderShape(after[k])) && OneEntryPerDirection(after)
    {
      if EntryAllowed(orders, price, prev, current) {
        EntryLegsBracketOpen(orders, price, time, settings, levelPrice, prev, current);
      }
      EntryKeepsOneEntryPerDirection(orders, price, time, settings, levelPrice, prev, current);
    }

    /** The first half of `analyze` after the premarket gate: orders are
        processed, the hour and first-tick bookkeeping is done, the clusters
        are rebuilt from the series before this tick on an hour rollover, and
        the tick is appended. */
    method OpenTick(tick: Tick)
      requires Valid()
      modifies this
      ensures orders == ProcessAll(old(orders), tick.price, tick.time) && levels == old(levels)
      ensures df == old(df) + [tick]
      ensures fixHour == Some(FixHourAfter(old(fixHour), tick.time))
      ensures clusters == (if HourRollover(old(fixHour), tick.time) then Some(toClusters(old(df))) else old(clusters))
      ensures firstTickTime == Some(FirstTickBase(old(firstTickTime), tick.time))
      ensures Valid()
    {
      var price, time := tick.price, tick.time;
      ProcessOrders(price, time);
      if fixHour.None? {
        fixHour := Some(Hour(time));
      }
      if firstTickTime.None? {
        firstTickTime := Some(FloorToMinute(time));
      }
      if fixHour.value < Hour(time) {
        fixHour := Some(Hour(time));
        clusters := Some(toClusters(df));
      }
      df := df + [tick];
    }

    /** The second half of `analyze`: every five minutes of tick time the
        first-tick time moves on and, while orders may be opened and some
        level exists, the entry points are checked; then the tick is
        checked for a touch, unless the entry check raised. */
    method CloseTick(price: real, time: Instant, due: bool) returns (r: Result<(), AnalyzeError>)
      requires Valid()
      modifies this
      ensures firstTickTime == (if due then Some(FloorToMinute(time)) else old(firstTickTime))
      ensures df == old(df) && fixHour == old(fixHour) && clusters == old(clusters)
      ensures var checked := due && IsOpenOrders(time) && |old(levels)| > 0;
              var (resolved, res) := if checked then Resolve(old(levels), toCandles(old(df)))
                                     else (old(levels), NothingConfirmed);
              (res.CandleIndexError? ==> r == Failure(IndexError) && levels == resolved && orders == old(orders)) &&
              (!res.CandleIndexError? ==>
                 r == Success(()) &&
                 levels == (if clusters.Some? then AfterTouch(resolved, clusters.value, price, time, settings, inBand)
                            else resolved) &&
                 orders == old(orders) +
                   (if res.Confirmed? then EntryOrders(old(orders), price, time, settings, res.levelPrice, res.prev, res.current)
                    else []))
      ensures Valid()
    {
      r := Success(());
      if due {
        firstTickTime := Some(FloorToMinute(time));
        if IsOpenOrders(time) && |levels| > 0 {
          r := CheckEntryPoints(price, time);
          if r.Failure? {
            return;
          }
        }
      }
      if clusters.Some? {
        var touched;
        levels, touched := RecordTouch(levels, clusters.value, price, time, settings, inBand);
      }
    }

    /** `analyze`: one tick of the replay. */
    method Analyze(tick: Tick) returns (r: Result<(), AnalyzeError>)
      requires Valid()
      modifies this
      ensures IsAnalyzerPremarket(tick.time) ==>
        r == Success(()) && df == old(df) && firstTickTime == old(firstTickTime) &&
        fixHour == old(fixHour) && clusters == old(clusters) && levels == old(levels) && orders == old(orders)
      ensures !IsAnalyzerPremarket(tick.time) ==>
        df == old(df) + [tick] &&
        fixHour == Some(FixHourAfter(old(fixHour), tick.time)) &&
        clusters == (if HourRollover(old(fixHour), tick.time) then Some(toClusters(old(df))) else old(clusters)) &&
        firstTickTime == Some(FirstTickAfter(old(firstTickTime), tick.time))
      ensures !IsAnalyzerPremarket(tick.time) ==>
        var processed := ProcessAll(old(orders), tick.price, tick.time);
        var checked := EntryCheckDue(old(firstTickTime), tick.time) && IsOpenOrders(tick.time) && |old(levels)| > 0;
        var (resolved, res) := if checked then Resolve(old(levels), toCandles(old(df) + [tick]))
                               else (old(levels), NothingConfirmed);
        (res.CandleIndexError? ==> r == Failure(IndexError) && levels == resolved && orders == processed) &&
        (!res.CandleIndexError? ==>
           r == Success(()) &&
           levels == (if clusters.Some? then AfterTouch(resolved, clusters.value, tick.price, tick.time, settings, inBand)
                      else resolved) &&
           orders == processed +
             (if res.Confirmed? then EntryOrders(processed, tick.price, tick.time, settings, res.levelPrice, res.prev, res.current)
              else []))
      ensures Valid()
    {
      if IsAnalyzerPremarket(tick.time) {
        return Success(());
      }
      OpenTick(tick);
      var due := tick.time - firstTickTime.value >= EntryCheckInterval;
      r := CloseTick(tick.price, tick.time, due);
    }

    /** `write_statistics`: rebuilds the clusters of a non-empty series and
        returns the net points, earned plus lost. */
    method WriteStatistics() returns (r: Result<real, StatsError>)
      requires Valid()
      modifies this
      ensures clusters == (if |df| > 0 then Some(toClusters(df)) else old(clusters))
      ensures df == old(df) && firstTickTime == old(firstTickTime) && fixHour == old(fixHour)
      ensures levels == old(levels) && orders == old(orders)
      ensures match Statistics(orders)
              case Failure(e) => r == Failure(e)
              case Success(st) => r == Success(st.earned + st.lost)
      ensures Valid()
    {
      if |df| > 0 {
        clusters := Some(toClusters(df));
      }
      var st :- Statistics(orders);
      r := Success(st.earned + st.lost);
    }
  }
}
