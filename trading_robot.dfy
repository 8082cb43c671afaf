/** The live side of trading_robot.py: converting stream trades, the
    backward walk over the trade history, and the buffering protocol that
    keeps live ticks aside while the history is being loaded. The network
    client, the CSV files, the wall clock and the order service are outside
    this model: their results come in as parameters. */
module TradingRobot {
  import opened Wrappers
  import opened Clock
  import opened Market
  import opened Convert
  import opened ExchangeUtil
  import opened OrderDomain
  import opened ProfileTouchStrategy

  // ---------------------------------------------------------------------
  // processed_data

  /** A trade as the market-data API delivers it; the price is a quotation. */
  datatype RawTrade = RawTrade(figi: string, direction: Direction, priceUnits: int, priceNano: int,
                               quantity: int, time: Instant)

  /** `processed_data`: no tick for a missing trade; otherwise the trade's
      fields with the quotation turned into its signed decimal value. */
  function ProcessedData(trade: Option<RawTrade>): (r: Option<Tick>)
    ensures r.None? <==> trade.None?
    ensures r.Some? ==>
      var t := trade.value;
      r.value.figi == t.figi && r.value.direction == t.direction && r.value.quantity == t.quantity &&
      r.value.time == t.time
  {
    match trade
    case None => None
    case Some(t) => Some(Tick(t.figi, t.direction, QuotationToDecimal(t.priceUnits, t.priceNano), t.quantity, t.time))
  }

  /** For a nano field below one unit, the tick's price is negative exactly
      when the quotation is: negative units, or zero units and negative nano. */
  lemma ProcessedPriceSign(t: RawTrade)
    requires Abs(t.priceNano) < NanoPerUnit
    ensures var price := ProcessedData(Some(t)).value.price;
            price < 0.0 <==> t.priceUnits < 0 || (t.priceUnits == 0 && t.priceNano < 0)
  {
    var price := QuotationToDecimal(t.priceUnits, t.priceNano);
    if t.priceUnits != 0 {
      var frac := t.priceNano as real / NanoPerUnit as real;
      assert -1.0 < frac < 1.0;
    }
  }

  // ---------------------------------------------------------------------
  // Sorting by time

  predicate SortedByTime(s: seq<Tick>)
  {
    forall i, j | 0 <= i < j < |s| :: s[i].time <= s[j].time
  }

  function InsertByTime(t: Tick, s: seq<Tick>): (r: seq<Tick>)
    requires SortedByTime(s)
    ensures SortedByTime(r) && multiset(r) == multiset(s) + multiset{t}
  {
    if |s| == 0 then [t]
    else if t.time <= s[0].time then
      ConsSorted(t, s);
      [t] + s
    else
      var rest := InsertByTime(t, s[1..]);
      LowerBoundKept(s[0].time, t, s[1..], rest);
      ConsSorted(s[0], rest);
      assert s == [s[0]] + s[1..];
      assert multiset([s[0]] + rest) == multiset{s[0]} + multiset(rest);
      [s[0]] + rest
  }

  /** A tick no later than the head of a sorted sequence extends it sorted. */
  lemma ConsSorted(x: Tick, s: seq<Tick>)
    requires SortedByTime(s) && forall k | 0 <= k < |s| :: x.time <= s[k].time
    ensures SortedByTime([x] + s)
  {
    var r := [x] + s;
    forall i, j | 0 <= i < j < |r| ensures r[i].time <= r[j].time {
      if i > 0 {
        assert r[i] == s[i - 1] && r[j] == s[j - 1];
      } else {
        assert r[j] == s[j - 1];
      }
    }
  }

  /** Every element of a sequence holding the ticks of `s` and `t` is no
      earlier than a bound that `t` and all of `s` respect. */
  lemma LowerBoundKept(bound: Instant, t: Tick, s: seq<Tick>, rest: seq<Tick>)
    requires bound <= t.time && forall i | 0 <= i < |s| :: bound <= s[i].time
    requires multiset(rest) == multiset(s) + multiset{t}
    ensures forall k | 0 <= k < |rest| :: bound <= rest[k].time
  {
    forall k | 0 <= k < |rest|
      ensures bound <= rest[k].time
    {
      assert rest[k] in multiset(rest);
      if rest[k] != t {
        assert rest[k] in multiset(s);
        var j :| 0 <= j < |s| && s[j] == rest[k];
      }
    }
  }

  /** `sort_values('time')`: ordered by time, with the same ticks. */
  function SortByTime(s: seq<Tick>): (r: seq<Tick>)
    ensures SortedByTime(r) && multiset(r) == multiset(s)
  {
    if |s| == 0 then []
    else
      assert s == s[..|s| - 1] + [s[|s| - 1]];
      InsertByTime(s[|s| - 1], SortByTime(s[..|s| - 1]))
  }

  // ---------------------------------------------------------------------
  // get_history_trades

  /** TIME_STEP: the width of one history request, in minutes. */
  const TimeStep: int := 60

  /** A `get_last_trades` call: it raises, returns nothing, or returns trades. */
  datatype Response = Raised | NoResponse | Trades(trades: seq<Option<RawTrade>>)

  /** The walk goes on after a response with at least one trade. */
  predicate Continues(r: Response)
  {
    r.Trades? && |r.trades| > 0
  }

  /** The k-th request covers [now - (k+1) hours, now - k hours]. */
  function WindowFrom(now: Instant, k: nat): Instant { now - Minutes((k + 1) * TimeStep) }

  function WindowTo(now: Instant, k: nat): Instant { now - Minutes(k * TimeStep) }

  /** Consecutive windows abut: each starts where the next older one ends,
      so the walk covers [now - k hours, now] without gaps. */
  lemma WindowsAbut(now: Instant, k: nat)
    ensures WindowFrom(now, k) == WindowTo(now, k + 1)
    ensures WindowTo(now, k) - WindowFrom(now, k) == MicrosPerHour
  {
  }

  /** The walk's minute counter after k requests picks the k-th window. */
  lemma WindowAt(now: Instant, k: nat, time: int)
    requires time == TimeStep * k
    ensures now - Minutes(time + TimeStep) == WindowFrom(now, k)
    ensures now - Minutes(time) == WindowTo(now, k)
  {
    assert time + TimeStep == (k + 1) * TimeStep;
  }

  function Fetched(now: Instant, fetch: (Instant, Instant) -> Response, k: nat): Response
  {
    fetch(WindowFrom(now, k), WindowTo(now, k))
  }

  /** The ticks of one response, trades that give no tick skipped. */
  function WindowTicks(trades: seq<Option<RawTrade>>): (r: seq<Tick>)
    ensures |r| <= |trades|
  {
    if |trades| == 0 then []
    else
      var last := trades[|trades| - 1];
      WindowTicks(trades[..|trades| - 1]) + (if ProcessedData(last).Some? then [ProcessedData(last).value] else [])
  }

  /** The ticks of the first k responses. */
  function Collected(now: Instant, fetch: (Instant, Instant) -> Response, k: nat): seq<Tick>
  {
    if k == 0 then []
    else
      var r := Fetched(now, fetch, k - 1);
      Collected(now, fetch, k - 1) + (if r.Trades? then WindowTicks(r.trades) else [])
  }

  /** The walk only adds ticks: the ticks of the first j responses begin
      the ticks of the first k. */
  lemma {:induction false} CollectedGrows(now: Instant, fetch: (Instant, Instant) -> Response, j: nat, k: nat)
    requires j <= k
    ensures Collected(now, fetch, j) <= Collected(now, fetch, k)
    decreases k - j
  {
    if j < k {
      CollectedGrows(now, fetch, j, k - 1);
      var r := Fetched(now, fetch, k - 1);
      assert Collected(now, fetch, k) == Collected(now, fetch, k - 1) + (if r.Trades? then WindowTicks(r.trades) else []);
    }
  }

  lemma CollectedStep(now: Instant, fetch: (Instant, Instant) -> Response, k: nat)
    requires Fetched(now, fetch, k).Trades?
    ensures Collected(now, fetch, k + 1) == Collected(now, fetch, k) + WindowTicks(Fetched(now, fetch, k).trades)
  {
  }

  /** The first window at or after `from` that ends the walk. */
  function FirstStop(now: Instant, fetch: (Instant, Instant) -> Response, from: nat, horizon: nat): (r: nat)
    requires from <= horizon && !Continues(Fetched(now, fetch, horizon))
    ensures from <= r <= horizon && !Continues(Fetched(now, fetch, r))
    ensures forall j | from <= j < r :: Continues(Fetched(now, fetch, j))
    decreases horizon - from
  {
    if !Continues(Fetched(now, fetch, from)) then from else FirstStop(now, fetch, from + 1, horizon)
  }

  /** A window before the first stop lets the walk go on; the first window
      that does not is the first stop itself. */
  lemma FirstStopBound(now: Instant, fetch: (Instant, Instant) -> Response, k: nat, horizon: nat)
    requires !Continues(Fetched(now, fetch, horizon)) && k <= FirstStop(now, fetch, 0, horizon)
    ensures Continues(Fetched(now, fetch, k)) ==> k + 1 <= FirstStop(now, fetch, 0, horizon)
    ensures !Continues(Fetched(now, fetch, k)) ==> k == FirstStop(now, fetch, 0, horizon)
  {
  }

  /** `get_history_trades`: walks back one hour at a time from `now` until a
      request returns no trades or raises, and returns the trades collected
      on the way ordered by time. `horizon` is a window known to end the
      walk; the source's loop does not end without one. */
  method GetHistoryTrades(now: Instant, fetch: (Instant, Instant) -> Response, ghost horizon: nat)
    returns (history: seq<Tick>)
    requires !Continues(Fetched(now, fetch, horizon))
    ensures SortedByTime(history)
    ensures multiset(history) == multiset(Collected(now, fetch, FirstStop(now, fetch, 0, horizon)))
  {
    history := [];
    var time := 0;
    ghost var k: nat := 0;
    while true
      invariant time == TimeStep * k && k <= FirstStop(now, fetch, 0, horizon)
      invariant SortedByTime(history) && multiset(history) == multiset(Collected(now, fetch, k))
      decreases horizon - k
    {
      var response := fetch(now - Minutes(time + TimeStep), now - Minutes(time));
      WindowAt(now, k, time);
      assert response == Fetched(now, fetch, k);
      FirstStopBound(now, fetch, k, horizon);
      if response.Raised? || response.NoResponse? || |response.trades| == 0 {
        break;
      }
      var ticks := ProcessTrades(response.trades);
      var merged := history + ticks;
      assert multiset(merged) == multiset(history) + multiset(ticks);
      CollectedStep(now, fetch, k);
      history := SortByTime(merged);
      time := time + TimeStep;
      k := k + 1;
    }
  }

  /** The `for trade in response.trades` loop: each trade's tick appended
      in order, trades that give none skipped. */
  method ProcessTrades(trades: seq<Option<RawTrade>>) returns (ticks: seq<Tick>)
    ensures ticks == WindowTicks(trades)
  {
    ticks := [];
    for i := 0 to |trades|
      invariant ticks == WindowTicks(trades[..i])
    {
      var processed := ProcessedData(trades[i]);
      assert trades[..i + 1][..i] == trades[..i];
      if processed.Some? {
        ticks := ticks + [processed.value];
      }
    }
    assert trades[..|trades|] == trades;
  }

  // ---------------------------------------------------------------------
  // The robot

  /** Reading back the saved series of one instrument: `read_csv` raised;
      the frame was read but `pd.to_datetime` of its time column raised, so
      the frame stays as read; or the series was read with parsed times. */
  datatype SavedSeries = ReadFailed | TimeParseFailed(frame: seq<Tick>) | Read(series: seq<Tick>)

  /** What ends `trades_stream`: a trade of an instrument that is not in
      INSTRUMENTS (`next` raises StopIteration), or an exception of the
      strategy's `analyze`. */
  datatype StreamError = UnknownInstrument | AnalyzeFailed(cause: StrategyError)

  /** The figis of a list of instruments. */
  function Figis(instruments: seq<Instrument>): (r: set<string>)
  {
    if |instruments| == 0 then {}
    else Figis(instruments[..|instruments| - 1]) + {instruments[|instruments| - 1].figi}
  }

  /** One fresh strategy per instrument, keyed by figi (a later duplicate
      figi replaces the earlier one, as a dict assignment does). */
  method NewStrategies(instruments: seq<Instrument>, settings: Settings, toClusters: seq<Tick> -> seq<Cluster>,
                       toCandles: seq<Tick> -> seq<Candle>, inBand: (real, real) -> bool)
    returns (st: map<string, ProfileTouchStrategy>)
    requires !(settings.goalStep < 0.0 && settings.countGoals < 0)
    ensures st.Keys == Figis(instruments)
    ensures forall f | f in st :: fresh(st[f]) && st[f].Valid() && st[f].df == [] && st[f].levels == []
    ensures forall f, g | f in st && g in st && f != g :: st[f] != st[g]
  {
    st := map[];
    for i := 0 to |instruments|
      invariant st.Keys == Figis(instruments[..i])
      invariant forall f | f in st :: fresh(st[f]) && st[f].Valid() && st[f].df == [] && st[f].levels == []
      invariant forall f, g | f in st && g in st && f != g :: st[f] != st[g]
    {
      var strategy := new ProfileTouchStrategy(instruments[i].name, settings, toClusters, toCandles, inBand);
      st := st[instruments[i].figi := strategy];
      assert instruments[..i + 1][..i] == instruments[..i];
    }
    assert instruments[..|instruments|] == instruments;
  }

  class Robot {
    /** INSTRUMENTS. */
    const instruments: seq<Instrument>
    /** The figis of INSTRUMENTS. */
    const figis: set<string>
    /** `is_history_processed`: live ticks are buffered while it is set. */
    var isHistoryProcessed: bool
    /** `df_by_instrument`: the tick series of each instrument. */
    var series: map<string, seq<Tick>>
    /** `temp_df` of `trades_stream`: live ticks that arrived during a sync. */
    var buffers: map<string, seq<Tick>>
    /** `strategy`: one strategy per instrument. */
    var strategies: map<string, ProfileTouchStrategy>

    ghost predicate Valid()
      reads this, strategies.Values
    {
      series.Keys == figis && buffers.Keys == figis && strategies.Keys == figis &&
      (forall f | f in strategies :: strategies[f].Valid()) &&
      (forall f, g | f in strategies && g in strategies && f != g :: strategies[f] != strategies[g])
    }

    /** `__init__` (and the start of `trades_stream`): an empty series, an
        empty buffer and a fresh strategy per instrument, and the flag set. */
    constructor(instruments: seq<Instrument>, settings: Settings, toClusters: seq<Tick> -> seq<Cluster>,
                toCandles: seq<Tick> -> seq<Candle>, inBand: (real, real) -> bool)
      requires !(settings.goalStep < 0.0 && settings.countGoals < 0)
      ensures Valid() && fresh(strategies.Values) && figis == Figis(instruments)
      ensures this.instruments == instruments && isHistoryProcessed
      ensures forall f | f in series :: series[f] == [] && buffers[f] == []
      ensures forall f | f in strategies :: strategies[f].df == [] && strategies[f].levels == []
    {
      var st := NewStrategies(instruments, settings, toClusters, toCandles, inBand);
      this.instruments := instruments;
      figis := Figis(instruments);
      isHistoryProcessed := true;
      series := map f | f in st.Keys :: [];
      buffers := map f | f in st.Keys :: [];
      strategies := st;
    }

    /** The start of `sync_df`: live ticks go to the buffers from now on. */
    method BeginSync()
      requires Valid()
      modifies this
      ensures Valid()
      ensures isHistoryProcessed
      ensures series == old(series) && buffers == old(buffers) && strategies == old(strategies)
    {
      isHistoryProcessed := true;
    }

    /** One instrument of `sync_df`: the saved series is read back, its
        time column parsed, and the history fetched and merged in. A read
        that raises leaves the series as it was; a time column that does not
        parse leaves the frame as read and fetches nothing; a merge that
        raises leaves the series just read. */
    method SyncInstrument(figi: string, loaded: SavedSeries, now: Instant,
                          fetch: (Instant, Instant) -> Response, ghost horizon: nat,
                          merge: (seq<Tick>, seq<Tick>) -> Option<seq<Tick>>)
      returns (history: seq<Tick>)
      requires Valid() && figi in series
      requires !Continues(Fetched(now, fetch, horizon))
      modifies this
      ensures loaded.ReadFailed? ==> history == [] && series == old(series)
      ensures loaded.TimeParseFailed? ==> history == [] && series == old(series)[figi := loaded.frame]
      ensures loaded.Read? ==>
        SortedByTime(history) &&
        multiset(history) == multiset(Collected(now, fetch, FirstStop(now, fetch, 0, horizon))) &&
        series == old(series)[figi := match merge(loaded.series, history)
                                      case Some(m) => m
                                      case None => loaded.series]
      ensures isHistoryProcessed == old(isHistoryProcessed) && buffers == old(buffers)
      ensures strategies == old(strategies)
      ensures Valid()
    {
      history := [];
      if loaded.ReadFailed? {
        return;
      }
      if loaded.TimeParseFailed? {
        SetSeries(figi, loaded.frame);
        return;
      }
      var current := loaded.series;
      history := GetHistoryTrades(now, fetch, horizon);
      var merged := merge(current, history);
      if merged.Some? {
        current := merged.value;
      }
      SetSeries(figi, current);
    }

    /** `df_by_instrument[figi] = ...`. */
    method SetSeries(figi: string, s: seq<Tick>)
      requires Valid() && figi in series
      modifies this
      ensures series == old(series)[figi := s]
      ensures isHistoryProcessed == old(isHistoryProcessed) && buffers == old(buffers)
      ensures strategies == old(strategies)
      ensures Valid()
    {
      series := series[figi := s];
    }

    /** The end of `sync_df`, reached even when an instrument failed: live
        ticks are analysed again. */
    method EndSync()
      requires Valid()
      modifies this
      ensures Valid()
      ensures !isHistoryProcessed
      ensures series == old(series) && buffers == old(buffers) && strategies == old(strategies)
    {
      isHistoryProcessed := false;
    }

    /** One message of `trades_stream`. While a sync runs the tick is
        buffered. After it, the first tick of an instrument with a non-empty
        buffer flushes the buffer and itself into the series in arrival order
        and hands the series to the strategy, without analysing; otherwise
        the tick is analysed first and then appended. Other instruments are
        never touched. */
    method OnTrade(trade: Option<RawTrade>, groupId: string, legId: nat -> string)
      returns (r: Result<Option<seq<Order>>, StreamError>)
      requires Valid()
      modifies this, strategies.Values
      ensures Valid()
      ensures isHistoryProcessed == old(isHistoryProcessed) && strategies == old(strategies)
      ensures trade.None? ==> r == Success(None) && series == old(series) && buffers == old(buffers)
      ensures trade.Some? && trade.value.figi !in figis ==>
        r == Failure(UnknownInstrument) && series == old(series) && buffers == old(buffers)
      ensures trade.Some? && trade.value.figi in figis ==>
        forall g | g in strategies && g != trade.value.figi :: unchanged(strategies[g])
      ensures trade.Some? && trade.value.figi in figis && old(isHistoryProcessed) ==>
        var f := trade.value.figi;
        r == Success(None) && series == old(series) &&
        buffers == old(buffers)[f := old(buffers)[f] + [ProcessedData(trade).value]] && unchanged(strategies[f])
      ensures trade.Some? && trade.value.figi in figis && !old(isHistoryProcessed) && |old(buffers)[trade.value.figi]| > 0 ==>
        var f := trade.value.figi;
        r == Success(None) && series == old(series)[f := old(series)[f] + old(buffers)[f] + [ProcessedData(trade).value]] &&
        buffers == old(buffers)[f := []] && strategies[f].State() == old(strategies[f].State()).(df := series[f])
      ensures trade.Some? && trade.value.figi in figis && !old(isHistoryProcessed) && |old(buffers)[trade.value.figi]| == 0 ==>
        var f := trade.value.figi;
        var (st, res) := strategies[f].Analyzed(old(strategies[f].State()), ProcessedData(trade).value, groupId, legId);
        buffers == old(buffers) && strategies[f].State() == st &&
        (res.Failure? ==> r == Failure(AnalyzeFailed(res.error)) && series == old(series)) &&
        (res.Success? ==> r == Success(res.value) && series == old(series)[f := old(series)[f] + [ProcessedData(trade).value]])
    {
      if trade.None? {
        return Success(None);
      }
      var figi := trade.value.figi;
      if figi !in figis {
        return Failure(UnknownInstrument);
      }
      var processed := ProcessedData(trade);
      var tick := processed.value;
      if isHistoryProcessed {
        buffers := buffers[figi := buffers[figi] + [tick]];
        return Success(None);
      }
      if |buffers[figi]| > 0 {
        Flush(figi, tick);
        return Success(None);
      }
      r := AnalyzeLive(figi, tick, groupId, legId);
    }

    /** The first tick after a sync with a non-empty buffer: buffer and tick
        join the series, which the strategy receives without analysing. */
    method Flush(figi: string, tick: Tick)
      requires Valid() && figi in buffers
      modifies this, strategies[figi]
      ensures Valid()
      ensures series == old(series)[figi := old(series)[figi] + old(buffers)[figi] + [tick]]
      ensures buffers == old(buffers)[figi := []]
      ensures strategies[figi].State() == old(strategies[figi].State()).(df := series[figi])
      ensures isHistoryProcessed == old(isHistoryProcessed) && strategies == old(strategies)
    {
      SetSeries(figi, series[figi] + buffers[figi] + [tick]);
      ClearBuffer(figi);
      HandOver(figi);
    }

    /** `temp_df[figi] = temp_df[figi].iloc[0:0]`. */
    method ClearBuffer(figi: string)
      requires Valid() && figi in buffers
      modifies this
      ensures buffers == old(buffers)[figi := []]
      ensures isHistoryProcessed == old(isHistoryProcessed) && series == old(series)
      ensures strategies == old(strategies)
      ensures Valid()
    {
      buffers := buffers[figi := []];
    }

    /** `strategy[figi].set_df(df_by_instrument[figi])`. */
    method HandOver(figi: string)
      requires Valid() && figi in strategies
      modifies strategies[figi]
      ensures strategies[figi].State() == old(strategies[figi].State()).(df := series[figi])
      ensures Valid()
    {
      strategies[figi].SetDf(series[figi]);
    }

    /** A live tick with nothing buffered: analysed, then appended to the
        series unless `analyze` raised, which ends the stream. */
    method AnalyzeLive(figi: string, tick: Tick, groupId: string, legId: nat -> string)
      returns (r: Result<Option<seq<Order>>, StreamError>)
      requires Valid() && figi in strategies
      modifies this, strategies[figi]
      ensures Valid()
      ensures buffers == old(buffers) && isHistoryProcessed == old(isHistoryProcessed) && strategies == old(strategies)
      ensures var (st, res) := strategies[figi].Analyzed(old(strategies[figi].State()), tick, groupId, legId);
              strategies[figi].State() == st &&
              (res.Failure? ==> r == Failure(AnalyzeFailed(res.error)) && series == old(series)) &&
              (res.Success? ==> r == Success(res.value) && series == old(series)[figi := old(series)[figi] + [tick]])
    {
      var analyzed := Analyze(figi, tick, groupId, legId);
      if analyzed.Failure? {
        return Failure(AnalyzeFailed(analyzed.error));
      }
      SetSeries(figi, series[figi] + [tick]);
      r := Success(analyzed.value);
    }

    /** `strategy[figi].analyze(...)`. */
    method Analyze(figi: string, tick: Tick, groupId: string, legId: nat -> string)
      returns (r: Result<Option<seq<Order>>, StrategyError>)
      requires Valid() && figi in strategies
      modifies strategies[figi]
      ensures (strategies[figi].State(), r) == strategies[figi].Analyzed(old(strategies[figi].State()), tick, groupId, legId)
      ensures Valid()
    {
      r := strategies[figi].Analyze(tick, groupId, legId);
    }
  }

  /** The ticks a sequence of trades becomes. */
  function TicksOf(trades: seq<RawTrade>): (r: seq<Tick>)
    ensures |r| == |trades|
  {
    if |trades| == 0 then []
    else TicksOf(trades[..|trades| - 1]) + [ProcessedData(Some(trades[|trades| - 1])).value]
  }

  lemma TicksOfStep(start: seq<Tick>, trades: seq<RawTrade>, i: nat)
    requires i < |trades|
    ensures start + TicksOf(trades[..i]) + [ProcessedData(Some(trades[i])).value] == start + TicksOf(trades[..i + 1])
  {
    assert trades[..i + 1][..i] == trades[..i];
  }

  lemma OverwriteTwice<K, V>(m: map<K, V>, k: K, a: V, b: V)
    ensures m[k := a][k := b] == m[k := b]
  {
  }

  lemma ConcatRegroup(a: seq<Tick>, b: seq<Tick>, c: seq<Tick>, d: seq<Tick>)
    ensures a + (b + c) + d == a + b + c + d
  {
  }

  /** A tick arriving while the history loads is appended to its
      instrument's buffer; nothing else changes. */
  method TradeDuringSync(robot: Robot, trade: RawTrade, groupId: string, legId: nat -> string)
    requires robot.Valid() && robot.isHistoryProcessed && trade.figi in robot.figis
    modifies robot, robot.strategies.Values
    ensures robot.Valid() && robot.isHistoryProcessed && robot.strategies == old(robot.strategies)
    ensures robot.series == old(robot.series)
    ensures robot.buffers == old(robot.buffers)[trade.figi := old(robot.buffers[trade.figi]) +
                                                              [ProcessedData(Some(trade)).value]]
  {
    var r := robot.OnTrade(Some(trade), groupId, legId);
  }

  /** Ticks of one instrument arriving while the history loads are buffered
      in arrival order and nothing else changes. */
  method BufferDuringSync(robot: Robot, figi: string, during: seq<RawTrade>, groupId: string, legId: nat -> string)
    requires robot.Valid() && robot.isHistoryProcessed && figi in robot.figis
    requires forall i | 0 <= i < |during| :: during[i].figi == figi
    modifies robot, robot.strategies.Values
    ensures robot.Valid() && robot.isHistoryProcessed && robot.strategies == old(robot.strategies)
    ensures robot.series == old(robot.series)
    ensures robot.buffers == old(robot.buffers)[figi := old(robot.buffers[figi]) + TicksOf(during)]
  {
    ghost var start := robot.buffers[figi];
    assert start + TicksOf(during[..0]) == start;
    assert robot.buffers == robot.buffers[figi := start];
    for i := 0 to |during|
      invariant robot.Valid() && robot.isHistoryProcessed && robot.strategies == old(robot.strategies)
      invariant robot.series == old(robot.series)
      invariant robot.buffers == old(robot.buffers)[figi := start + TicksOf(during[..i])]
    {
      ghost var before := robot.buffers;
      TradeDuringSync(robot, during[i], groupId, legId);
      TicksOfStep(start, during, i);
      assert robot.buffers == before[figi := start + TicksOf(during[..i + 1])];
      OverwriteTwice(old(robot.buffers), figi, start + TicksOf(during[..i]), start + TicksOf(during[..i + 1]));
    }
    assert during[..|during|] == during;
  }

  /** Ending a sync flushes the buffer: the first tick after the sync
      lands behind the buffered ticks at the end of the series, and the
      strategy receives the series without analysing that tick. */
  method FirstTradeAfterSync(robot: Robot, after: RawTrade, groupId: string, legId: nat -> string)
    requires robot.Valid() && robot.isHistoryProcessed
    requires after.figi in robot.figis && |robot.buffers[after.figi]| > 0
    modifies robot, robot.strategies.Values
    ensures robot.Valid() && !robot.isHistoryProcessed
    ensures robot.series == old(robot.series)[after.figi := old(robot.series[after.figi]) +
                                              old(robot.buffers[after.figi]) + [ProcessedData(Some(after)).value]]
    ensures robot.buffers == old(robot.buffers)[after.figi := []]
    ensures robot.strategies == old(robot.strategies)
    ensures robot.strategies[after.figi].State() ==
            old(robot.strategies[after.figi].State()).(df := robot.series[after.figi])
  {
    robot.EndSync();
    var r := robot.OnTrade(Some(after), groupId, legId);
  }

  /** No live tick is lost across a sync: the ticks of one instrument that
      arrive while the history is loading, followed by the first tick after
      the sync, end up at the end of that instrument's series in arrival
      order, and its buffer is empty again. */
  method SyncKeepsLiveTicks(robot: Robot, figi: string, during: seq<RawTrade>, after: RawTrade,
                            groupId: string, legId: nat -> string)
    requires robot.Valid() && robot.isHistoryProcessed
    requires figi in robot.figis && after.figi == figi
    requires forall i | 0 <= i < |during| :: during[i].figi == figi
    requires |robot.buffers[figi]| + |during| > 0
    modifies robot, robot.strategies.Values
    ensures robot.Valid() && !robot.isHistoryProcessed
    ensures robot.series == old(robot.series)[figi := old(robot.series[figi]) + old(robot.buffers[figi]) +
                                                      TicksOf(during) + [ProcessedData(Some(after)).value]]
    ensures robot.buffers == old(robot.buffers)[figi := []]
  {
    ghost var start := robot.buffers[figi];
    BufferDuringSync(robot, figi, during, groupId, legId);
    ghost var before := robot.series[figi];
    ghost var buffered := robot.buffers;
    FirstTradeAfterSync(robot, after, groupId, legId);
    OverwriteTwice(old(robot.buffers), figi, buffered[figi], []);
    ConcatRegroup(before, start, TicksOf(during), [ProcessedData(Some(after)).value]);
  }
}
