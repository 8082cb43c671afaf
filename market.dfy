/** Records shared by the analysis code: ticks, candles, clusters and the
    strategy settings read from the `settings` module. */
module Market {
  import opened Clock

  /** TradeDirection / OrderDirection: both number UNSPECIFIED 0, BUY 1, SELL 2. */
  datatype Direction = Unspecified | Buy | Sell {
    function Code(): int {
      match this
      case Unspecified => 0
      case Buy => 1
      case Sell => 2
    }
  }

  /** One anonymised trade as stored in the per-instrument tick series. */
  datatype Tick = Tick(figi: string, direction: Direction, price: real, quantity: int, time: Instant)

  /** A bar produced by `Utils.ticks_to_cluster` and marked by
      `Utils.calculate_ratio`; both computations are outside this model, so
      candles are inputs. */
  datatype Candle = Candle(
    open: real, high: real, low: real, close: real,
    direction: Direction, maxVolumePrice: real, win: bool)

  /** A coarse bar's start time and its heaviest-volume price. */
  datatype Cluster = Cluster(time: Instant, maxVolumePrice: real)

  /** The constants of the `settings` module that the analysis reads. */
  datatype Settings = Settings(
    firstTouchMinutes: int,      // FIRST_TOUCH_VOLUME_LEVEL
    secondTouchMinutes: int,     // SECOND_TOUCH_VOLUME_LEVEL
    percentageStopLoss: real,    // PERCENTAGE_STOP_LOSS
    takeProfit: real,            // TAKE_PROFIT
    countLots: int,              // COUNT_LOTS
    countGoals: int,             // COUNT_GOALS
    goalStep: real,              // GOAL_STEP
    firstGoal: real)             // FIRST_GOAL

  /** Entry evaluation runs at most once per five minutes of tick time. */
  const EntryCheckInterval: int := 5 * MicrosPerMinute
}
