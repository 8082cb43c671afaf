/** Session time gates and the instrument lookup of utils/exchange_util.py.
    `is_open_exchange` reads the wall clock and is not part of this model. */
module ExchangeUtil {
  import opened Clock
  import opened Wrappers

  /** New positions may be opened until 15:00 of the timestamp's own day. */
  const OrdersCutoffHour: int := 15
  /** Ticks before 07:00 belong to the premarket and are skipped. */
  const PremarketEndHour: int := 7

  /** `is_open_orders`: strictly before 15:00:00.000000 on its own day. */
  function IsOpenOrders(t: Instant): (r: bool)
    ensures r <==> TimeOfDay(t) < OrdersCutoffHour * MicrosPerHour
  {
    t < AtTimeOfDay(t, OrdersCutoffHour, 0)
  }

  /** `is_premarket_time`: strictly before 07:00:00.000000 on its own day. */
  function IsPremarketTime(t: Instant): (r: bool)
    ensures r <==> TimeOfDay(t) < PremarketEndHour * MicrosPerHour
  {
    t < AtTimeOfDay(t, PremarketEndHour, 0)
  }

  /** Every premarket timestamp is also one at which orders may be opened. */
  lemma PremarketImpliesOpenOrders(t: Instant)
    ensures IsPremarketTime(t) ==> IsOpenOrders(t)
  {
  }

  /** Both gates look at the time of day only: the date (and with it any
      whole number of days) does not change their answer. */
  lemma GatesIgnoreTheDate(t: Instant, days: int)
    ensures IsOpenOrders(t + days * MicrosPerDay) == IsOpenOrders(t)
    ensures IsPremarketTime(t + days * MicrosPerDay) == IsPremarketTime(t)
  {
    DayStartOffset(DayStart(t) + days * MicrosPerDay, TimeOfDay(t));
  }

  /** One entry of the INSTRUMENTS setting. */
  datatype Instrument = Instrument(name: string, figi: string)

  /** `next(...)` over an exhausted generator raises StopIteration. */
  datatype LookupError = StopIteration

  /** `get_instrument_by_name`: the first instrument with that name. */
  function GetInstrumentByName(instruments: seq<Instrument>, name: string): (r: Result<Instrument, LookupError>)
    ensures r.Failure? <==> forall i | 0 <= i < |instruments| :: instruments[i].name != name
    ensures r.Success? ==>
      exists i | 0 <= i < |instruments| ::
        instruments[i] == r.value && r.value.name == name &&
        forall j | 0 <= j < i :: instruments[j].name != name
  {
    if |instruments| == 0 then Failure(StopIteration)
    else if instruments[0].name == name then Success(instruments[0])
    else
      var r := GetInstrumentByName(instruments[1..], name);
      assert r.Success? ==> exists i | 1 <= i < |instruments| ::
        instruments[i] == r.value && forall j | 0 <= j < i :: instruments[j].name != name by {
        if r.Success? {
          var i :| 0 <= i < |instruments| - 1 && instruments[1..][i] == r.value &&
            forall j | 0 <= j < i :: instruments[1..][j].name != name;
          assert forall j | 0 <= j < i + 1 :: instruments[j].name != name by {
            forall j | 0 <= j < i + 1 ensures instruments[j].name != name {
              if j > 0 { assert instruments[j] == instruments[1..][j - 1]; }
            }
          }
        }
      }
      r
  }
}
