/** The `Order` record of domains/order.py. Python fields are dynamically
    typed, so every field holds a `Value`; `from_dict` converts the numeric
    ones and leaves the rest as they come. */
module OrderDomain {
  import opened Clock
  import opened Wrappers

  /** A Python value as it appears in an order or in an order dictionary. */
  datatype Value = Null | Int(i: int) | Float(r: real) | Bool(b: bool) | Str(s: string) | Time(t: Instant)

  datatype Order = Order(
    id: Value, groupId: Value, instrument: Value,
    open: Value, close: Value, stop: Value, take: Value,
    quantity: Value, direction: Value, time: Value,
    status: Value, result: Value, isWin: Value)

  const ActiveStatus: Value := Str("active")

  /** `Order(...)`: the last four fields are optional; omitted, status is
      'active', result 0, is_win False and close 0. */
  function NewOrder(
    id: Value, groupId: Value, instrument: Value, open: Value, stop: Value, take: Value,
    quantity: Value, direction: Value, time: Value,
    status: Value := ActiveStatus, result: Value := Int(0), isWin: Value := Bool(false),
    close: Value := Int(0)): Order
  {
    Order(id, groupId, instrument, open, close, stop, take, quantity, direction, time, status, result, isWin)
  }

  /** Python's `int()` of a float: truncation toward zero. */
  function Truncate(x: real): (r: int)
    ensures 0.0 <= x ==> r as real <= x < r as real + 1.0
    ensures x < 0.0 ==> r as real - 1.0 < x <= r as real
  {
    if x >= 0.0 then x.Floor else -((-x).Floor)
  }

  /** `float(v)`; None for the values on which it raises. Text is outside
      the model and counts as raising. */
  function ToFloat(v: Value): (r: Option<Value>)
    ensures r.Some? <==> v.Int? || v.Float? || v.Bool?
    ensures r.Some? ==> r.value.Float?
  {
    match v
    case Int(i) => Some(Float(i as real))
    case Float(r) => Some(Float(r))
    case Bool(b) => Some(Float(if b then 1.0 else 0.0))
    case _ => None
  }

  /** `int(v)`; None for the values on which it raises. */
  function ToInt(v: Value): (r: Option<Value>)
    ensures r.Some? <==> v.Int? || v.Float? || v.Bool?
    ensures r.Some? ==> r.value.Int?
  {
    match v
    case Int(i) => Some(Int(i))
    case Float(r) => Some(Int(Truncate(r)))
    case Bool(b) => Some(Int(if b then 1 else 0))
    case _ => None
  }

  const NanosPerMicro: int := 1000

  /** `pd.to_datetime(v)`; None for the values on which it raises. Timestamps
      and None pass through. An int counts nanoseconds since instant 0
      (1970-01-01 00:00), a float too after its fraction of a nanosecond is
      dropped; the instant is the microsecond holding that nanosecond. Bools
      raise; text is outside the model and counts as raising. */
  function ToDatetime(v: Value): (r: Option<Value>)
    ensures r.Some? <==> !(v.Bool? || v.Str?)
    ensures r.Some? ==> r.value.Time? || r.value.Null?
  {
    match v
    case Time(t) => Some(Time(t))
    case Null => Some(Null)
    case Int(n) => Some(Time(n / NanosPerMicro))
    case Float(x) => Some(Time(Truncate(x) / NanosPerMicro))
    case _ => None
  }

  /** The conversion raised while reading this key. */
  datatype ConversionError = ConversionError(key: string)

  type OrderDict = map<string, Value>

  /** `d.get(key)`. */
  function Lookup(d: OrderDict, key: string): Value
  {
    if key in d then d[key] else Null
  }

  /** `get_float_value`: the int 0 for a missing key, otherwise `float()` of
      the value: a float kept, an int widened, a bool read as 1.0 or 0.0;
      None, a timestamp or text raises. */
  function GetFloatValue(d: OrderDict, key: string): (r: Result<Value, ConversionError>)
    ensures key !in d ==> r == Success(Int(0))
    ensures key in d && d[key].Float? ==> r == Success(d[key])
    ensures key in d && d[key].Int? ==> r == Success(Float(d[key].i as real))
    ensures key in d && d[key].Bool? ==> r == Success(Float(if d[key].b then 1.0 else 0.0))
    ensures key in d && (d[key].Null? || d[key].Str? || d[key].Time?) ==> r == Failure(ConversionError(key))
  {
    if key !in d then Success(Int(0))
    else match ToFloat(d[key])
      case Some(x) => Success(x)
      case None => Failure(ConversionError(key))
  }

  /** `get_int_value`: 0 for a missing key, otherwise `int()` of the value:
      an int kept, a float truncated toward zero, a bool read as 1 or 0;
      None, a timestamp or text raises. */
  function GetIntValue(d: OrderDict, key: string): (r: Result<Value, ConversionError>)
    ensures key !in d ==> r == Success(Int(0))
    ensures key in d && d[key].Int? ==> r == Success(d[key])
    ensures key in d && d[key].Float? ==> r == Success(Int(Truncate(d[key].r)))
    ensures key in d && d[key].Bool? ==> r == Success(Int(if d[key].b then 1 else 0))
    ensures key in d && (d[key].Null? || d[key].Str? || d[key].Time?) ==> r == Failure(ConversionError(key))
  {
    if key !in d then Success(Int(0))
    else match ToInt(d[key])
      case Some(x) => Success(x)
      case None => Failure(ConversionError(key))
  }

  /** `get_datetime_value`: None for a missing key, the timestamp of the
      value otherwise. */
  function GetDatetimeValue(d: OrderDict, key: string): (r: Result<Value, ConversionError>)
    ensures key !in d ==> r == Success(Null)
    ensures key in d && (d[key].Time? || d[key].Null?) ==> r == Success(d[key])
    ensures key in d && d[key].Int? ==>
      r.Success? && r.value.Time? && r.value.t * NanosPerMicro <= d[key].i < (r.value.t + 1) * NanosPerMicro
    ensures key in d && d[key].Float? ==>
      r.Success? && r.value.Time? &&
      r.value.t * NanosPerMicro <= Truncate(d[key].r) < (r.value.t + 1) * NanosPerMicro
    ensures key in d && (d[key].Bool? || d[key].Str?) ==> r == Failure(ConversionError(key))
  {
    if key !in d then Success(Null)
    else match ToDatetime(d[key])
      case Some(x) => Success(x)
      case None => Failure(ConversionError(key))
  }

  /** The keys `from_dict` converts, in the order its arguments are evaluated. */
  const ConvertedKeys: seq<string> := ["open", "close", "stop", "take", "quantity", "direction", "time", "result"]

  /** The getter `from_dict` applies to the i-th converted key. */
  function Converted(d: OrderDict, i: nat): Result<Value, ConversionError>
    requires i < |ConvertedKeys|
  {
    if i == 4 || i == 5 then GetIntValue(d, ConvertedKeys[i])
    else if i == 6 then GetDatetimeValue(d, ConvertedKeys[i])
    else GetFloatValue(d, ConvertedKeys[i])
  }

  /** `Order.from_dict`. Arguments are evaluated in the order written, so the
      first key whose conversion raises is the one reported. */
  function FromDict(d: OrderDict): (r: Result<Order, ConversionError>)
    ensures r.Failure? ==>
      r.error.key in d && r.error.key in ["open", "close", "stop", "take", "quantity", "direction", "time", "result"]
    ensures r.Success? ==>
      r.value.id == Lookup(d, "id") && r.value.groupId == Lookup(d, "group_id") &&
      r.value.instrument == Lookup(d, "instrument") && r.value.status == Lookup(d, "status") &&
      r.value.isWin == Lookup(d, "is_win") &&
      r.value.quantity.Int? && r.value.direction.Int? && (r.value.time.Time? || r.value.time.Null?)
    ensures r.Success? <==>
      GetFloatValue(d, "open").Success? && GetFloatValue(d, "close").Success? &&
      GetFloatValue(d, "stop").Success? && GetFloatValue(d, "take").Success? &&
      GetIntValue(d, "quantity").Success? && GetIntValue(d, "direction").Success? &&
      GetDatetimeValue(d, "time").Success? && GetFloatValue(d, "result").Success?
    ensures r.Success? ==>
      r.value.open == GetFloatValue(d, "open").value && r.value.close == GetFloatValue(d, "close").value &&
      r.value.stop == GetFloatValue(d, "stop").value && r.value.take == GetFloatValue(d, "take").value &&
      r.value.quantity == GetIntValue(d, "quantity").value && r.value.direction == GetIntValue(d, "direction").value &&
      r.value.time == GetDatetimeValue(d, "time").value && r.value.result == GetFloatValue(d, "result").value
    ensures r.Failure? ==> exists i | 0 <= i < |ConvertedKeys| ::
      r.error.key == ConvertedKeys[i] && Converted(d, i).Failure? &&
      forall j | 0 <= j < i :: Converted(d, j).Success?
  {
    var open :- GetFloatValue(d, "open");
    var close :- GetFloatValue(d, "close");
    var stop :- GetFloatValue(d, "stop");
    var take :- GetFloatValue(d, "take");
    var quantity :- GetIntValue(d, "quantity");
    var direction :- GetIntValue(d, "direction");
    var time :- GetDatetimeValue(d, "time");
    var result :- GetFloatValue(d, "result");
    Success(NewOrder(
      id := Lookup(d, "id"), groupId := Lookup(d, "group_id"), instrument := Lookup(d, "instrument"),
      open := open, close := close, stop := stop, take := take,
      quantity := quantity, direction := direction, time := time,
      status := Lookup(d, "status"), result := result, isWin := Lookup(d, "is_win")))
  }

  /** The field names in the order `__iter__` yields them. */
  const FieldNames: seq<string> := [
    "id", "group_id", "instrument", "open", "close", "stop", "take",
    "quantity", "direction", "time", "status", "result", "is_win"]

  /** `__iter__`: thirteen (name, value) pairs in a fixed order. */
  function Items(o: Order): (r: seq<(string, Value)>)
    ensures |r| == |FieldNames| == 13
    ensures forall i | 0 <= i < |r| :: r[i].0 == FieldNames[i]
  {
    [("id", o.id), ("group_id", o.groupId), ("instrument", o.instrument),
     ("open", o.open), ("close", o.close), ("stop", o.stop), ("take", o.take),
     ("quantity", o.quantity), ("direction", o.direction), ("time", o.time),
     ("status", o.status), ("result", o.result), ("is_win", o.isWin)]
  }

  /** `dict(o)`: the dictionary the pairs of `__iter__` build. */
  function AsDict(o: Order): (r: OrderDict)
    ensures forall i | 0 <= i < |FieldNames| :: FieldNames[i] in r && r[FieldNames[i]] == Items(o)[i].1
  {
    map["id" := o.id, "group_id" := o.groupId, "instrument" := o.instrument,
        "open" := o.open, "close" := o.close, "stop" := o.stop, "take" := o.take,
        "quantity" := o.quantity, "direction" := o.direction, "time" := o.time,
        "status" := o.status, "result" := o.result, "is_win" := o.isWin]
  }

  /** `dict(o)` has exactly the thirteen field names as keys. */
  lemma AsDictKeys(o: Order)
    ensures forall k :: k in AsDict(o) <==> k in FieldNames
  {
    var d := AsDict(o);
    assert d.Keys == {"id", "group_id", "instrument", "open", "close", "stop", "take",
                      "quantity", "direction", "time", "status", "result", "is_win"};
  }

  /** Each pair `__iter__` yields is kept by `dict(o)`: no name repeats. */
  lemma AsDictHoldsItems(o: Order)
    ensures forall i | 0 <= i < |Items(o)| :: AsDict(o)[Items(o)[i].0] == Items(o)[i].1
  {
    ReadBack(o);
    var items := Items(o);
    assert items == [("id", o.id), ("group_id", o.groupId), ("instrument", o.instrument),
                     ("open", o.open), ("close", o.close), ("stop", o.stop), ("take", o.take),
                     ("quantity", o.quantity), ("direction", o.direction), ("time", o.time),
                     ("status", o.status), ("result", o.result), ("is_win", o.isWin)];
  }

  /** An order whose numeric fields already hold the types from_dict produces. */
  predicate HasConvertedFields(o: Order)
  {
    o.open.Float? && o.close.Float? && o.stop.Float? && o.take.Float? && o.result.Float? &&
    o.quantity.Int? && o.direction.Int? && (o.time.Time? || o.time.Null?)
  }

  /** The thirteen names are pairwise distinct, so `dict(o)` loses nothing. */
  lemma FieldNamesDistinct()
    ensures forall i, j | 0 <= i < j < |FieldNames| :: FieldNames[i] != FieldNames[j]
  {
  }

  /** `from_dict(dict(o))` reproduces every field of an order whose numeric
      fields are already numbers of the converted types. */
  lemma RoundTrip(o: Order)
    requires HasConvertedFields(o)
    ensures FromDict(AsDict(o)) == Success(o)
  {
    var d := AsDict(o);
    ReadBack(o);
  }

  /** Integer prices and results come back as floats of the same value;
      everything else is reproduced. */
  lemma RoundTripIntegerPrices(o: Order)
    requires o.open.Int? && o.close.Int? && o.stop.Int? && o.take.Int? && o.result.Int?
    requires o.quantity.Int? && o.direction.Int? && (o.time.Time? || o.time.Null?)
    ensures FromDict(AsDict(o)) == Success(o.(
      open := Float(o.open.i as real), close := Float(o.close.i as real),
      stop := Float(o.stop.i as real), take := Float(o.take.i as real),
      result := Float(o.result.i as real)))
  {
    ReadBack(o);
  }

  /** What each key of `dict(o)` holds. */
  lemma ReadBack(o: Order)
    ensures var d := AsDict(o);
      d["id"] == o.id && d["group_id"] == o.groupId && d["instrument"] == o.instrument &&
      d["open"] == o.open && d["close"] == o.close && d["stop"] == o.stop && d["take"] == o.take &&
      d["quantity"] == o.quantity && d["direction"] == o.direction && d["time"] == o.time &&
      d["status"] == o.status && d["result"] == o.result && d["is_win"] == o.isWin
  {
  }

  /** Missing keys: the numbers read as 0, time as None, and from_dict does
      not apply the constructor's defaults to status and is_win. */
  lemma FromEmptyDict()
    ensures FromDict(map[]) == Success(Order(
      Null, Null, Null, Int(0), Int(0), Int(0), Int(0), Int(0), Int(0), Null, Null, Int(0), Null))
  {
  }

  /** A number under "time" is read as nanoseconds since instant 0:
      `from_dict({'time': 0})` is an order at 1970-01-01 00:00. */
  lemma NumericTimeFromDict(n: int)
    ensures FromDict(map["time" := Int(n)]).Success?
    ensures FromDict(map["time" := Int(n)]).value.time == Time(n / NanosPerMicro)
    ensures FromDict(map["time" := Int(0)]).value.time == Time(0)
  {
  }

  /** Omitted optional arguments take the constructor's defaults. */
  lemma ConstructorDefaults(id: Value, groupId: Value, instrument: Value, open: Value, stop: Value,
                            take: Value, quantity: Value, direction: Value, time: Value)
    ensures var o := NewOrder(id, groupId, instrument, open, stop, take, quantity, direction, time);
            o.status == Str("active") && o.result == Int(0) && o.isWin == Bool(false) && o.close == Int(0)
  {
  }
}
