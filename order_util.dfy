/** utils/order_util.py: the take-profit ladder built from one signal and
    the guard against a second active group in the same direction. */
module OrderUtil {
  import opened Wrappers
  import opened OrderDomain
  import opened Market

  /** The arguments of one `prepare_orders` call. */
  datatype LadderRequest = LadderRequest(
    instrument: string, currentPrice: real, time: Value, stopLoss: real, direction: Direction,
    countLots: int, countGoals: int, goalStep: real, firstGoal: real)

  /** `count_lots / count_goals` with count_goals == 0. */
  datatype LadderError = ZeroDivisionError

  /** The step loop of prepare_orders ends unless goal_step and count_goals
      are both negative; then `step` moves away from `final_step` forever. */
  predicate LoopEnds(req: LadderRequest)
  {
    !(req.goalStep < 0.0 && req.countGoals < 0)
  }

  /** `int(count_lots / count_goals)`: the quotient truncated toward zero. */
  function PerLegQuantity(countLots: int, countGoals: int): (q: int)
    requires countGoals != 0
    ensures countLots >= 0 && countGoals > 0 ==> q == countLots / countGoals
  {
    if countLots >= 0 && countGoals > 0 then
      TruncatedQuotient(countLots, countGoals);
      Truncate(countLots as real / countGoals as real)
    else Truncate(countLots as real / countGoals as real)
  }

  /** On non-negative operands, truncating the real quotient is integer division. */
  lemma TruncatedQuotient(a: int, b: int)
    requires 0 <= a && 0 < b
    ensures Truncate(a as real / b as real) == a / b
  {
    var d := a / b;
    var r := a % b;
    assert a == d * b + r && 0 <= r < b;
    assert a as real == d as real * b as real + r as real;
    QuotientBounds(a as real, b as real, d as real);
  }

  /** Bounds on a real quotient from bounds on products. */
  lemma QuotientBounds(a: real, b: real, d: real)
    requires b > 0.0 && d * b <= a < (d + 1.0) * b
    ensures d <= a / b < d + 1.0
  {
    var x := a / b;
    assert x - d == (a - d * b) / b;
    var e := d + 1.0;
    assert e - x == (e * b - a) / b;
  }

  /** Take-profit of the leg at a given step: the stop distance, mirrored to
      the other side of the price and scaled by first_goal * step. */
  function TakeAt(currentPrice: real, stopLoss: real, firstGoal: real, step: real): real
  {
    currentPrice - (stopLoss - currentPrice) * firstGoal * step
  }

  /** Step of leg k: 1, 1 + goal_step, 1 + 2 * goal_step, ... */
  function StepAt(goalStep: real, k: nat): real
  {
    1.0 + k as real * goalStep
  }

  /** How many legs the loop emits. */
  function LegCount(goalStep: real, countGoals: int): nat
  {
    if goalStep > 0.0 && countGoals > 0 then countGoals else 0
  }

  /** Leg k of the ladder. */
  function Leg(req: LadderRequest, groupId: string, id: string, k: nat): Order
    requires req.countGoals != 0
  {
    NewOrder(
      id := Str(id), groupId := Str(groupId), instrument := Str(req.instrument),
      open := Float(req.currentPrice), stop := Float(req.stopLoss),
      take := Float(TakeAt(req.currentPrice, req.stopLoss, req.firstGoal, StepAt(req.goalStep, k))),
      quantity := Int(PerLegQuantity(req.countLots, req.countGoals)),
      direction := Int(req.direction.Code()), time := req.time)
  }

  /** The whole ladder prepare_orders returns; leg ids come from `legId`
      (fresh uuid4 strings in the source). */
  function Ladder(req: LadderRequest, groupId: string, legId: nat -> string): (legs: seq<Order>)
    requires req.countGoals != 0
    ensures |legs| == LegCount(req.goalStep, req.countGoals)
  {
    seq(LegCount(req.goalStep, req.countGoals), k requires 0 <= k => Leg(req, groupId, legId(k), k))
  }

  lemma LadderAt(req: LadderRequest, groupId: string, legId: nat -> string, k: nat)
    requires req.countGoals != 0 && k < LegCount(req.goalStep, req.countGoals)
    ensures Ladder(req, groupId, legId)[k] == Leg(req, groupId, legId(k), k)
  {
  }

  /** The loop guard `step < final_step` holds exactly while legs remain. */
  lemma GuardMeansLegsRemain(req: LadderRequest, k: nat)
    requires LoopEnds(req) && req.countGoals != 0 && k <= LegCount(req.goalStep, req.countGoals)
    ensures StepAt(req.goalStep, k) < req.goalStep * req.countGoals as real + 1.0
            <==> k < LegCount(req.goalStep, req.countGoals)
  {
    var g, n := req.goalStep, req.countGoals;
    assert StepAt(g, k) < g * n as real + 1.0 <==> 0.0 < (n - k) as real * g;
    if g > 0.0 {
      if k < n {
        assert (n - k) as real >= 1.0;
      } else {
        assert (n - k) as real <= 0.0;
      }
    } else if g < 0.0 {
      assert n > 0;
      assert (n - k) as real >= 0.0;
    }
  }

  /** As written, the loop never ends when goal_step and count_goals are
      both negative (goal_step = -1, count_goals = -1 gives final_step = 2):
      `step` starts at 1 and only falls, while `final_step` lies above 1, so
      the guard holds at every step. */
  lemma GuardHoldsForever(req: LadderRequest, k: nat)
    requires req.goalStep < 0.0 && req.countGoals < 0
    ensures StepAt(req.goalStep, k) <= 1.0 < req.goalStep * req.countGoals as real + 1.0
  {
    var g, n := req.goalStep, req.countGoals as real;
    assert k as real * (-g) >= 0.0;
    assert g * n == (-g) * (-n);
    assert (-g) * (-n) > 0.0;
  }

  /** `prepare_orders`. */
  method PrepareOrders(req: LadderRequest, groupId: string, legId: nat -> string)
    returns (r: Result<seq<Order>, LadderError>)
    requires LoopEnds(req)
    ensures req.countGoals == 0 ==> r == Failure(ZeroDivisionError)
    ensures req.countGoals != 0 ==> r == Success(Ladder(req, groupId, legId))
  {
    if req.countGoals == 0 {
      return Failure(ZeroDivisionError);
    }
    var quantity := PerLegQuantity(req.countLots, req.countGoals);
    var orders: seq<Order> := [];
    var step := 1.0;
    var finalStep := req.goalStep * req.countGoals as real + 1.0;
    ghost var ladder := Ladder(req, groupId, legId);
    GuardMeansLegsRemain(req, 0);
    while step < finalStep
      invariant |orders| <= |ladder|
      invariant step == StepAt(req.goalStep, |orders|)
      invariant orders == ladder[..|orders|]
      invariant step < finalStep <==> |orders| < |ladder|
      decreases |ladder| - |orders|
    {
      var take := TakeAt(req.currentPrice, req.stopLoss, req.firstGoal, step);
      var order := NewOrder(
        id := Str(legId(|orders|)), groupId := Str(groupId), instrument := Str(req.instrument),
        open := Float(req.currentPrice), stop := Float(req.stopLoss), take := Float(take),
        quantity := Int(quantity), direction := Int(req.direction.Code()), time := req.time);
      LadderAt(req, groupId, legId, |orders|);
      assert order == ladder[|orders|];
      orders := orders + [order];
      step := step + req.goalStep;
      GuardMeansLegsRemain(req, |orders|);
    }
    assert orders == ladder;
    return Success(orders);
  }

  /** Every leg carries the signal's group, price, stop, time, direction and
      quantity, and starts active. */
  lemma LegsShareTheSignal(req: LadderRequest, groupId: string, legId: nat -> string, k: nat)
    requires req.countGoals != 0 && k < LegCount(req.goalStep, req.countGoals)
    ensures var o := Ladder(req, groupId, legId)[k];
      o.groupId == Str(groupId) && o.open == Float(req.currentPrice) && o.stop == Float(req.stopLoss) &&
      o.time == req.time && o.direction == Int(req.direction.Code()) &&
      o.quantity == Int(PerLegQuantity(req.countLots, req.countGoals)) &&
      o.status == ActiveStatus && o.isWin == Bool(false) && o.result == Int(0) && o.close == Int(0)
  {
    LadderAt(req, groupId, legId, k);
  }

  /** With a positive first goal and goal step, later legs aim further from
      the stop: takes rise when the stop is below the price and fall when it
      is above. */
  lemma TakesMoveAwayFromStop(currentPrice: real, stopLoss: real, firstGoal: real, goalStep: real, j: nat, k: nat)
    requires firstGoal > 0.0 && goalStep > 0.0 && j < k
    ensures var tj := TakeAt(currentPrice, stopLoss, firstGoal, StepAt(goalStep, j));
            var tk := TakeAt(currentPrice, stopLoss, firstGoal, StepAt(goalStep, k));
            (stopLoss < currentPrice ==> tj < tk) && (stopLoss > currentPrice ==> tj > tk)
  {
    var d := currentPrice - stopLoss;
    var tj := TakeAt(currentPrice, stopLoss, firstGoal, StepAt(goalStep, j));
    var tk := TakeAt(currentPrice, stopLoss, firstGoal, StepAt(goalStep, k));
    var gap := (k - j) as real * goalStep;
    assert StepAt(goalStep, k) == StepAt(goalStep, j) + gap;
    assert tk - tj == d * firstGoal * gap;
    assert gap > 0.0;
    assert firstGoal * gap > 0.0;
    if d > 0.0 {
      assert d * (firstGoal * gap) > 0.0;
    } else if d < 0.0 {
      assert d * (firstGoal * gap) < 0.0;
    }
  }

  /** The two cases pinned by tests/test_orders.py. */
  lemma PinnedLadders(legId: nat -> string)
    ensures var buy := LadderRequest("SBER", 100.0, Null, 80.0, Buy, 10, 2, 0.5, 3.0);
            var legs := Ladder(buy, "g", legId);
            |legs| == 2 && legs[0].take == Float(160.0) && legs[1].take == Float(190.0) &&
            legs[0].quantity == Int(5) && legs[1].quantity == Int(5) && legs[0].direction == Int(1)
    ensures var sell := LadderRequest("SBER", 100.0, Null, 120.0, Sell, 9, 3, 0.5, 3.0);
            var legs := Ladder(sell, "g", legId);
            |legs| == 3 && legs[0].take == Float(40.0) && legs[1].take == Float(10.0) &&
            legs[2].take == Float(-20.0) && legs[0].quantity == Int(3) && legs[0].direction == Int(2)
  {
    var buy := LadderRequest("SBER", 100.0, Null, 80.0, Buy, 10, 2, 0.5, 3.0);
    LadderAt(buy, "g", legId, 0);
    LadderAt(buy, "g", legId, 1);
    var sell := LadderRequest("SBER", 100.0, Null, 120.0, Sell, 9, 3, 0.5, 3.0);
    LadderAt(sell, "g", legId, 0);
    LadderAt(sell, "g", legId, 1);
    LadderAt(sell, "g", legId, 2);
  }

  // ---------------------------------------------------------------------
  // is_order_already_open

  /** The filter of is_order_already_open: active, same direction. */
  predicate Matches(item: Order, order: Order)
  {
    item.direction == order.direction && item.status == ActiveStatus
  }

  /** `orders[i]` is the first matching order. */
  predicate IsFirstMatch(orders: seq<Order>, order: Order, i: int)
  {
    0 <= i < |orders| && Matches(orders[i], order) &&
    forall j | 0 <= j < i :: !Matches(orders[j], order)
  }

  /** `list(filter(...))`. */
  function ActiveSameDirection(orders: seq<Order>, order: Order): (r: seq<Order>)
    ensures forall x | x in r :: x in orders && Matches(x, order)
    ensures forall i | 0 <= i < |orders| && Matches(orders[i], order) :: orders[i] in r
    ensures |r| == 0 <==> forall i | 0 <= i < |orders| :: !Matches(orders[i], order)
    ensures |r| > 0 ==> exists i :: IsFirstMatch(orders, order, i) && orders[i] == r[0]
  {
    if |orders| == 0 then []
    else
      var rest := ActiveSameDirection(orders[1..], order);
      assert forall i | 0 < i < |orders| :: orders[i] == orders[1..][i - 1];
      if Matches(orders[0], order) then
        assert IsFirstMatch(orders, order, 0);
        [orders[0]] + rest
      else
        assert |rest| > 0 ==> exists i :: IsFirstMatch(orders, order, i) && orders[i] == rest[0] by {
          if |rest| > 0 {
            var i :| IsFirstMatch(orders[1..], order, i) && orders[1..][i] == rest[0];
            assert IsFirstMatch(orders, order, i + 1);
          }
        }
        assert (forall i | 0 <= i < |orders[1..]| :: !Matches(orders[1..][i], order)) ==>
               (forall i | 0 <= i < |orders| :: !Matches(orders[i], order)) by {
          forall i | 0 < i < |orders| ensures orders[i] == orders[1..][i - 1] { }
        }
        rest
  }

  /** The filter keeps the orders' order: filtering a concatenation filters
      each part and joins the results. */
  lemma {:induction false} ActiveSameDirectionSplits(a: seq<Order>, b: seq<Order>, order: Order)
    ensures ActiveSameDirection(a + b, order) == ActiveSameDirection(a, order) + ActiveSameDirection(b, order)
  {
    if |a| == 0 {
      assert a + b == b;
    } else {
      assert (a + b)[1..] == a[1..] + b;
      ActiveSameDirectionSplits(a[1..], b, order);
    }
  }

  /** `is_order_already_open`: blocked exactly when the first active order in
      the same direction belongs to a different group. */
  function IsOrderAlreadyOpen(orders: seq<Order>, order: Order): (r: bool)
    ensures r <==> exists i :: IsFirstMatch(orders, order, i) && orders[i].groupId != order.groupId
  {
    var active := ActiveSameDirection(orders, order);
    if |active| > 0 then
      FirstMatchUnique(orders, order);
      order.groupId != active[0].groupId
    else false
  }

  lemma FirstMatchUnique(orders: seq<Order>, order: Order)
    ensures forall i, j :: IsFirstMatch(orders, order, i) && IsFirstMatch(orders, order, j) ==> i == j
  {
  }

  /** Legs of the group being built never block one another: when every
      active order in that direction already belongs to the order's group,
      the order is allowed. */
  lemma SameGroupNeverBlocked(orders: seq<Order>, order: Order)
    requires forall i | 0 <= i < |orders| :: Matches(orders[i], order) ==> orders[i].groupId == order.groupId
    ensures !IsOrderAlreadyOpen(orders, order)
  {
  }

  /** A new signal is suppressed while a group of the same direction is
      active: if every active order in that direction belongs to other
      groups, and there is one, the order is blocked. */
  lemma OtherGroupBlocks(orders: seq<Order>, order: Order, k: nat)
    requires k < |orders| && Matches(orders[k], order)
    requires forall i | 0 <= i < |orders| :: Matches(orders[i], order) ==> orders[i].groupId != order.groupId
    ensures IsOrderAlreadyOpen(orders, order)
  {
    var active := ActiveSameDirection(orders, order);
    assert |active| > 0;
  }

  /** Creating a whole ladder one leg at a time after orders with no active
      leg in that direction: no leg is refused. */
  lemma LadderIsAdmitted(prior: seq<Order>, req: LadderRequest, groupId: string, legId: nat -> string, k: nat)
    requires req.countGoals != 0 && k < LegCount(req.goalStep, req.countGoals)
    requires forall i | 0 <= i < |prior| :: !Matches(prior[i], Ladder(req, groupId, legId)[k])
    ensures var legs := Ladder(req, groupId, legId);
            !IsOrderAlreadyOpen(prior + legs[..k], legs[k])
  {
    var legs := Ladder(req, groupId, legId);
    var seen := prior + legs[..k];
    forall i | 0 <= i < |seen| && Matches(seen[i], legs[k])
      ensures seen[i].groupId == legs[k].groupId
    {
      assert i >= |prior|;
      assert seen[i] == legs[i - |prior|];
      LadderAt(req, groupId, legId, i - |prior|);
      LadderAt(req, groupId, legId, k);
    }
    SameGroupNeverBlocked(seen, legs[k]);
  }
}
