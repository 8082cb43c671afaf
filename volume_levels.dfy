/** The volume-level touch tracker shared, line for line, by analyzer.py
    (lines 118-151 and 209-303) and strategies/profile_touch_strategy.py
    (lines 87-120 and 129-208): recording a touch of a level with its two
    cooldowns, and resolving pending touches once a signal candle is known.
    `processed_volume_levels` is a Python dict from level price to level, and
    each level's `times` a dict from touch time to outcome. */
module VolumeLevels {
  import opened Wrappers
  import opened Clock
  import opened Market
  import opened PyDict

  /** A touch outcome: None while pending, then True (confirmed) or False (rejected). */
  type Outcome = Option<bool>

  datatype Level = Level(countTouches: int, lastTouchTime: Option<Instant>, times: seq<(Instant, Outcome)>)

  type Levels = seq<(real, Level)>

  predicate ValidLevels(levels: Levels)
  {
    DistinctKeys(levels) && forall a | 0 <= a < |levels| :: DistinctKeys(levels[a].1.times)
  }

  // ---------------------------------------------------------------------
  // Recording a touch

  /** `{'count_touches': 0, 'times': {}}` for a level seen for the first time. */
  function NewLevel(): Level { Level(0, None, []) }

  /** The level stored for a price, or a fresh one. */
  function LevelOrNew(levels: Levels, price: real): Level
  {
    match Get(levels, price)
    case Some(l) => l
    case None => NewLevel()
  }

  /** Both cooldowns have run out for this cluster at this time: the first
      measured from the cluster's own time, the second from the level's last
      touch when it has one. */
  predicate CooledDown(levels: Levels, c: Cluster, time: Instant, s: Settings)
  {
    time - c.time >= Minutes(s.firstTouchMinutes) &&
    match Get(levels, c.maxVolumePrice)
    case None => true
    case Some(l) => l.lastTouchTime.None? || time - l.lastTouchTime.value >= Minutes(s.secondTouchMinutes)
  }

  /** The tick touches this cluster's level. */
  predicate Qualifies(levels: Levels, c: Cluster, price: real, time: Instant, s: Settings,
                      inBand: (real, real) -> bool)
  {
    inBand(price, c.maxVolumePrice) && CooledDown(levels, c, time, s)
  }

  /** The level after a recorded touch: one more touch, last touch now, and a
      pending entry at the tick time. */
  function Touched(l: Level, time: Instant): Level
  {
    Level(l.countTouches + 1, Some(time), Put(l.times, time, None))
  }

  /** The levels after a touch of the level at `price`. */
  function Touch(levels: Levels, price: real, time: Instant): Levels
  {
    Put(levels, price, Touched(LevelOrNew(levels, price), time))
  }

  /** The first cluster at or after `from` that the tick touches. */
  function FirstQualifying(levels: Levels, clusters: seq<Cluster>, price: real, time: Instant,
                           s: Settings, inBand: (real, real) -> bool, from: nat): (r: Option<nat>)
    requires from <= |clusters|
    ensures r.Some? ==>
      from <= r.value < |clusters| && Qualifies(levels, clusters[r.value], price, time, s, inBand) &&
      forall k | from <= k < r.value :: !Qualifies(levels, clusters[k], price, time, s, inBand)
    ensures r.None? ==>
      forall k | from <= k < |clusters| :: !Qualifies(levels, clusters[k], price, time, s, inBand)
    decreases |clusters| - from
  {
    if from == |clusters| then None
    else if Qualifies(levels, clusters[from], price, time, s, inBand) then Some(from)
    else FirstQualifying(levels, clusters, price, time, s, inBand, from + 1)
  }

  /** The levels after a tick has been checked against every cluster. */
  function AfterTouch(levels: Levels, clusters: seq<Cluster>, price: real, time: Instant,
                      s: Settings, inBand: (real, real) -> bool): (r: Levels)
    ensures FirstQualifying(levels, clusters, price, time, s, inBand, 0).None? ==> r == levels
    ensures |levels| <= |r| <= |levels| + 1
    ensures ValidLevels(levels) ==> ValidLevels(r)
    ensures ValidLevels(levels) && FirstQualifying(levels, clusters, price, time, s, inBand, 0).Some? ==> HasPending(r)
  {
    match FirstQualifying(levels, clusters, price, time, s, inBand, 0)
    case None => levels
    case Some(k) =>
      var p := clusters[k].maxVolumePrice;
      assert ValidLevels(levels) ==> ValidLevels(Touch(levels, p, time)) && HasPending(Touch(levels, p, time)) by {
        if ValidLevels(levels) {
          TouchKeepsValid(levels, p, time);
          TouchLeavesPending(levels, p, time);
        }
      }
      Touch(levels, p, time)
  }

  /** The touch loop: clusters in order, at most one touch per tick. */
  method RecordTouch(levels: Levels, clusters: seq<Cluster>, price: real, time: Instant,
                     s: Settings, inBand: (real, real) -> bool)
    returns (result: Levels, touched: Option<nat>)
    requires ValidLevels(levels)
    ensures touched == FirstQualifying(levels, clusters, price, time, s, inBand, 0)
    ensures touched.None? ==> result == levels
    ensures touched.Some? ==> result == Touch(levels, clusters[touched.value].maxVolumePrice, time)
    ensures result == AfterTouch(levels, clusters, price, time, s, inBand)
    ensures ValidLevels(result)
  {
    result, touched := levels, None;
    for i := 0 to |clusters|
      invariant result == levels && touched.None?
      invariant forall k | 0 <= k < i :: !Qualifies(levels, clusters[k], price, time, s, inBand)
    {
      var c := clusters[i];
      if inBand(price, c.maxVolumePrice) {
        if time - c.time < Minutes(s.firstTouchMinutes) {
          continue;
        }
        var level: Level;
        if !HasKey(result, c.maxVolumePrice) {
          level := NewLevel();
        } else {
          level := Get(result, c.maxVolumePrice).value;
          if level.lastTouchTime.Some? && time - level.lastTouchTime.value < Minutes(s.secondTouchMinutes) {
            continue;
          }
        }
        assert Qualifies(levels, c, price, time, s, inBand);
        level := Level(level.countTouches + 1, Some(time), Put(level.times, time, None));
        result := Put(result, c.maxVolumePrice, level);
        touched := Some(i);
        FirstQualifyingIs(levels, clusters, price, time, s, inBand, i);
        TouchKeepsValid(levels, c.maxVolumePrice, time);
        return;
      }
    }
    FirstQualifyingNone(levels, clusters, price, time, s, inBand);
  }

  lemma FirstQualifyingIs(levels: Levels, clusters: seq<Cluster>, price: real, time: Instant,
                          s: Settings, inBand: (real, real) -> bool, i: nat)
    requires i < |clusters| && Qualifies(levels, clusters[i], price, time, s, inBand)
    requires forall k | 0 <= k < i :: !Qualifies(levels, clusters[k], price, time, s, inBand)
    ensures FirstQualifying(levels, clusters, price, time, s, inBand, 0) == Some(i)
  {
    var r := FirstQualifying(levels, clusters, price, time, s, inBand, 0);
  }

  lemma FirstQualifyingNone(levels: Levels, clusters: seq<Cluster>, price: real, time: Instant,
                            s: Settings, inBand: (real, real) -> bool)
    requires forall k | 0 <= k < |clusters| :: !Qualifies(levels, clusters[k], price, time, s, inBand)
    ensures FirstQualifying(levels, clusters, price, time, s, inBand, 0) == None
  {
    var r := FirstQualifying(levels, clusters, price, time, s, inBand, 0);
  }

  lemma TouchKeepsValid(levels: Levels, price: real, time: Instant)
    requires ValidLevels(levels)
    ensures ValidLevels(Touch(levels, price, time))
  {
    var l := LevelOrNew(levels, price);
    assert DistinctKeys(l.times) by {
      if HasKey(levels, price) {
        var i := IndexOf(levels, price);
        assert l == levels[i].1;
      }
    }
  }

  /** What one recorded touch does: the touched level has one more touch,
      its last touch at the tick time and a pending entry there; every other
      level keeps its value and its place. */
  lemma TouchEffect(levels: Levels, price: real, time: Instant)
    requires ValidLevels(levels)
    ensures var after := Touch(levels, price, time);
            var before := LevelOrNew(levels, price);
            Get(after, price) == Some(Level(before.countTouches + 1, Some(time), Put(before.times, time, None))) &&
            Get(Put(before.times, time, None), time) == Some(None) &&
            forall p | p != price :: Get(after, p) == Get(levels, p)
  {
    var after := Touch(levels, price, time);
    var before := LevelOrNew(levels, price);
    TouchKeepsValid(levels, price, time);
    var n := |after|;
    var i: nat := if HasKey(levels, price) then IndexOf(levels, price) else |levels|;
    assert after[i] == (price, Touched(before, time));
    IndexOfDistinct(after, i);
    forall p | p != price ensures Get(after, p) == Get(levels, p) {
      if HasKey(levels, p) {
        var j := IndexOf(levels, p);
        assert after[j] == levels[j];
        IndexOfDistinct(after, j);
      } else {
        assert !HasKey(after, p);
      }
    }
    var t := before.times;
    var k: nat := if HasKey(t, time) then IndexOf(t, time) else |t|;
    assert Put(t, time, None)[k] == (time, None);
    if HasKey(levels, price) {
      assert before == levels[IndexOf(levels, price)].1;
    }
    IndexOfDistinct(Put(t, time, None), k);
  }

  // ---------------------------------------------------------------------
  // Resolving pending touches (check_entry_points)

  predicate NoPending(l: Level)
  {
    forall b | 0 <= b < |l.times| :: l.times[b].1.Some?
  }

  predicate HasPending(levels: Levels)
  {
    exists a | 0 <= a < |levels| :: !NoPending(levels[a].1)
  }

  /** The first pending entry at or after position `from` of a level's times. */
  function FirstPendingTouch(times: seq<(Instant, Outcome)>, from: nat): (r: Option<nat>)
    requires from <= |times|
    ensures r.Some? ==> from <= r.value < |times| && times[r.value].1.None? &&
                        forall b | from <= b < r.value :: times[b].1.Some?
    ensures r.None? ==> forall b | from <= b < |times| :: times[b].1.Some?
    decreases |times| - from
  {
    if from == |times| then None
    else if times[from].1.None? then Some(from)
    else FirstPendingTouch(times, from + 1)
  }

  /** The first pending touch, levels in insertion order and touches in
      time-insertion order within a level: (level position, touch position). */
  function FirstPendingFrom(levels: Levels, from: nat): (r: Option<(nat, nat)>)
    requires from <= |levels|
    ensures r.Some? ==>
      from <= r.value.0 < |levels| && r.value.1 < |levels[r.value.0].1.times| &&
      levels[r.value.0].1.times[r.value.1].1.None? &&
      (forall a | from <= a < r.value.0 :: NoPending(levels[a].1)) &&
      (forall b | 0 <= b < r.value.1 :: levels[r.value.0].1.times[b].1.Some?)
    ensures r.None? <==> forall a | from <= a < |levels| :: NoPending(levels[a].1)
    decreases |levels| - from
  {
    if from == |levels| then None
    else match FirstPendingTouch(levels[from].1.times, 0)
      case Some(b) => Some((from, b))
      case None => FirstPendingFrom(levels, from + 1)
  }

  function FirstPending(levels: Levels): Option<(nat, nat)>
  {
    FirstPendingFrom(levels, 0)
  }

  /** Pending entries before position `upto` marked False. */
  function RejectTimes(times: seq<(Instant, Outcome)>, upto: nat): (r: seq<(Instant, Outcome)>)
    ensures |r| == |times|
  {
    seq(|times|, b requires 0 <= b < |times| =>
      if b < upto && times[b].1.None? then (times[b].0, Some(false)) else times[b])
  }

  predicate PendingBefore(times: seq<(Instant, Outcome)>, upto: nat)
  {
    exists b | 0 <= b < upto && b < |times| :: times[b].1.None?
  }

  /** A level whose pending touches before `upto` were rejected: each such
      rejection also cleared `last_touch_time`. */
  function RejectLevelUpTo(l: Level, upto: nat): Level
  {
    Level(l.countTouches, if PendingBefore(l.times, upto) then None else l.lastTouchTime,
          RejectTimes(l.times, upto))
  }

  function RejectLevel(l: Level): Level
  {
    RejectLevelUpTo(l, |l.times|)
  }

  /** Every pending touch of every level rejected. */
  function RejectAll(levels: Levels): (r: Levels)
    ensures |r| == |levels|
  {
    seq(|levels|, a requires 0 <= a < |levels| => (levels[a].0, RejectLevel(levels[a].1)))
  }

  /** The levels before position `upto` fully rejected. */
  function RejectLevelsUpTo(levels: Levels, upto: nat): (r: Levels)
    ensures |r| == |levels|
  {
    seq(|levels|, a requires 0 <= a < |levels| =>
      if a < upto then (levels[a].0, RejectLevel(levels[a].1)) else levels[a])
  }

  /** The touch at (a, b) marked True. */
  function ConfirmAt(levels: Levels, a: nat, b: nat): Levels
    requires a < |levels| && b < |levels[a].1.times|
  {
    var l := levels[a].1;
    levels[a := (levels[a].0, l.(times := l.times[b := (l.times[b].0, Some(true))]))]
  }

  /** The part of check_entry_points both files share. */
  datatype Resolution =
    | NothingConfirmed                            // no pending touch, or all rejected
    | Confirmed(levelPrice: real, touchTime: Instant, prev: Candle, current: Candle)
    | CandleIndexError                            // `candles.iloc[-3]` on fewer than three candles

  /** The signal candle (`iloc[-2]`) of a candle list. */
  function SignalCandle(candles: seq<Candle>): Candle
    requires |candles| >= 3
  {
    candles[|candles| - 2]
  }

  /** The outcome of check_entry_points' walk over the pending touches. */
  function Resolve(levels: Levels, candles: seq<Candle>): (r: (Levels, Resolution))
    ensures r.1.CandleIndexError? <==> HasPending(levels) && |candles| < 3
    ensures r.1.CandleIndexError? || !HasPending(levels) ==> r.0 == levels
    ensures r.1.Confirmed? ==>
      HasPending(levels) && |candles| >= 3 && r.1.current.win &&
      r.1.current == candles[|candles| - 2] && r.1.prev == candles[|candles| - 3]
    ensures ValidLevels(levels) ==> ValidLevels(r.0) && |r.0| == |levels|
  {
    if !HasPending(levels) then (levels, NothingConfirmed)
    else if |candles| < 3 then (levels, CandleIndexError)
    else if !SignalCandle(candles).win then
      assert ValidLevels(levels) ==> ValidLevels(RejectAll(levels)) by {
        if ValidLevels(levels) { RejectAllKeepsValid(levels); }
      }
      (RejectAll(levels), NothingConfirmed)
    else
      var (a, b) := FirstPending(levels).value;
      assert ValidLevels(levels) ==> ValidLevels(ConfirmAt(levels, a, b)) by {
        if ValidLevels(levels) { ConfirmKeepsValid(levels, a, b); }
      }
      (ConfirmAt(levels, a, b),
       Confirmed(levels[a].0, levels[a].1.times[b].0, candles[|candles| - 3], SignalCandle(candles)))
  }

  /** Walks the pending touches in order. The candles are the same for each,
      so the first pending touch decides: fewer than three candles raise;
      a winning signal candle confirms that touch and stops; otherwise every
      pending touch is rejected and its level's cooldown cleared. */
  method ResolvePending(levels: Levels, candles: seq<Candle>) returns (result: Levels, res: Resolution)
    requires ValidLevels(levels)
    ensures (result, res) == Resolve(levels, candles)
    ensures ValidLevels(result)
  {
    var rejecting := |candles| >= 3 && !candles[|candles| - 2].win;
    result := levels;
    var a := 0;
    while a < |result|
      invariant 0 <= a <= |levels| == |result|
      invariant !rejecting ==> result == levels
      invariant rejecting ==> result == RejectLevelsUpTo(levels, a)
      invariant forall k | 0 <= k < |result| :: result[k].0 == levels[k].0
      invariant !rejecting ==> forall k | 0 <= k < a :: NoPending(levels[k].1)
    {
      var level := result[a].1;
      var b := 0;
      while b < |level.times|
        invariant 0 <= b <= |level.times| == |levels[a].1.times|
        invariant !rejecting ==> result == levels && level == levels[a].1
        invariant !rejecting ==> forall k | 0 <= k < b :: levels[a].1.times[k].1.Some?
        invariant rejecting ==> level == RejectLevelUpTo(levels[a].1, b)
        invariant rejecting ==> result == RejectLevelsUpTo(levels, a)
      {
        var (touchTime, value) := level.times[b];
        if value.Some? {
          b := b + 1;
          continue;
        }
        if |candles| < 3 {
          FirstPendingAt(levels, a, b);
          res := CandleIndexError;
          return;
        }
        var prev, current := candles[|candles| - 3], candles[|candles| - 2];
        if current.win {
          result := result[a := (result[a].0, level.(times := level.times[b := (touchTime, Some(true))]))];
          FirstPendingAt(levels, a, b);
          ConfirmKeepsValid(levels, a, b);
          res := Confirmed(levels[a].0, touchTime, prev, current);
          return;
        }
        RejectStep(levels[a].1, b);
        level := level.(times := level.times[b := (touchTime, Some(false))], lastTouchTime := None);
        b := b + 1;
      }
      if rejecting {
        result := result[a := (result[a].0, level)];
        assert result == RejectLevelsUpTo(levels, a + 1);
      }
      a := a + 1;
    }
    res := NothingConfirmed;
    if rejecting {
      assert result == RejectAll(levels);
      RejectAllKeepsValid(levels);
      if !HasPending(levels) {
        NothingToReject(levels);
      }
    }
    if !rejecting {
      NoPendingAnywhere(levels);
    }
  }

  lemma RejectStep(l: Level, b: nat)
    requires b < |l.times| && l.times[b].1.None?
    ensures var r := RejectLevelUpTo(l, b);
            RejectLevelUpTo(l, b + 1) == r.(times := r.times[b := (l.times[b].0, Some(false))], lastTouchTime := None)
  {
    assert PendingBefore(l.times, b + 1);
  }

  lemma FirstPendingAt(levels: Levels, a: nat, b: nat)
    requires a < |levels| && b < |levels[a].1.times| && levels[a].1.times[b].1.None?
    requires forall k | 0 <= k < a :: NoPending(levels[k].1)
    requires forall k | 0 <= k < b :: levels[a].1.times[k].1.Some?
    ensures HasPending(levels) && FirstPending(levels) == Some((a, b))
  {
    FirstPendingFromSkips(levels, 0, a);
    var t := levels[a].1.times;
    FirstPendingTouchSkips(t, 0, b);
  }

  lemma {:induction false} FirstPendingFromSkips(levels: Levels, from: nat, a: nat)
    requires from <= a < |levels| && !NoPending(levels[a].1)
    requires forall k | from <= k < a :: NoPending(levels[k].1)
    ensures FirstPendingFrom(levels, from) == FirstPendingFrom(levels, a)
    decreases a - from
  {
    if from < a {
      assert FirstPendingTouch(levels[from].1.times, 0).None?;
      FirstPendingFromSkips(levels, from + 1, a);
    }
  }

  lemma {:induction false} FirstPendingTouchSkips(t: seq<(Instant, Outcome)>, from: nat, b: nat)
    requires from <= b < |t| && t[b].1.None?
    requires forall k | from <= k < b :: t[k].1.Some?
    ensures FirstPendingTouch(t, from) == Some(b)
    decreases b - from
  {
    if from < b { FirstPendingTouchSkips(t, from + 1, b); }
  }

  lemma NoPendingAnywhere(levels: Levels)
    requires forall k | 0 <= k < |levels| :: NoPending(levels[k].1)
    ensures !HasPending(levels)
  {
  }

  lemma NothingToReject(levels: Levels)
    requires !HasPending(levels)
    ensures RejectAll(levels) == levels
  {
    forall a | 0 <= a < |levels| ensures RejectLevel(levels[a].1) == levels[a].1 {
      var l := levels[a].1;
      assert NoPending(l);
      assert RejectTimes(l.times, |l.times|) == l.times;
    }
  }

  lemma ConfirmKeepsValid(levels: Levels, a: nat, b: nat)
    requires ValidLevels(levels) && a < |levels| && b < |levels[a].1.times|
    ensures ValidLevels(ConfirmAt(levels, a, b))
  {
  }

  lemma RejectAllKeepsValid(levels: Levels)
    requires ValidLevels(levels)
    ensures ValidLevels(RejectAll(levels))
  {
  }

  // ---------------------------------------------------------------------
  // What resolution does to the levels

  /** Number of pending touches of one level. */
  function PendingIn(times: seq<(Instant, Outcome)>): nat
  {
    if |times| == 0 then 0
    else PendingIn(times[..|times| - 1]) + (if times[|times| - 1].1.None? then 1 else 0)
  }

  /** Number of pending touches over all levels. */
  function PendingTotal(levels: Levels): nat
  {
    if |levels| == 0 then 0
    else PendingTotal(levels[..|levels| - 1]) + PendingIn(levels[|levels| - 1].1.times)
  }

  /** A level's count is zero exactly when none of its touches is pending. */
  lemma {:induction false} PendingInZero(times: seq<(Instant, Outcome)>)
    ensures PendingIn(times) <= |times|
    ensures PendingIn(times) == 0 <==> forall b | 0 <= b < |times| :: times[b].1.Some?
    decreases |times|
  {
    if |times| > 0 {
      var n := |times| - 1;
      PendingInZero(times[..n]);
      assert forall b | 0 <= b < n :: times[..n][b] == times[b];
    }
  }

  /** The total is zero exactly when no level has a pending touch. */
  lemma {:induction false} PendingTotalZero(levels: Levels)
    ensures PendingTotal(levels) == 0 <==> !HasPending(levels)
    decreases |levels|
  {
    if |levels| > 0 {
      var n := |levels| - 1;
      PendingTotalZero(levels[..n]);
      PendingInZero(levels[n].1.times);
      assert forall a | 0 <= a < n :: levels[..n][a] == levels[a];
    }
  }

  lemma {:induction false} PendingInUpdate(times: seq<(Instant, Outcome)>, b: nat, x: (Instant, Outcome))
    requires b < |times|
    ensures PendingIn(times[b := x]) + (if times[b].1.None? then 1 else 0)
            == PendingIn(times) + (if x.1.None? then 1 else 0)
    decreases |times|
  {
    var n := |times| - 1;
    var updated := times[b := x];
    assert PendingIn(updated) == PendingIn(updated[..n]) + (if updated[n].1.None? then 1 else 0);
    assert PendingIn(times) == PendingIn(times[..n]) + (if times[n].1.None? then 1 else 0);
    if b == n {
      assert updated[..n] == times[..n];
    } else {
      assert updated[..n] == times[..n][b := x];
      PendingInUpdate(times[..n], b, x);
    }
  }

  lemma {:induction false} PendingTotalUpdate(levels: Levels, a: nat, x: (real, Level))
    requires a < |levels|
    ensures PendingTotal(levels[a := x]) + PendingIn(levels[a].1.times)
            == PendingTotal(levels) + PendingIn(x.1.times)
    decreases |levels|
  {
    var n := |levels| - 1;
    var updated := levels[a := x];
    assert PendingTotal(updated) == PendingTotal(updated[..n]) + PendingIn(updated[n].1.times);
    assert PendingTotal(levels) == PendingTotal(levels[..n]) + PendingIn(levels[n].1.times);
    if a == n {
      assert updated[..n] == levels[..n];
    } else {
      assert updated[..n] == levels[..n][a := x];
      PendingTotalUpdate(levels[..n], a, x);
    }
  }

  /** A winning signal candle settles exactly one pending touch, the first,
      as confirmed; nothing else about the levels changes. */
  lemma ConfirmSettlesOne(levels: Levels)
    requires HasPending(levels)
    ensures var (a, b) := FirstPending(levels).value;
            var after := ConfirmAt(levels, a, b);
            PendingTotal(after) + 1 == PendingTotal(levels) &&
            after[a].1.times[b] == (levels[a].1.times[b].0, Some(true)) &&
            after[a].1.countTouches == levels[a].1.countTouches &&
            after[a].1.lastTouchTime == levels[a].1.lastTouchTime &&
            forall k | 0 <= k < |levels| && k != a :: after[k] == levels[k]
  {
    var (a, b) := FirstPending(levels).value;
    var l := levels[a].1;
    var t := l.times[b := (l.times[b].0, Some(true))];
    PendingInUpdate(l.times, b, (l.times[b].0, Some(true)));
    PendingTotalUpdate(levels, a, (levels[a].0, l.(times := t)));
  }

  /** A losing signal candle rejects every pending touch: none is left, each
      formerly pending one is False, settled ones keep their outcome, touch
      counts stay, and exactly the levels that had a pending touch lose their
      last touch time. */
  lemma RejectAllSettlesEverything(levels: Levels)
    ensures var after := RejectAll(levels);
            !HasPending(after) &&
            forall a | 0 <= a < |levels| ::
              after[a].0 == levels[a].0 &&
              after[a].1.countTouches == levels[a].1.countTouches &&
              after[a].1.lastTouchTime == (if NoPending(levels[a].1) then levels[a].1.lastTouchTime else None) &&
              |after[a].1.times| == |levels[a].1.times| &&
              forall b | 0 <= b < |levels[a].1.times| ::
                after[a].1.times[b] ==
                  (levels[a].1.times[b].0,
                   if levels[a].1.times[b].1.None? then Some(false) else levels[a].1.times[b].1)
  {
    var after := RejectAll(levels);
    forall a | 0 <= a < |levels|
      ensures after[a].1.lastTouchTime == (if NoPending(levels[a].1) then levels[a].1.lastTouchTime else None)
    {
      var t := levels[a].1.times;
      if !NoPending(levels[a].1) {
        var b :| 0 <= b < |t| && t[b].1.None?;
        assert PendingBefore(t, |t|);
      }
    }
    forall a | 0 <= a < |after| ensures NoPending(after[a].1) { }
  }

  /** A rejection clears the second cooldown: once a level's pending touch is
      rejected, the next tick in its band touches it as soon as the first
      cooldown, counted from the cluster, has run out. */
  lemma RejectionWaivesSecondCooldown(levels: Levels, c: Cluster, time: Instant, s: Settings)
    requires ValidLevels(levels)
    requires HasKey(levels, c.maxVolumePrice)
    requires !NoPending(levels[IndexOf(levels, c.maxVolumePrice)].1)
    ensures CooledDown(RejectAll(levels), c, time, s) <==> time - c.time >= Minutes(s.firstTouchMinutes)
  {
    var after := RejectAll(levels);
    var i := IndexOf(levels, c.maxVolumePrice);
    RejectAllSettlesEverything(levels);
    assert after[i].0 == c.maxVolumePrice;
    RejectAllKeepsValid(levels);
    IndexOfDistinct(after, i);
  }

  // ---------------------------------------------------------------------
  // Entry after a confirmed touch

  /** The side an entry takes: long on a buying signal candle, short otherwise. */
  function EntryDirection(current: Candle): Direction
  {
    if current.direction == Buy then Buy else Sell
  }

  /** The stop of an entry: PERCENTAGE_STOP_LOSS percent of the signal
      candle's max-volume price beyond that price. */
  function EntryStop(direction: Direction, current: Candle, s: Settings): real
  {
    var percent := current.maxVolumePrice * s.percentageStopLoss / 100.0;
    if direction == Buy then current.maxVolumePrice - percent else current.maxVolumePrice + percent
  }

  /** The signal candle's gates: the previous candle opened no better than
      the signal candle, and the price has not crossed the signal candle's
      max-volume price. */
  predicate SignalGatesPass(price: real, prev: Candle, current: Candle)
  {
    if current.direction == Buy then prev.open >= current.open && price >= current.maxVolumePrice
    else prev.open <= current.open && price <= current.maxVolumePrice
  }

  /** An entry that passes the gates puts its stop strictly on the losing
      side of the entry price. */
  lemma StopOnLosingSide(price: real, prev: Candle, current: Candle, s: Settings)
    requires s.percentageStopLoss > 0.0 && current.maxVolumePrice > 0.0
    requires SignalGatesPass(price, prev, current)
    ensures EntryDirection(current) == Buy ==> EntryStop(Buy, current, s) < price
    ensures EntryDirection(current) == Sell ==> EntryStop(Sell, current, s) > price
  {
    assert current.maxVolumePrice * s.percentageStopLoss / 100.0 > 0.0;
  }

  /** A touch always leaves a pending touch behind, so an entry check on the
      same tick has something to resolve. */
  lemma TouchLeavesPending(levels: Levels, price: real, time: Instant)
    requires ValidLevels(levels)
    ensures HasPending(Touch(levels, price, time))
  {
    var after := Touch(levels, price, time);
    TouchEffect(levels, price, time);
    TouchKeepsValid(levels, price, time);
    var i := IndexOf(after, price);
    var t := after[i].1.times;
    var k := IndexOf(t, time);
    assert t[k].1.None?;
    assert !NoPending(after[i].1);
  }
}
