/** The per-tick bookkeeping both analysers (analyzer.py lines 88-116 and
    strategies/profile_touch_strategy.py lines 65-75 and 122-127) share:
    the hour the clusters were last built in, and the minute the last entry
    check was anchored to. */
module TickSchedule {
  import opened Wrappers
  import opened Clock
  import opened Market

  /** The first-tick time before the five-minute gate: the stored one, or
      the tick's own minute on the very first tick. */
  function FirstTickBase(firstTickTime: Option<Instant>, t: Instant): Instant
  {
    if firstTickTime.None? then FloorToMinute(t) else firstTickTime.value
  }

  /** The five-minute gate of the entry check. */
  predicate EntryCheckDue(firstTickTime: Option<Instant>, t: Instant)
  {
    t - FirstTickBase(firstTickTime, t) >= EntryCheckInterval
  }

  /** The first-tick time after the tick. */
  function FirstTickAfter(firstTickTime: Option<Instant>, t: Instant): Instant
  {
    if EntryCheckDue(firstTickTime, t) then FloorToMinute(t) else FirstTickBase(firstTickTime, t)
  }

  /** The hour stored in fix_date after the tick. */
  function FixHourAfter(fixHour: Option<int>, t: Instant): int
  {
    var h := if fixHour.None? then Hour(t) else fixHour.value;
    if h < Hour(t) then Hour(t) else h
  }

  /** A later hour than the stored one rebuilds the clusters. */
  predicate HourRollover(fixHour: Option<int>, t: Instant)
  {
    fixHour.Some? && fixHour.value < Hour(t)
  }

  /** The very first tick never checks entries: its anchor is its own minute. */
  lemma FirstTickNeverChecks(t: Instant)
    ensures !EntryCheckDue(None, t) && FirstTickAfter(None, t) == FloorToMinute(t)
  {
  }

  /** Two entry checks are more than four minutes apart: the second one
      needs five minutes from the minute the first one fell in. */
  lemma ChecksAreSpacedOut(first: Option<Instant>, t1: Instant, t2: Instant)
    requires EntryCheckDue(first, t1)
    requires EntryCheckDue(Some(FirstTickAfter(first, t1)), t2)
    ensures t2 - t1 > 4 * MicrosPerMinute
  {
    assert FirstTickAfter(first, t1) == FloorToMinute(t1);
  }

  /** Until a check is due, the anchor never moves. */
  lemma AnchorHoldsBetweenChecks(first: Instant, t: Instant)
    requires !EntryCheckDue(Some(first), t)
    ensures FirstTickAfter(Some(first), t) == first && t - first < 5 * MicrosPerMinute
  {
  }

  /** The clusters are rebuilt at most once per hour: after a rollover,
      further ticks in the same hour do not roll over. */
  lemma RolloverOncePerHour(fixHour: Option<int>, t1: Instant, t2: Instant)
    requires HourRollover(fixHour, t1) && Hour(t2) == Hour(t1)
    ensures FixHourAfter(fixHour, t1) == Hour(t1)
    ensures !HourRollover(Some(FixHourAfter(fixHour, t1)), t2)
  {
  }

  /** The stored hour never goes down, so an earlier hour of the same day
      (or of a later day) never rebuilds the clusters. */
  lemma FixHourNeverDecreases(fixHour: Option<int>, t: Instant)
    ensures fixHour.Some? ==> FixHourAfter(fixHour, t) >= fixHour.value
    ensures FixHourAfter(fixHour, t) >= Hour(t)
    ensures HourRollover(fixHour, t) <==> fixHour.Some? && FixHourAfter(fixHour, t) > fixHour.value
  {
  }
}
