/** Google Tasks knows a due day, the local task a due instant
    (apps/api/src/google_tasks_store.rs:195-222, apps/api/src/google_tasks_sync.rs:394-400,489-500).
    Instants and wall-clock readings are microseconds; a zone is its offset at every instant. */
module Deadline {
  import opened Prelude

  const SECOND: int := 1_000_000
  const DAY: int := 86_400 * SECOND

  type Offset = int -> int

  /** `instant AT TIME ZONE zone` */
  function Wall(off: Offset, instant: int): int {
    instant + off(instant)
  }

  function DayOf(wall: int): int {
    wall / DAY
  }

  function ClockOf(wall: int): int {
    wall % DAY
  }

  /** What Google is told: the local calendar day of the deadline. */
  function Projected(off: Offset, due: Option<int>): Option<int> {
    if due.None? then None else Some(DayOf(Wall(off, due.value)))
  }

  /** The wall-clock reading asked for: the old time of day, or the last second of the day. */
  function Requested(off: Offset, date: int, existing: Option<int>): int {
    date * DAY + if existing.Some? then ClockOf(Wall(off, existing.value)) else DAY - SECOND
  }

  /** The instant tried first keeps the old offset; otherwise the database's own choice
      `pick` for the reading is used, whatever it is. */
  function Chosen(off: Offset, pick: int -> int, wall: int, existing: Option<int>): int {
    if existing.Some? && Wall(off, wall - off(existing.value)) == wall then wall - off(existing.value) else pick(wall)
  }

  datatype Refusal = NoMatchingTime

  function Convert(off: Offset, pick: int -> int, date: Option<int>, existing: Option<int>): Result<Option<int>, Refusal> {
    if date.None? then Ok(None)
    else
      var wall := Requested(off, date.value, existing);
      var instant := Chosen(off, pick, wall, existing);
      if Wall(off, instant) == wall then Ok(Some(instant)) else Err(NoMatchingTime)
  }

  /** The deadline a synchronized task is given for the merged day. */
  function NewDue(off: Offset, pick: int -> int, merged: Option<int>, due: Option<int>): Result<Option<int>, Refusal> {
    if merged == Projected(off, due) then Ok(due) else Convert(off, pick, merged, due)
  }

  lemma DayAndClock(date: int, clock: int)
    requires 0 <= clock < DAY
    ensures DayOf(date * DAY + clock) == date && ClockOf(date * DAY + clock) == clock
  {
    var wall := date * DAY + clock;
    assert wall == DayOf(wall) * DAY + ClockOf(wall);
    assert (DayOf(wall) - date) * DAY == clock - ClockOf(wall);
    if DayOf(wall) != date {
      assert DayOf(wall) - date >= 1 || DayOf(wall) - date <= -1;
    }
  }

  /** A converted deadline is on the requested day and keeps the old time of day, or has the
      last second of the day when there was none. */
  lemma ConvertedDeadline(off: Offset, pick: int -> int, date: int, existing: Option<int>)
    requires Convert(off, pick, Some(date), existing).Ok?
    ensures var due := Convert(off, pick, Some(date), existing).value;
            && due.Some?
            && DayOf(Wall(off, due.value)) == date
            && ClockOf(Wall(off, due.value)) ==
                 if existing.Some? then ClockOf(Wall(off, existing.value)) else DAY - SECOND
  {
    DayAndClock(date, if existing.Some? then ClockOf(Wall(off, existing.value)) else DAY - SECOND);
  }

  /** Asking for the day a deadline already has returns the identical instant, also when that
      reading of the clock occurs twice. */
  lemma SameDayIsIdentity(off: Offset, pick: int -> int, due: int)
    ensures Convert(off, pick, Projected(off, Some(due)), Some(due)) == Ok(Some(due))
  {
    var wall := Wall(off, due);
    assert DayOf(wall) * DAY + ClockOf(wall) == wall;
  }

  /** The database answers with a matching instant whenever there is one. */
  ghost predicate Hits(off: Offset, pick: int -> int) {
    forall wall, i :: Wall(off, i) == wall ==> Wall(off, pick(wall)) == wall
  }

  /** A day is refused exactly when neither candidate reads as the requested time; if the
      database finds a matching instant whenever one exists, exactly when none exists. */
  lemma RefusedExactly(off: Offset, pick: int -> int, date: int, existing: Option<int>)
    ensures var wall := Requested(off, date, existing);
            Convert(off, pick, Some(date), existing).Err? <==>
              && (existing.Some? ==> Wall(off, wall - off(existing.value)) != wall)
              && Wall(off, pick(wall)) != wall
    ensures Hits(off, pick) ==>
              (Convert(off, pick, Some(date), existing).Err? <==>
                 forall i :: Wall(off, i) != Requested(off, date, existing))
  {
    var wall := Requested(off, date, existing);
    if Hits(off, pick) && Convert(off, pick, Some(date), existing).Err? {
      forall i
        ensures Wall(off, i) != wall
      {
        assert Wall(off, i) == wall ==> Wall(off, pick(wall)) == wall;
      }
    }
  }

  /** Writing a merged day locally and projecting it again gives that day, so the next
      comparison with Google sees no difference. */
  lemma WrittenDayProjectsBack(off: Offset, pick: int -> int, merged: Option<int>, due: Option<int>)
    requires NewDue(off, pick, merged, due).Ok?
    ensures Projected(off, NewDue(off, pick, merged, due).value) == merged
  {
    if merged.Some? && merged != Projected(off, due) {
      ConvertedDeadline(off, pick, merged.value, due);
    }
  }

  /** A clock that skips the hour after the epoch. */
  function Skipping(instant: int): int {
    if instant < 0 then 0 else 3600 * SECOND
  }

  /** No choice of the database saves a deadline inside a skipped hour. */
  lemma SkippedHourIsRefused(pick: int -> int)
    ensures var existing := -DAY + 1800 * SECOND;
            && Projected(Skipping, Some(existing)) == Some(-1)
            && Convert(Skipping, pick, Some(0), Some(existing)) == Err(NoMatchingTime)
  {
  }
}
