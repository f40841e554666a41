/** Quiet hours where the offset changes: what the returned instant promises in any
    zone, and two days on which it is not what it seems. */
module QuietChanges {
  import opened Options
  import opened QuietHours

  /** The anchor days looked at from an instant. */
  predicate InWindow(z: Zone, t: int, a: int) { DayOf(z, t) - 1 <= a < DayOf(z, t) + 8 }

  /** What an enabled policy answers at an instant. */
  ghost predicate Active(q: Policy, z: Zone, c: Calendar, t: int) { exists a :: InWindow(z, t, a) && Within(q, z, c, a, t) }

  lemma AnswerIsActive(q: Policy, z: Zone, c: Calendar, now: int, active: bool, next: Option<int>)
    requires Answer(q, z, c, now, DayOf(z, now) - 1, DayOf(z, now) + 8, active, next)
    ensures active <==> Active(q, z, c, now)
  {
    hide Within, Ahead, DayOf, From, To;
  }

  /** While quiet, in any zone: the instant returned is the end of one anchor's interval;
      until then it stays quiet wherever that anchor is still looked at, and at it quiet
      goes on if and only if another anchor's interval holds then. */
  lemma QuietUntilAnyZone(q: Policy, z: Zone, c: Calendar, now: int, next: Option<int>) returns (a: int)
    requires Answer(q, z, c, now, DayOf(z, now) - 1, DayOf(z, now) + 8, true, next)
    ensures next.Some? && now < next.value && InWindow(z, now, a) && next.value == To(q, z, c, a)
    ensures forall t | now <= t < next.value && InWindow(z, t, a) :: Active(q, z, c, t)
    ensures Active(q, z, c, next.value) <==> exists b :: b != a && InWindow(z, next.value, b) && Within(q, z, c, b, next.value)
  {
    hide Weekday, DayOf, From, To;
    a :| DayOf(z, now) - 1 <= a < DayOf(z, now) + 8 && Within(q, z, c, a, now) && next == Some(To(q, z, c, a));
    forall t | now <= t < next.value && InWindow(z, t, a) ensures Active(q, z, c, t) {
      assert Within(q, z, c, a, t);
    }
  }

  /** While not quiet, in any zone: no anchor looked at now makes it quiet before the
      instant returned, and the interval that begins there holds at it if and only if it
      has not ended by then. */
  lemma QuietFromAnyZone(q: Policy, z: Zone, c: Calendar, now: int, next: Option<int>) returns (a: int)
    requires Answer(q, z, c, now, DayOf(z, now) - 1, DayOf(z, now) + 8, false, next) && next.Some?
    ensures now < next.value && InWindow(z, now, a) && next.value == From(q, z, c, a)
    ensures forall t, b | now <= t < next.value && InWindow(z, now, b) :: !Within(q, z, c, b, t)
    ensures Within(q, z, c, a, next.value) <==> next.value < To(q, z, c, a)
  {
    hide Weekday, DayOf, From, To;
    a :| DayOf(z, now) - 1 <= a < DayOf(z, now) + 8 && Ahead(q, z, c, a, now) && next.value == From(q, z, c, a);
    forall t, b | now <= t < next.value && InWindow(z, now, b) ensures !Within(q, z, c, b, t) {
      assert !Within(q, z, c, b, now) && (Ahead(q, z, c, b, now) ==> next.value <= From(q, z, c, b));
    }
  }

  // ---- A midnight that is skipped ------------------------------------------------------------

  /** At instant 0, the midnight that begins day 0, clocks go from 00:00 to 01:00. */
  function Skipped(t: int): int { if t < 0 then 0 else HOUR }

  /** Times that were skipped are taken at the old offset. */
  function SkippedDate(day: int, minute: int): int {
    day * DAY + minute * MINUTE - if day > 0 || (day == 0 && minute >= 60) then HOUR else 0
  }

  function SameDay(d: int): int { d }

  const SKIPPING: Calendar := Calendar(SameDay, SkippedDate)

  function Daily(start: nat, end: nat): Policy { Policy(true, Some(Skipped), {0, 1, 2, 3, 4, 5, 6}, start, end) }

  lemma OnDayZero(t: int)
    requires DayOf(Skipped, t) == 0
    ensures t >= 0 && MinuteOf(Skipped, t) == (t + HOUR) / MINUTE
  {
    assert Local(Skipped, t) == DAY * (Local(Skipped, t) / DAY) + Local(Skipped, t) % DAY;
  }

  /** A boundary in the skipped hour is where the hour was skipped. */
  lemma SkippedBoundary(minute: nat, last: bool)
    requires minute < 60
    ensures Boundary(Skipped, SameDay, 0, minute, SkippedDate(0, minute), last) == 0
  {
    hide Search, MinuteOf, DayOf, Tick, Local;
    var candidate, k0 := minute * MINUTE, 180 - minute;
    SkippedTicks(minute);
    BoundaryMeans(Skipped, 0, minute, candidate, last);
  }

  /** What the search sees around the skipped hour. */
  lemma SkippedTicks(minute: nat)
    requires minute < 60
    ensures var candidate := minute * MINUTE;
      && SkippedDate(0, minute) == candidate && !FastPath(Skipped, SameDay, 0, minute, candidate)
      && Tick(candidate, 180 - minute) == 0 && LaterAt(Skipped, 0, minute, candidate, 180 - minute)
      && MinuteOf(Skipped, Tick(candidate, 180 - minute)) == 60
      && (forall k :: !ExactAt(Skipped, 0, minute, candidate, k))
      && (forall k | LaterAt(Skipped, 0, minute, candidate, k) ::
            MinuteOf(Skipped, Tick(candidate, k)) >= 60 && (MinuteOf(Skipped, Tick(candidate, k)) == 60 ==> Tick(candidate, k) == 0))
  {
    var candidate := minute * MINUTE;
    assert DayOf(Skipped, 0) == 0 && MinuteOf(Skipped, 0) == 60;
    forall k | DayOf(Skipped, Tick(candidate, k)) == 0
      ensures MinuteOf(Skipped, Tick(candidate, k)) >= 60
      ensures MinuteOf(Skipped, Tick(candidate, k)) == 60 ==> Tick(candidate, k) == 0
    {
      OnDayZero(Tick(candidate, k));
      assert Tick(candidate, k) == (minute - 180 + k) * MINUTE;
      WholeMinutes(minute - 180 + k);
    }
  }

  lemma WholeMinutes(n: int)
    ensures n >= 0 ==> (n * MINUTE + HOUR) / MINUTE == n + 60
  {}

  /** On other days, in the first hour, the boundary is where the clock says. */
  lemma PlainBoundary(day: int, minute: nat, last: bool)
    requires day != 0 && minute < 60
    ensures Boundary(Skipped, SameDay, day, minute, SkippedDate(day, minute), last) == SkippedDate(day, minute)
  {
    DayParts(day, minute);
    var t := SkippedDate(day, minute);
    assert day < 0 ==> t + 3 * HOUR < 0;
    assert day > 0 ==> t - 3 * HOUR >= 0;
    assert Local(Skipped, t) == day * DAY + minute * MINUTE;
    hide Search;
  }

  /** The nights around the skipped midnight, quiet but for the minute after midnight. */
  lemma Nights()
    ensures var q := Daily(1, 0);
      && Within(q, Skipped, SKIPPING, -1, -1) && To(q, Skipped, SKIPPING, -1) == 0 && !Within(q, Skipped, SKIPPING, -2, -1)
      && Within(q, Skipped, SKIPPING, 0, 0)
  {
    hide Boundary, Weekday;
    PlainBoundary(-1, 1, false);
    PlainBoundary(-1, 0, true);
    SkippedBoundary(0, true);
    SkippedBoundary(1, false);
    PlainBoundary(1, 0, true);
    EveryDay(-1);
    EveryDay(0);
  }

  lemma AroundMidnight()
    ensures DayOf(Skipped, -1) == -1 && DayOf(Skipped, 0) == 0
  {}

  /** One night's quiet ends where the next night's begins: the instant returned is the
      end of an interval, and quiet at it all the same. */
  lemma QuietGoesOn() returns (q: Policy, z: Zone, now: int, next: int)
    ensures ValidPolicy(q) && q.zone == Some(z)
    ensures Answer(q, z, SKIPPING, now, DayOf(z, now) - 1, DayOf(z, now) + 8, true, Some(next)) && Active(q, z, SKIPPING, next)
  {
    hide Within, To, From, DayOf, Boundary, Weekday, Skipped;
    q, z, now, next := Daily(1, 0), Skipped, -1, 0;
    Nights();
    AroundMidnight();
    assert InWindow(z, 0, 0);
  }

  lemma EveryDay(a: int)
    ensures Weekday(a) in {0, 1, 2, 3, 4, 5, 6}
  {}

  /** An interval that was skipped altogether: the instant returned as the next start is
      not quiet. */
  lemma NothingBegins() returns (q: Policy, z: Zone, now: int, next: int)
    ensures ValidPolicy(q) && q.zone == Some(z)
    ensures Answer(q, z, SKIPPING, now, DayOf(z, now) - 1, DayOf(z, now) + 8, false, Some(next)) && !Active(q, z, SKIPPING, next)
  {
    hide Boundary, Weekday, DayOf;
    q, z, now, next := Daily(5, 30), Skipped, -1, 0;
    AroundMidnight();
    EveryDay(0);
    forall a | -2 <= a < 8
      ensures !Within(q, z, SKIPPING, a, -1) && !Within(q, z, SKIPPING, a, 0)
      ensures From(q, z, SKIPPING, a) <= -1 || From(q, z, SKIPPING, a) >= 0
      ensures a == 0 ==> From(q, z, SKIPPING, a) == 0
    {
      if a == 0 {
        SkippedBoundary(5, false);
        SkippedBoundary(30, true);
      } else {
        PlainBoundary(a, 5, false);
        PlainBoundary(a, 30, true);
      }
    }
    assert Ahead(q, z, SKIPPING, 0, -1);
  }
}
