/** Quiet hours of server/internal/api/daily_notification_policy.go. Instants are
    nanoseconds; a zone is any function from instants to offsets. */
module QuietHours {
  import opened Options

  const SECOND: int := 1_000_000_000
  const MINUTE: int := 60 * SECOND
  const HOUR: int := 60 * MINUTE
  const DAY: int := 24 * HOUR

  // ---- Clock strings -----------------------------------------------------------------

  predicate Digit(c: char) { '0' <= c <= '9' }

  /** strconv.Atoi on two characters: digits, with a sign allowed. */
  function Atoi2(s: string): Option<int>
    requires |s| == 2
  {
    if Digit(s[0]) && Digit(s[1]) then Some(10 * (s[0] as int - '0' as int) + (s[1] as int - '0' as int))
    else if s[0] == '+' && Digit(s[1]) then Some(s[1] as int - '0' as int)
    else if s[0] == '-' && Digit(s[1]) then Some(-(s[1] as int - '0' as int))
    else None
  }

  function ClockMinute(raw: string): (minute: Option<nat>)
    ensures minute.Some? ==> minute.value < 1440
  {
    if |raw| != 5 || raw[2] != ':' then None
    else
      var h, m := Atoi2(raw[..2]), Atoi2(raw[3..]);
      if h.Some? && m.Some? && 0 <= h.value < 24 && 0 <= m.value < 60 then Some(h.value * 60 + m.value) else None
  }

  function TwoDigits(n: nat): string
    requires n < 100
  {
    [('0' as int + n / 10) as char, ('0' as int + n % 10) as char]
  }

  /** How the stored minute is shown again. */
  function ClockText(minute: nat): string
    requires minute < 1440
  {
    TwoDigits(minute / 60) + ":" + TwoDigits(minute % 60)
  }

  lemma ClockRoundTrip(minute: nat)
    requires minute < 1440
    ensures ClockMinute(ClockText(minute)) == Some(minute)
  {
    var h, m := TwoDigits(minute / 60), TwoDigits(minute % 60);
    assert ClockText(minute)[..2] == h && ClockText(minute)[3..] == m;
  }

  /** Of the strings the parser takes, those it would show again as they are are the
      ones with four digits; the others have a sign where a digit belongs. */
  lemma ProperClockExactly(raw: string)
    requires ClockMinute(raw).Some?
    ensures raw == ClockText(ClockMinute(raw).value) <==> Digit(raw[0]) && Digit(raw[1]) && Digit(raw[3]) && Digit(raw[4])
    ensures forall i | i in {0, 3} :: Digit(raw[i]) || raw[i] == '+' || (raw[i] == '-' && raw[i + 1] == '0')
  {
    var minute := ClockMinute(raw).value;
    var h, m := raw[..2], raw[3..];
    assert raw == h + ":" + m;
    assert h[0] == raw[0] && h[1] == raw[1] && m[0] == raw[3] && m[1] == raw[4];
    assert minute / 60 == Atoi2(h).value && minute % 60 == Atoi2(m).value;
    var text := ClockText(minute);
    assert text[0] == TwoDigits(minute / 60)[0] && text[1] == TwoDigits(minute / 60)[1];
    assert text[3] == TwoDigits(minute % 60)[0] && text[4] == TwoDigits(minute % 60)[1];
  }

  /** Such strings exist. */
  lemma SignedClockIsAccepted()
    ensures ClockMinute("+1:-0") == Some(60)
  {
    assert "+1:-0"[..2] == "+1" && "+1:-0"[3..] == "-0";
  }

  // ---- Local time ----------------------------------------------------------------------

  type Zone = int -> int

  function Local(z: Zone, t: int): int { t + z(t) }

  function DayOf(z: Zone, t: int): int { Local(z, t) / DAY }

  function MinuteOf(z: Zone, t: int): int { (Local(z, t) % DAY) / MINUTE }

  /** The instants the boundary search looks at: three hours either side. */
  function Tick(candidate: int, k: int): int { candidate - 3 * HOUR + k * MINUTE }

  const TICKS: nat := 361

  datatype Found = Found(exact: Option<int>, later: Option<int>, laterMinute: int)

  /** One instant of the search. */
  function Look(z: Zone, day: int, minute: int, last: bool, f: Found, t: int): Found {
    if DayOf(z, t) != day then f
    else
      var value := MinuteOf(z, t);
      if value == minute then (if f.exact.None? || last then f.(exact := Some(t)) else f)
      else if value > minute && (value < f.laterMinute || (value == f.laterMinute && f.later.None?)) then
        f.(later := Some(t), laterMinute := value)
      else f
  }

  function Search(z: Zone, day: int, minute: int, candidate: int, last: bool, n: nat): Found {
    if n == 0 then Found(None, None, 1441)
    else Look(z, day, minute, last, Search(z, day, minute, candidate, last, n - 1), Tick(candidate, n - 1))
  }

  function Chosen(f: Found, candidate: int): int {
    if f.exact.Some? then f.exact.value else if f.later.Some? then f.later.value else candidate
  }

  /** The zone looks constant and the candidate shows the wanted time; only the day
      of the month is compared. */
  predicate FastPath(z: Zone, dayOfMonth: int -> int, day: int, minute: int, candidate: int) {
    && z(candidate - 3 * HOUR) == z(candidate + 3 * HOUR)
    && dayOfMonth(DayOf(z, candidate)) == dayOfMonth(day) && MinuteOf(z, candidate) == minute
  }

  function Boundary(z: Zone, dayOfMonth: int -> int, day: int, minute: int, candidate: int, last: bool): int {
    if FastPath(z, dayOfMonth, day, minute, candidate) then candidate
    else Chosen(Search(z, day, minute, candidate, last, TICKS), candidate)
  }

  method QuietWallBoundary(z: Zone, dayOfMonth: int -> int, day: int, minute: int, candidate: int, last: bool) returns (r: int)
    ensures r == Boundary(z, dayOfMonth, day, minute, candidate, last)
  {
    var before, after := z(candidate - 3 * HOUR), z(candidate + 3 * HOUR);
    if before == after && dayOfMonth(DayOf(z, candidate)) == dayOfMonth(day) && MinuteOf(z, candidate) == minute {
      return candidate;
    }
    hide DayOf, MinuteOf;
    var exact: Option<int>, later: Option<int>, laterMinute := None, None, 1441;
    var t, n: nat := candidate - 3 * HOUR, 0;
    while t <= candidate + 3 * HOUR
      invariant t == Tick(candidate, n) && n <= TICKS
      invariant Found(exact, later, laterMinute) == Search(z, day, minute, candidate, last, n)
      decreases TICKS - n
    {
      if DayOf(z, t) == day {
        var value := MinuteOf(z, t);
        if value == minute {
          if exact.None? || last {
            exact := Some(t);
          }
        } else if value > minute && (value < laterMinute || (value == laterMinute && later.None?)) {
          later, laterMinute := Some(t), value;
        }
      }
      t, n := t + MINUTE, n + 1;
    }
    if exact.Some? {
      return exact.value;
    }
    if later.Some? {
      return later.value;
    }
    return candidate;
  }

  // ---- What the search finds ---------------------------------------------------------------

  predicate ExactAt(z: Zone, day: int, minute: int, candidate: int, k: int) {
    DayOf(z, Tick(candidate, k)) == day && MinuteOf(z, Tick(candidate, k)) == minute
  }

  predicate LaterAt(z: Zone, day: int, minute: int, candidate: int, k: int) {
    DayOf(z, Tick(candidate, k)) == day && MinuteOf(z, Tick(candidate, k)) > minute
  }

  /** The k-th instant is the first, or with `last` the last, of the first n that
      show the wanted minute. */
  ghost predicate PicksExact(z: Zone, day: int, minute: int, candidate: int, last: bool, n: int, k: int) {
    && 0 <= k < n && ExactAt(z, day, minute, candidate, k)
    && forall j | 0 <= j < n && ExactAt(z, day, minute, candidate, j) :: if last then j <= k else k <= j
  }

  /** The first instant with the smallest later minute. */
  ghost predicate PicksLater(z: Zone, day: int, minute: int, candidate: int, n: int, k: int) {
    && 0 <= k < n && LaterAt(z, day, minute, candidate, k)
    && forall j | 0 <= j < n && LaterAt(z, day, minute, candidate, j) ::
         var best, other := MinuteOf(z, Tick(candidate, k)), MinuteOf(z, Tick(candidate, j));
         best < other || (best == other && k <= j)
  }

  ghost predicate Means(z: Zone, day: int, minute: int, candidate: int, last: bool, n: int, f: Found) {
    && (f.exact.Some? ==> exists k :: f.exact.value == Tick(candidate, k) && PicksExact(z, day, minute, candidate, last, n, k))
    && (f.exact.None? ==> forall j | 0 <= j < n :: !ExactAt(z, day, minute, candidate, j))
    && (f.later.Some? ==> exists k :: f.later.value == Tick(candidate, k) && PicksLater(z, day, minute, candidate, n, k)
                                      && f.laterMinute == MinuteOf(z, Tick(candidate, k)))
    && (f.later.None? ==> f.laterMinute == 1441 && forall j | 0 <= j < n :: !LaterAt(z, day, minute, candidate, j))
  }

  lemma MinuteInDay(z: Zone, t: int)
    ensures 0 <= MinuteOf(z, t) < 1440
  {}

  lemma ExactNext(z: Zone, day: int, minute: int, candidate: int, last: bool, n: nat, f: Found)
    requires Means(z, day, minute, candidate, last, n, f) && 0 <= minute < 1440
    ensures var g := Look(z, day, minute, last, f, Tick(candidate, n));
      && (g.exact.Some? ==> exists k :: g.exact.value == Tick(candidate, k) && PicksExact(z, day, minute, candidate, last, n + 1, k))
      && (g.exact.None? ==> forall j | 0 <= j < n + 1 :: !ExactAt(z, day, minute, candidate, j))
  {
    hide MinuteOf, DayOf, Tick;
    var g := Look(z, day, minute, last, f, Tick(candidate, n));
    if ExactAt(z, day, minute, candidate, n) && (f.exact.None? || last) {
      assert PicksExact(z, day, minute, candidate, last, n + 1, n);
    } else if f.exact.Some? {
      var k :| f.exact.value == Tick(candidate, k) && PicksExact(z, day, minute, candidate, last, n, k);
      assert g.exact == f.exact && PicksExact(z, day, minute, candidate, last, n + 1, k);
    }
  }

  lemma LaterNext(z: Zone, day: int, minute: int, candidate: int, last: bool, n: nat, f: Found)
    requires Means(z, day, minute, candidate, last, n, f) && 0 <= minute < 1440
    ensures var g := Look(z, day, minute, last, f, Tick(candidate, n));
      && (g.later.Some? ==> exists k :: g.later.value == Tick(candidate, k) && PicksLater(z, day, minute, candidate, n + 1, k)
                                        && g.laterMinute == MinuteOf(z, Tick(candidate, k)))
      && (g.later.None? ==> g.laterMinute == 1441 && forall j | 0 <= j < n + 1 :: !LaterAt(z, day, minute, candidate, j))
  {
    MinuteInDay(z, Tick(candidate, n));
    hide MinuteOf, DayOf, Tick;
    var g := Look(z, day, minute, last, f, Tick(candidate, n));
    if f.later.Some? {
      var k :| f.later.value == Tick(candidate, k) && PicksLater(z, day, minute, candidate, n, k)
               && f.laterMinute == MinuteOf(z, Tick(candidate, k));
      if g.later == f.later && g.laterMinute == f.laterMinute {
        assert PicksLater(z, day, minute, candidate, n + 1, k);
      } else {
        assert PicksLater(z, day, minute, candidate, n + 1, n);
      }
    } else if LaterAt(z, day, minute, candidate, n) {
      assert PicksLater(z, day, minute, candidate, n + 1, n);
    }
  }

  lemma {:induction false} SearchMeans(z: Zone, day: int, minute: int, candidate: int, last: bool, n: nat)
    requires 0 <= minute < 1440
    ensures Means(z, day, minute, candidate, last, n, Search(z, day, minute, candidate, last, n))
  {
    hide Look, PicksExact, PicksLater, ExactAt, LaterAt, MinuteOf, Tick;
    if n > 0 {
      SearchMeans(z, day, minute, candidate, last, n - 1);
      ExactNext(z, day, minute, candidate, last, n - 1, Search(z, day, minute, candidate, last, n - 1));
      LaterNext(z, day, minute, candidate, last, n - 1, Search(z, day, minute, candidate, last, n - 1));
    }
  }

  /** For any zone: the wanted minute of that day if it occurs within the search,
      at its first or last occurrence; else the first occurrence of the smallest
      later minute of the day; else the candidate. */
  lemma BoundaryMeans(z: Zone, day: int, minute: int, candidate: int, last: bool)
    requires 0 <= minute < 1440
    ensures var r := Chosen(Search(z, day, minute, candidate, last, TICKS), candidate);
      || (exists k :: r == Tick(candidate, k) && PicksExact(z, day, minute, candidate, last, TICKS, k))
      || ((forall j | 0 <= j < TICKS :: !ExactAt(z, day, minute, candidate, j))
          && exists k :: r == Tick(candidate, k) && PicksLater(z, day, minute, candidate, TICKS, k))
      || ((forall j | 0 <= j < TICKS :: !ExactAt(z, day, minute, candidate, j) && !LaterAt(z, day, minute, candidate, j))
          && r == candidate)
  {
    SearchMeans(z, day, minute, candidate, last, TICKS);
    hide Search, PicksExact, PicksLater, ExactAt, LaterAt, Tick;
  }

  // ---- The fast path -------------------------------------------------------------------------

  predicate ConstantOver(z: Zone, candidate: int, n: nat) { forall k | 0 <= k < n :: z(Tick(candidate, k)) == z(candidate) }

  /** Two local times of the same day and minute, a whole number of minutes apart. */
  lemma SameMinute(a: int, k: int)
    requires (a + k * MINUTE) / DAY == a / DAY && ((a + k * MINUTE) % DAY) / MINUTE == (a % DAY) / MINUTE
    ensures k == 0
  {
    var b := a + k * MINUTE;
    assert b == DAY * (b / DAY) + b % DAY && a == DAY * (a / DAY) + a % DAY;
    assert b % DAY - a % DAY == k * MINUTE;
    var p, q := a % DAY, b % DAY;
    assert p == MINUTE * (p / MINUTE) + p % MINUTE && q == MINUTE * (q / MINUTE) + q % MINUTE;
  }

  lemma OnlyCandidate(z: Zone, day: int, minute: int, candidate: int, k: int)
    requires ConstantOver(z, candidate, TICKS) && 0 <= k < TICKS
    requires DayOf(z, candidate) == day && MinuteOf(z, candidate) == minute
    ensures ExactAt(z, day, minute, candidate, k) <==> k == 180
  {
    assert Tick(candidate, 180) == candidate;
    assert Local(z, Tick(candidate, k)) == Local(z, candidate) + (k - 180) * MINUTE;
    if ExactAt(z, day, minute, candidate, k) { SameMinute(Local(z, candidate), k - 180); }
  }

  /** The fast path gives up exactly the other occurrences: its candidate is what the
      search returns if and only if no instant of the search before it, or with `last`
      after it, shows the same local time. */
  lemma FastPathExactly(z: Zone, dayOfMonth: int -> int, day: int, minute: int, candidate: int, last: bool)
    requires 0 <= minute < 1440 && FastPath(z, dayOfMonth, day, minute, candidate) && DayOf(z, candidate) == day
    ensures Boundary(z, dayOfMonth, day, minute, candidate, last) == Chosen(Search(z, day, minute, candidate, last, TICKS), candidate)
       <==> forall k | 0 <= k < TICKS && ExactAt(z, day, minute, candidate, k) :: if last then k <= 180 else 180 <= k
  {
    SearchMeans(z, day, minute, candidate, last, TICKS);
    assert Tick(candidate, 180) == candidate && ExactAt(z, day, minute, candidate, 180);
    assert forall k :: Tick(candidate, k) == candidate ==> k == 180;
    var f := Search(z, day, minute, candidate, last, TICKS);
    hide Search, MinuteOf, DayOf, Tick;
    assert f.exact.Some?;
    var k :| f.exact.value == Tick(candidate, k) && PicksExact(z, day, minute, candidate, last, TICKS, k);
  }

  /** Where the offset is constant over the search and the candidate is at most a
      day off, there is no other occurrence. */
  lemma FastPathIsSearch(z: Zone, dayOfMonth: int -> int, day: int, minute: int, candidate: int, last: bool)
    requires 0 <= minute < 1440 && ConstantOver(z, candidate, TICKS) && FastPath(z, dayOfMonth, day, minute, candidate)
    requires -1 <= DayOf(z, candidate) - day <= 1 && forall d: int :: dayOfMonth(d) != dayOfMonth(d + 1)
    ensures Boundary(z, dayOfMonth, day, minute, candidate, last) == Chosen(Search(z, day, minute, candidate, last, TICKS), candidate)
  {
    hide Search, MinuteOf, DayOf, ConstantOver, Tick, ExactAt;
    assert dayOfMonth(day - 1) != dayOfMonth(day - 1 + 1) && dayOfMonth(day) != dayOfMonth(day + 1);
    assert DayOf(z, candidate) == day;
    forall k | 0 <= k < TICKS && ExactAt(z, day, minute, candidate, k) ensures k == 180 {
      OnlyCandidate(z, day, minute, candidate, k);
    }
    FastPathExactly(z, dayOfMonth, day, minute, candidate, last);
  }

  // ---- The policy ----------------------------------------------------------------------------

  /** Days are numbered from 1 January 1970, a Thursday; Sunday is 0. */
  function Weekday(day: int): nat { (day + 4) % 7 }

  datatype Policy = Policy(enabled: bool, zone: Option<Zone>, weekdays: set<nat>, start: nat, end: nat)

  /** `date` is what the platform answers for a wall-clock time in the zone. */
  datatype Calendar = Calendar(dayOfMonth: int -> int, date: (int, int) -> int)

  /** What a saved policy satisfies. */
  predicate ValidPolicy(q: Policy) {
    && q.start < 1440 && q.end < 1440 && q.start != q.end
    && q.weekdays != {} && forall w | w in q.weekdays :: w <= 6
  }

  function From(q: Policy, z: Zone, c: Calendar, a: int): int {
    Boundary(z, c.dayOfMonth, a, q.start, c.date(a, q.start), false)
  }

  function EndDay(q: Policy, a: int): int { if q.start > q.end then a + 1 else a }

  function To(q: Policy, z: Zone, c: Calendar, a: int): int {
    Boundary(z, c.dayOfMonth, EndDay(q, a), q.end, c.date(EndDay(q, a), q.end), true)
  }

  predicate Within(q: Policy, z: Zone, c: Calendar, a: int, now: int) {
    Weekday(a) in q.weekdays && From(q, z, c, a) <= now < To(q, z, c, a)
  }

  predicate Ahead(q: Policy, z: Zone, c: Calendar, a: int, now: int) { Weekday(a) in q.weekdays && From(q, z, c, a) > now }

  /** The answer over anchor days [first, last): the earliest anchor whose interval
      holds now, or else the earliest start still ahead. */
  ghost predicate Answer(q: Policy, z: Zone, c: Calendar, now: int, first: int, last: int, active: bool, next: Option<int>) {
    if active then
      exists a :: first <= a < last && Within(q, z, c, a, now) && next == Some(To(q, z, c, a))
                  && forall b | first <= b < a :: !Within(q, z, c, b, now)
    else
      && (forall a | first <= a < last :: !Within(q, z, c, a, now))
      && (next.None? ==> forall a | first <= a < last :: !Ahead(q, z, c, a, now))
      && (next.Some? ==>
            && (exists a :: first <= a < last && Ahead(q, z, c, a, now) && next.value == From(q, z, c, a))
            && forall a | first <= a < last && Ahead(q, z, c, a, now) :: next.value <= From(q, z, c, a))
  }

  lemma NothingSeen(q: Policy, z: Zone, c: Calendar, now: int, first: int)
    ensures Answer(q, z, c, now, first, first, false, None)
  {}

  /** One more anchor day. */
  lemma AnchorSeen(q: Policy, z: Zone, c: Calendar, now: int, first: int, a: int, last: int, next: Option<int>)
    requires first <= a < last && Answer(q, z, c, now, first, a, false, next)
    ensures Within(q, z, c, a, now) ==> Answer(q, z, c, now, first, last, true, Some(To(q, z, c, a)))
    ensures !Within(q, z, c, a, now) && Ahead(q, z, c, a, now) && (next.None? || From(q, z, c, a) < next.value) ==>
      Answer(q, z, c, now, first, a + 1, false, Some(From(q, z, c, a)))
    ensures !Within(q, z, c, a, now) && !(Ahead(q, z, c, a, now) && (next.None? || From(q, z, c, a) < next.value)) ==>
      Answer(q, z, c, now, first, a + 1, false, next)
  {
    hide Within, Ahead, From, To;
    if next.Some? {
      var b :| first <= b < a && Ahead(q, z, c, b, now) && next.value == From(q, z, c, b);
      assert first <= b < a + 1 && Ahead(q, z, c, b, now) && next.value == From(q, z, c, b);
    }
  }

  method QuietHoursAt(q: Policy, c: Calendar, now: int) returns (active: bool, next: Option<int>)
    ensures !q.enabled || q.zone.None? ==> !active && next.None?
    ensures q.enabled && q.zone.Some? ==>
      Answer(q, q.zone.value, c, now, DayOf(q.zone.value, now) - 1, DayOf(q.zone.value, now) + 8, active, next)
  {
    if !q.enabled || q.zone.None? {
      return false, None;
    }
    var z := q.zone.value;
    var day := DayOf(z, now);
    hide DayOf, Boundary, Weekday, Answer;
    active, next := false, None;
    NothingSeen(q, z, c, now, day - 1);
    for offset := -1 to 8
      invariant !active && Answer(q, z, c, now, day - 1, day + offset, false, next)
    {
      var anchor := day + offset;
      AnchorSeen(q, z, c, now, day - 1, anchor, day + 8, next);
      if Weekday(anchor) in q.weekdays {
        var from := QuietWallBoundary(z, c.dayOfMonth, anchor, q.start, c.date(anchor, q.start), false);
        var endDay := if q.start > q.end then anchor + 1 else anchor;
        var to := QuietWallBoundary(z, c.dayOfMonth, endDay, q.end, c.date(endDay, q.end), true);
        if from <= now < to {
          return true, Some(to);
        }
        if from > now && (next.None? || from < next.value) {
          next := Some(from);
        }
      }
    }
  }

  // ---- In a zone with one offset -----------------------------------------------------------------

  ghost predicate Fixed(z: Zone, c: Calendar, off: int) {
    && (forall t: int :: z(t) == off)
    && (forall day: int, minute: int :: c.date(day, minute) == day * DAY + minute * MINUTE - off)
  }

  function Starts(q: Policy, off: int, a: int): int { a * DAY + q.start * MINUTE - off }

  function Stops(q: Policy, off: int, a: int): int { EndDay(q, a) * DAY + q.end * MINUTE - off }

  /** Quiet by the policy's own meaning, whichever day the interval began. */
  ghost predicate Quiet(q: Policy, off: int, t: int) {
    exists a :: Weekday(a) in q.weekdays && Starts(q, off, a) <= t < Stops(q, off, a)
  }

  lemma DayParts(day: int, minute: int)
    requires 0 <= minute < 1440
    ensures (day * DAY + minute * MINUTE) / DAY == day && (day * DAY + minute * MINUTE) % DAY == minute * MINUTE
    ensures (minute * MINUTE) / MINUTE == minute
  {}

  lemma FixedBoundary(z: Zone, c: Calendar, off: int, day: int, minute: nat, last: bool)
    requires Fixed(z, c, off) && minute < 1440
    ensures Boundary(z, c.dayOfMonth, day, minute, c.date(day, minute), last) == day * DAY + minute * MINUTE - off
  {
    DayParts(day, minute);
    var t := c.date(day, minute);
    assert Local(z, t) == day * DAY + minute * MINUTE;
    hide Search;
  }

  lemma FixedEnds(q: Policy, z: Zone, c: Calendar, off: int, a: int)
    requires Fixed(z, c, off) && ValidPolicy(q)
    ensures From(q, z, c, a) == Starts(q, off, a) && To(q, z, c, a) == Stops(q, off, a)
  {
    FixedBoundary(z, c, off, a, q.start, false);
    FixedBoundary(z, c, off, EndDay(q, a), q.end, true);
    hide Boundary, Fixed;
  }

  /** Intervals last less than a day, so one ends before the next day's begins. */
  lemma IntervalsApart(q: Policy, off: int, a: int)
    requires ValidPolicy(q)
    ensures Starts(q, off, a) < Stops(q, off, a) < Starts(q, off, a + 1) == Starts(q, off, a) + DAY
  {}

  lemma InOrder(q: Policy, off: int, a: int, b: int)
    requires ValidPolicy(q) && a < b
    ensures Stops(q, off, a) < Starts(q, off, b)
  {
    IntervalsApart(q, off, a);
    assert (b - a - 1) * DAY >= 0;
    assert Starts(q, off, b) == Starts(q, off, a + 1) + (b - a - 1) * DAY;
  }

  /** An interval that holds an instant began on its day or the day before. */
  lemma AnchorOf(q: Policy, z: Zone, off: int, a: int, t: int)
    requires ValidPolicy(q) && (forall u: int :: z(u) == off) && Starts(q, off, a) <= t < Stops(q, off, a)
    ensures DayOf(z, t) - 1 <= a <= DayOf(z, t)
  {
    var l := t + off;
    assert Local(z, t) == l && l == DAY * (l / DAY) + l % DAY;
    assert a * DAY <= l < (a + 2) * DAY;
  }

  /** A start no more than a day behind cannot lie ahead. */
  lemma AheadIsLater(q: Policy, z: Zone, off: int, a: int, t: int)
    requires ValidPolicy(q) && (forall u: int :: z(u) == off)
    ensures a < DayOf(z, t) ==> Starts(q, off, a) <= t
    ensures a > DayOf(z, t) ==> Starts(q, off, a) > t
  {
    var l := t + off;
    assert Local(z, t) == l && l == DAY * (l / DAY) + l % DAY;
    if a < DayOf(z, t) { assert (a + 1) * DAY <= (l / DAY) * DAY; }
    if a > DayOf(z, t) { assert a * DAY >= (l / DAY + 1) * DAY; }
  }

  /** The answer agrees with the policy's meaning. */
  lemma ActiveIsQuiet(q: Policy, z: Zone, c: Calendar, off: int, now: int, active: bool, next: Option<int>)
    requires Fixed(z, c, off) && ValidPolicy(q)
    requires Answer(q, z, c, now, DayOf(z, now) - 1, DayOf(z, now) + 8, active, next)
    ensures active <==> Quiet(q, off, now)
  {
    hide Weekday, DayOf, Starts, Stops, From, To;
    var d := DayOf(z, now);
    if active {
      var a :| d - 1 <= a < d + 8 && Within(q, z, c, a, now) && next == Some(To(q, z, c, a));
      FixedEnds(q, z, c, off, a);
    }
    if Quiet(q, off, now) {
      var a :| Weekday(a) in q.weekdays && Starts(q, off, a) <= now < Stops(q, off, a);
      AnchorOf(q, z, off, a, now);
      FixedEnds(q, z, c, off, a);
      assert Within(q, z, c, a, now);
    }
  }

  /** While quiet: it stays so until the returned instant, and is not at it. */
  lemma QuietUntilExactly(q: Policy, z: Zone, c: Calendar, off: int, now: int, next: Option<int>, t: int)
    requires Fixed(z, c, off) && ValidPolicy(q)
    requires Answer(q, z, c, now, DayOf(z, now) - 1, DayOf(z, now) + 8, true, next)
    ensures next.Some? && now < next.value
    ensures now <= t < next.value ==> Quiet(q, off, t)
    ensures !Quiet(q, off, next.value)
  {
    hide Weekday, DayOf, Starts, Stops, From, To;
    var d := DayOf(z, now);
    var a :| d - 1 <= a < d + 8 && Within(q, z, c, a, now) && next == Some(To(q, z, c, a));
    FixedEnds(q, z, c, off, a);
    if Quiet(q, off, next.value) {
      var b :| Weekday(b) in q.weekdays && Starts(q, off, b) <= next.value < Stops(q, off, b);
      if a < b { InOrder(q, off, a, b); }
      if b < a { InOrder(q, off, b, a); }
    }
  }

  lemma SomeDay(days: set<nat>) returns (w: nat)
    requires days != {}
    ensures w in days
  {
    w :| w in days;
  }

  /** Some anchor of the coming week is one of the policy's days. */
  lemma WeekHasDay(q: Policy, d: int) returns (a: int)
    requires ValidPolicy(q)
    ensures d + 1 <= a <= d + 7 && Weekday(a) in q.weekdays
  {
    var w := SomeDay(q.weekdays);
    a := d + 1 + (w - Weekday(d + 1)) % 7;
  }

  /** While not quiet: a next instant exists, it is quiet at it, and nothing before
      it is. */
  lemma QuietFromExactly(q: Policy, z: Zone, c: Calendar, off: int, now: int, next: Option<int>, t: int)
    requires Fixed(z, c, off) && ValidPolicy(q)
    requires Answer(q, z, c, now, DayOf(z, now) - 1, DayOf(z, now) + 8, false, next)
    ensures next.Some? && now < next.value && Quiet(q, off, next.value)
    ensures now <= t < next.value ==> !Quiet(q, off, t)
  {
    hide Weekday, DayOf, From, To, Starts, Stops;
    var d := DayOf(z, now);
    var w := WeekHasDay(q, d);
    FixedEnds(q, z, c, off, w);
    AheadIsLater(q, z, off, w, now);
    assert Ahead(q, z, c, w, now);
    var a :| d - 1 <= a < d + 8 && Ahead(q, z, c, a, now) && next.value == From(q, z, c, a);
    FixedEnds(q, z, c, off, a);
    IntervalsApart(q, off, a);
    if now <= t < next.value {
      forall b | Weekday(b) in q.weekdays ensures !(Starts(q, off, b) <= t < Stops(q, off, b)) {
        NotYet(q, z, c, off, now, t, a, b);
      }
    }
  }

  lemma FixedTests(q: Policy, z: Zone, c: Calendar, off: int, a: int, now: int)
    requires Fixed(z, c, off) && ValidPolicy(q)
    ensures Within(q, z, c, a, now) <==> Weekday(a) in q.weekdays && Starts(q, off, a) <= now < Stops(q, off, a)
    ensures Ahead(q, z, c, a, now) <==> Weekday(a) in q.weekdays && Starts(q, off, a) > now
    ensures Starts(q, off, a) <= now < Stops(q, off, a) ==> DayOf(z, now) - 1 <= a <= DayOf(z, now)
    ensures From(q, z, c, a) == Starts(q, off, a)
  {
    FixedEnds(q, z, c, off, a);
    hide From, To, Weekday, DayOf, Starts, Stops;
    if Starts(q, off, a) <= now < Stops(q, off, a) { AnchorOf(q, z, off, a, now); }
  }

  /** No interval begins between now and the earliest start found. */
  lemma NotYet(q: Policy, z: Zone, c: Calendar, off: int, now: int, t: int, a: int, b: int)
    requires Fixed(z, c, off) && ValidPolicy(q) && DayOf(z, now) - 1 <= a < DayOf(z, now) + 8
    requires forall x | DayOf(z, now) - 1 <= x < DayOf(z, now) + 8 :: !Within(q, z, c, x, now)
    requires forall x | DayOf(z, now) - 1 <= x < DayOf(z, now) + 8 && Ahead(q, z, c, x, now) :: Starts(q, off, a) <= From(q, z, c, x)
    requires now <= t < Starts(q, off, a) && Weekday(b) in q.weekdays
    ensures !(Starts(q, off, b) <= t < Stops(q, off, b))
  {
    FixedTests(q, z, c, off, b, now);
    AheadIsLater(q, z, off, b, now);
    IntervalsApart(q, off, a);
    if a < b { InOrder(q, off, a, b); }
    hide Weekday, Within, Ahead, From, Fixed, DayOf, Starts, Stops;
  }
}
