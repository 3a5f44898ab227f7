/** The weekly reminder (app/control/schedule.py): the next slot in any time zone, and the claim of a slot. */
module Schedule {
  import opened Common

  // Times are microseconds since the start of a Monday, in UTC; a local time is shifted by the zone's offset.
  const HOUR := 3_600_000_000
  const DAY := 24 * HOUR

  /** A zone by its offsets: at an instant, and for a local time (the first of two readings). */
  datatype Zone = Zone(offsetAt: int -> int, offsetOf: int -> int)

  /** The only thing known about any zone: offsets lie strictly between minus and plus 24 hours. */
  ghost predicate Sane(z: Zone) {
    (forall t :: -DAY < z.offsetAt(t) < DAY) && (forall l :: -DAY < z.offsetOf(l) < DAY)
  }

  datatype Outcome = NextAt(at: int) | BadWeekday | BadHour

  /** The local calendar day of an instant. */
  function LocalDay(z: Zone, t: int): int { (t + z.offsetAt(t)) / DAY }

  function Slot(z: Zone, day: int, hour: int): int { var l := day * DAY + hour * HOUR; l - z.offsetOf(l) }

  /** Three days ahead a slot lies behind the instant, whatever the zone does. */
  lemma SoonBehind(z: Zone, after: int, day: int, hour: int)
    requires Sane(z) && 0 <= hour && day >= LocalDay(z, after) + 3
    ensures Slot(z, day, hour) > after
  {
    var start := LocalDay(z, after);
    assert after + z.offsetAt(after) < (start + 1) * DAY;
    assert day * DAY >= (start + 3) * DAY;
  }

  /** The first matching day, from the local day of `after` on, whose slot lies behind `after`. */
  ghost predicate FirstSlot(z: Zone, weekday: int, hour: int, after: int, at: int) {
    exists day ::
      && LocalDay(z, after) <= day < LocalDay(z, after) + 10
      && day % 7 == weekday && at == Slot(z, day, hour) && at > after
      && forall d :: LocalDay(z, after) <= d < day && d % 7 == weekday ==> Slot(z, d, hour) <= after
  }

  /** The loop of two weeks always ends with a slot, within ten days. */
  method ComputeNextReminder(weekday: int, hour: int, z: Zone, after: int) returns (r: Outcome)
    requires Sane(z)
    ensures r == BadWeekday <==> !(0 <= weekday <= 6)
    ensures r == BadHour <==> 0 <= weekday <= 6 && !(0 <= hour <= 23)
    ensures r.NextAt? ==> FirstSlot(z, weekday, hour, after, r.at)
  {
    if !(0 <= weekday <= 6) {
      return BadWeekday;
    }
    if !(0 <= hour <= 23) {
      return BadHour;
    }
    var start := LocalDay(z, after);
    ghost var sure := SureDay(start, weekday);
    SoonBehind(z, after, sure, hour);
    var offset := 0;
    while offset < 15
      invariant 0 <= offset && start + offset <= sure
      invariant forall d :: start <= d < start + offset && d % 7 == weekday ==> Slot(z, d, hour) <= after
    {
      var day := start + offset;
      if day % 7 == weekday {
        var candidate := Slot(z, day, hour);
        if candidate > after {
          return NextAt(candidate);
        }
      }
      offset := offset + 1;
    }
    assert false;
  }

  /** A matching day between the fourth and the tenth. */
  ghost function SureDay(start: int, weekday: int): (d: int)
    requires 0 <= weekday <= 6
    ensures start + 3 <= d < start + 10 && d % 7 == weekday
  {
    start + 3 + (weekday - (start + 3) % 7 + 7) % 7
  }

  /** In a zone where an earlier local date is never a later instant, the answer is the earliest of all slots behind
      `after`, not only of those from its local day on. */
  lemma EarliestOfAll(z: Zone, weekday: int, hour: int, after: int, at: int, day: int)
    requires FirstSlot(z, weekday, hour, after, at) && day % 7 == weekday && Slot(z, day, hour) > after
    requires forall d, t :: d < LocalDay(z, t) ==> Slot(z, d, hour) <= t
    requires forall d, e :: d < e ==> Slot(z, d, hour) <= Slot(z, e, hour)
    ensures at <= Slot(z, day, hour)
  {
    var found :| && LocalDay(z, after) <= found < LocalDay(z, after) + 10
                 && found % 7 == weekday && at == Slot(z, found, hour) && at > after
                 && forall d :: LocalDay(z, after) <= d < found && d % 7 == weekday ==> Slot(z, d, hour) <= after;
    if found < day {
      assert Slot(z, found, hour) <= Slot(z, day, hour);
    }
  }

  /** Where the offset of the slot's instant is the one the slot was computed with, the clock on the wall then shows the
      chosen hour of the chosen weekday. (In the hour that a change of the clocks skips there is no such instant.) */
  lemma SlotShowsHour(z: Zone, weekday: int, hour: int, after: int, at: int)
    requires FirstSlot(z, weekday, hour, after, at) && 0 <= hour <= 23
    requires forall l :: at == l - z.offsetOf(l) ==> z.offsetAt(at) == z.offsetOf(l)
    ensures LocalDay(z, at) % 7 == weekday && (at + z.offsetAt(at)) % DAY == hour * HOUR && at > after
  {
    var day :| && LocalDay(z, after) <= day < LocalDay(z, after) + 10
               && day % 7 == weekday && at == Slot(z, day, hour) && at > after
               && forall d :: LocalDay(z, after) <= d < day && d % 7 == weekday ==> Slot(z, d, hour) <= after;
    var l := day * DAY + hour * HOUR;
    assert at == l - z.offsetOf(l);
    DayAndHour(day, hour * HOUR);
  }

  lemma DayAndHour(day: int, rest: int)
    requires 0 <= rest < DAY
    ensures (day * DAY + rest) / DAY == day && (day * DAY + rest) % DAY == rest
  {}
}
