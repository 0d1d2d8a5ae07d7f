/** Calendar events as the scheduler reads them, and the clock arithmetic that
    replaces JavaScript's `Date`: an instant is an integer number of minutes
    since midnight of day 0 in the user's local time zone. */
module Calendar {
  import opened Text
  import Sorting

  const MinutesPerHour: int := 60
  const MinutesPerDay: int := 1440

  /** The local calendar day of an instant (what `toDateString` compares). */
  function Day(t: int): int {
    t / MinutesPerDay
  }

  /** The local hour of an instant (`getHours`). */
  function HourOf(t: int): (h: int)
    ensures 0 <= h < 24
  {
    (t % MinutesPerDay) / MinutesPerHour
  }

  /** Midnight of day `d` plus `hour` hours (`setHours(hour, 0, 0, 0)`). */
  function AtHour(d: int, hour: int): int {
    d * MinutesPerDay + hour * MinutesPerHour
  }

  /** `getDay()`: 0 is Sunday; day 0 of the clock (1970-01-01) was a Thursday. */
  function Weekday(d: int): (w: int)
    ensures 0 <= w < 7
  {
    Mod7(d + 4)
  }

  /** `n` reduced into 0..6 by steps of seven. */
  function Mod7(n: int): (r: int)
    ensures 0 <= r < 7
    decreases if n < 0 then 7 - n else n
  {
    if n < 0 then Mod7(n + 7) else if n < 7 then n else Mod7(n - 7)
  }

  lemma {:induction false} Mod7IsRemainder(n: int)
    ensures Mod7(n) == n % 7
    decreases if n < 0 then 7 - n else n
  {
    if n < 0 {
      Mod7IsRemainder(n + 7);
    } else if n >= 7 {
      Mod7IsRemainder(n - 7);
    }
  }

  /** The weekday repeats every seven days. */
  lemma WeekdayPeriodic(d: int)
    ensures Weekday(d + 7) == Weekday(d)
  {
    if d + 4 < 0 {
      assert Mod7(d + 4) == Mod7(d + 11);
    } else {
      assert Mod7(d + 11) == Mod7(d + 4);
    }
  }

  /** The weekday advances by one each day and wraps from Saturday to Sunday. */
  lemma WeekdayNext(d: int)
    ensures Weekday(d + 1) == if Weekday(d) == 6 then 0 else Weekday(d) + 1
  {
    Mod7IsRemainder(d + 4);
    Mod7IsRemainder(d + 5);
    var q := (d + 4) / 7;
    assert d + 4 == 7 * q + Weekday(d);
    if Weekday(d) == 6 {
      assert d + 5 == 7 * (q + 1) + 0;
    } else {
      assert d + 5 == 7 * q + (Weekday(d) + 1);
    }
  }

  /** An existing calendar event: the interval it occupies, its title and its place.
      `start` and `end` are the event's `start.dateTime` and `end.dateTime`. */
  datatype Event = Event(summary: Option<string>, start: int, end: int, location: Option<string>)

  /** `x || fallback` on an optional string. */
  function OrText(o: Option<string>, fallback: string): (r: string)
    ensures Present(o) ==> r == o.value
    ensures !Present(o) ==> r == fallback
  {
    if Present(o) then o.value else fallback
  }

  /** `x || null` on an optional string: an empty string becomes null. */
  function Nonblank(o: Option<string>): (r: Option<string>)
    ensures Present(o) ==> r == o
    ensures !Present(o) ==> r == None
  {
    if Present(o) then o else None
  }

  /** A task to place in the calendar, as the optimizer receives it. Every field
      may be missing; `dueDate` is the instant the due-date string denotes. */
  datatype Task = Task(
    summary: Option<string>,
    description: Option<string>,
    duration: Option<int>,
    priority: Option<int>,
    dueDate: Option<int>,
    location: Option<string>,
    preferredTimeOfDay: Option<string>,
    isFlexible: Option<bool>,
    travelMode: Option<string>)

  /** JavaScript truthiness of an optional number: absent, null and 0 are all false. */
  predicate Truthy(o: Option<int>) {
    o.Some? && o.value != 0
  }

  /** `value || fallback` on an optional number. */
  function OrDefault(o: Option<int>, fallback: int): int {
    if Truthy(o) then o.value else fallback
  }

  /** `task.duration || 30`: the length searched for. */
  function TaskDuration(t: Task): int {
    OrDefault(t.duration, 30)
  }

  function StartOf(e: Event): int { e.start }

  /** `events.filter(e => toDateString(e.start) === toDateString(date))`. */
  function DayEvents(events: seq<Event>, d: int): seq<Event> {
    if events == [] then []
    else (if Day(events[0].start) == d then [events[0]] else []) + DayEvents(events[1..], d)
  }

  /** The same-day events sorted by start time with a stable sort. */
  function SortedDayEvents(events: seq<Event>, d: int): seq<Event> {
    Sorting.SortBy(DayEvents(events, d), StartOf)
  }

  lemma {:induction false} DayEventsMembers(events: seq<Event>, d: int)
    ensures forall e :: e in DayEvents(events, d) <==> e in events && Day(e.start) == d
  {
    if events != [] {
      DayEventsMembers(events[1..], d);
      assert forall e :: e in events <==> e == events[0] || e in events[1..];
    }
  }

  /** The events the sweep visits are exactly the events that start on day `d`,
      in ascending order of start. */
  lemma SortedDayEventsMembers(events: seq<Event>, d: int)
    ensures forall e :: e in SortedDayEvents(events, d) <==> e in events && Day(e.start) == d
    ensures Sorting.SortedBy(SortedDayEvents(events, d), StartOf)
  {
    DayEventsMembers(events, d);
    Sorting.SortBySorted(DayEvents(events, d), StartOf);
    var s := SortedDayEvents(events, d);
    assert multiset(s) == multiset(DayEvents(events, d));
    forall e ensures e in s <==> e in DayEvents(events, d) {
      assert e in s <==> e in multiset(s);
    }
  }
}
