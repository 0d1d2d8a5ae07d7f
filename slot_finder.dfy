/** `findAvailableSlots`: a cursor sweep over one day's events that emits every
    free gap of at least the requested length inside the working-hours window. */
module SlotFinder {
  import opened Text
  import opened Calendar
  import Sorting

  /** A free interval; `duration` is stored, as the source stores `gapMinutes`. */
  datatype Slot = Slot(start: int, end: int, duration: int)

  /** Working hours `{ start, end }`, in whole hours of the day. */
  datatype WorkingHours = WorkingHours(start: int, end: int)

  const DefaultWorkingHours: WorkingHours := WorkingHours(8, 20)

  function Max(a: int, b: int): int { if a < b then b else a }

  function DayStart(d: int, wh: WorkingHours): int { AtHour(d, wh.start) }

  function DayEnd(d: int, wh: WorkingHours): int { AtHour(d, wh.end) }

  /** The sweep itself: a gap before each event, then the cursor moves to
      `max(cursor, event.end)`; after the last event, the gap up to `dayEnd`. */
  function Sweep(events: seq<Event>, cursor: int, dayEnd: int, minDuration: int): seq<Slot>
    decreases |events|
  {
    if events == [] then
      if dayEnd - cursor >= minDuration then [Slot(cursor, dayEnd, dayEnd - cursor)] else []
    else
      var e := events[0];
      (if e.start - cursor >= minDuration then [Slot(cursor, e.start, e.start - cursor)] else [])
      + Sweep(events[1..], Max(cursor, e.end), dayEnd, minDuration)
  }

  /** The slots `findAvailableSlots(events, day, minDuration, workingHours)` returns. */
  function AvailableSlots(events: seq<Event>, d: int, minDuration: int, wh: WorkingHours): seq<Slot> {
    Sweep(SortedDayEvents(events, d), DayStart(d, wh), DayEnd(d, wh), minDuration)
  }

  /** `findAvailableSlots`: filter the day's events, sort them by start, sweep. */
  method FindAvailableSlots(events: seq<Event>, d: int, minDuration: int, wh: WorkingHours)
    returns (slots: seq<Slot>)
    ensures slots == AvailableSlots(events, d, minDuration, wh)
  {
    var dayEvents := SortedDayEvents(events, d);
    slots := SweepGaps(dayEvents, DayStart(d, wh), DayEnd(d, wh), minDuration);
  }

  /** The `for (const event of dayEvents)` loop of `findAvailableSlots` and the
      trailing gap after it, moving `currentTime` forward event by event. */
  method SweepGaps(dayEvents: seq<Event>, dayStart: int, dayEnd: int, minDuration: int)
    returns (slots: seq<Slot>)
    ensures slots == Sweep(dayEvents, dayStart, dayEnd, minDuration)
  {
    var cursor := dayStart;
    slots := [];
    var i := 0;
    assert dayEvents[0..] == dayEvents;
    while i < |dayEvents|
      invariant 0 <= i <= |dayEvents|
      invariant slots + Sweep(dayEvents[i..], cursor, dayEnd, minDuration) == Sweep(dayEvents, dayStart, dayEnd, minDuration)
    {
      var e := dayEvents[i];
      SweepStep(dayEvents, i, cursor, dayEnd, minDuration);
      ghost var rest := Sweep(dayEvents[i + 1..], Max(cursor, e.end), dayEnd, minDuration);
      var gapMinutes := e.start - cursor;
      if gapMinutes >= minDuration {
        var gap := [Slot(cursor, e.start, gapMinutes)];
        assert slots + (gap + rest) == (slots + gap) + rest;
        slots := slots + gap;
      } else {
        assert Sweep(dayEvents[i..], cursor, dayEnd, minDuration) == rest;
      }
      cursor := Max(cursor, e.end);
      i := i + 1;
    }
    assert dayEvents[i..] == [];
    var remainingMinutes := dayEnd - cursor;
    if remainingMinutes >= minDuration {
      slots := slots + [Slot(cursor, dayEnd, remainingMinutes)];
    }
  }

  lemma SweepStep(events: seq<Event>, i: int, cursor: int, dayEnd: int, minDuration: int)
    requires 0 <= i < |events|
    ensures Sweep(events[i..], cursor, dayEnd, minDuration)
         == (if events[i].start - cursor >= minDuration
             then [Slot(cursor, events[i].start, events[i].start - cursor)] else [])
            + Sweep(events[i + 1..], Max(cursor, events[i].end), dayEnd, minDuration)
  {
    assert events[i..][1..] == events[i + 1..];
  }

  lemma {:induction false} SweepLongEnough(events: seq<Event>, cursor: int, dayEnd: int, minDuration: int)
    ensures forall s :: s in Sweep(events, cursor, dayEnd, minDuration) ==>
              s.duration == s.end - s.start && s.duration >= minDuration
    decreases |events|
  {
    if events != [] {
      SweepLongEnough(events[1..], Max(cursor, events[0].end), dayEnd, minDuration);
    }
  }

  /** Every slot is at least `minDuration` long and its stored duration is its length. */
  lemma SlotsLongEnough(events: seq<Event>, d: int, minDuration: int, wh: WorkingHours)
    ensures forall s :: s in AvailableSlots(events, d, minDuration, wh) ==>
              s.duration == s.end - s.start && s.duration >= minDuration
  {
    SweepLongEnough(SortedDayEvents(events, d), DayStart(d, wh), DayEnd(d, wh), minDuration);
  }

  /** The slot and the event share at least one minute. */
  predicate Overlaps(s: Slot, e: Event) {
    e.start < s.end && s.start < e.end
  }

  /** Each slot is non-empty and ends no later than the next one starts. */
  predicate Ordered(r: seq<Slot>) {
    && (forall i :: 0 <= i < |r| ==> r[i].start < r[i].end)
    && (forall i, j :: 0 <= i < j < |r| ==> r[i].end <= r[j].start)
  }

  predicate WellFormed(events: seq<Event>) {
    forall i :: 0 <= i < |events| ==> events[i].start <= events[i].end
  }

  /** The cursor never moves backwards: every slot starts at or after it. */
  lemma {:induction false} SweepStartsAfterCursor(events: seq<Event>, cursor: int, dayEnd: int, minDuration: int)
    ensures forall s :: s in Sweep(events, cursor, dayEnd, minDuration) ==> cursor <= s.start
    decreases |events|
  {
    if events != [] {
      SweepStartsAfterCursor(events[1..], Max(cursor, events[0].end), dayEnd, minDuration);
    }
  }

  lemma {:induction false} SweepAvoidsEvents(events: seq<Event>, cursor: int, dayEnd: int, minDuration: int)
    requires Sorting.SortedBy(events, StartOf)
    ensures forall s, e :: s in Sweep(events, cursor, dayEnd, minDuration) && e in events ==> !Overlaps(s, e)
    decreases |events|
  {
    if events != [] {
      var e0 := events[0];
      var rest := events[1..];
      var c' := Max(cursor, e0.end);
      SweepAvoidsEvents(rest, c', dayEnd, minDuration);
      SweepStartsAfterCursor(rest, c', dayEnd, minDuration);
      forall s, e | s in Sweep(events, cursor, dayEnd, minDuration) && e in events
        ensures !Overlaps(s, e)
      {
        if s in Sweep(rest, c', dayEnd, minDuration) {
          if e != e0 {
            assert e in rest;
          }
        } else {
          assert s == Slot(cursor, e0.start, e0.start - cursor);
          if e != e0 {
            var k :| 0 <= k < |events| && events[k] == e;
            assert StartOf(events[0]) <= StartOf(events[k]);
          }
        }
      }
    }
  }

  /** No emitted slot overlaps any event that starts on the searched day. */
  lemma SlotsAvoidDayEvents(events: seq<Event>, d: int, minDuration: int, wh: WorkingHours)
    ensures forall s, e ::
              s in AvailableSlots(events, d, minDuration, wh) && e in events && Day(e.start) == d ==> !Overlaps(s, e)
  {
    SortedDayEventsMembers(events, d);
    SweepAvoidsEvents(SortedDayEvents(events, d), DayStart(d, wh), DayEnd(d, wh), minDuration);
  }

  lemma OrderedCons(x: Slot, rest: seq<Slot>, bound: int)
    requires x.start < x.end <= bound && Ordered(rest)
    requires forall s :: s in rest ==> bound <= s.start
    ensures Ordered([x] + rest)
  {
    var r := [x] + rest;
    forall i | 0 <= i < |r| ensures r[i].start < r[i].end {
      if i > 0 { assert r[i] == rest[i - 1]; }
    }
    forall i, j | 0 <= i < j < |r| ensures r[i].end <= r[j].start {
      assert r[j] == rest[j - 1];
      if i > 0 {
        assert r[i] == rest[i - 1];
      } else {
        assert rest[j - 1] in rest;
      }
    }
  }

  lemma WellFormedTail(events: seq<Event>)
    requires events != [] && WellFormed(events)
    ensures WellFormed(events[1..]) && events[0].start <= events[0].end
  {
    forall i | 0 <= i < |events[1..]| ensures events[1..][i].start <= events[1..][i].end {
      assert events[1..][i] == events[i + 1];
    }
  }

  lemma {:induction false} SweepOrdered(events: seq<Event>, cursor: int, dayEnd: int, minDuration: int)
    requires minDuration > 0 && WellFormed(events)
    ensures Ordered(Sweep(events, cursor, dayEnd, minDuration))
    decreases |events|
  {
    if events != [] {
      var e0 := events[0];
      var c' := Max(cursor, e0.end);
      WellFormedTail(events);
      SweepOrdered(events[1..], c', dayEnd, minDuration);
      SweepStartsAfterCursor(events[1..], c', dayEnd, minDuration);
      var rest := Sweep(events[1..], c', dayEnd, minDuration);
      if e0.start - cursor >= minDuration {
        var x := Slot(cursor, e0.start, e0.start - cursor);
        OrderedCons(x, rest, c');
        assert Sweep(events, cursor, dayEnd, minDuration) == [x] + rest;
      } else {
        assert Sweep(events, cursor, dayEnd, minDuration) == rest;
      }
    }
  }

  /** With a positive minimum and events that end no earlier than they start, the
      slots come out in increasing order of start and are pairwise disjoint. */
  lemma SlotsOrderedAndDisjoint(events: seq<Event>, d: int, minDuration: int, wh: WorkingHours)
    requires minDuration > 0 && WellFormed(events)
    ensures Ordered(AvailableSlots(events, d, minDuration, wh))
  {
    var sorted := SortedDayEvents(events, d);
    SortedDayEventsMembers(events, d);
    assert WellFormed(sorted) by {
      forall i | 0 <= i < |sorted| ensures sorted[i].start <= sorted[i].end {
        assert sorted[i] in sorted;
      }
    }
    SweepOrdered(sorted, DayStart(d, wh), DayEnd(d, wh), minDuration);
  }

  /** Every slot starts no earlier than the working-hours start. */
  lemma SlotsStartInWindow(events: seq<Event>, d: int, minDuration: int, wh: WorkingHours)
    ensures forall s :: s in AvailableSlots(events, d, minDuration, wh) ==> DayStart(d, wh) <= s.start
  {
    SweepStartsAfterCursor(SortedDayEvents(events, d), DayStart(d, wh), DayEnd(d, wh), minDuration);
  }

  lemma {:induction false} SweepComplete(events: seq<Event>, cursor: int, dayEnd: int, minDuration: int, a: int, b: int)
    requires cursor <= a && b <= dayEnd && b - a >= minDuration
    requires forall e :: e in events ==> !Overlaps(Slot(a, b, b - a), e)
    ensures exists s :: s in Sweep(events, cursor, dayEnd, minDuration) && s.start <= a && b <= s.end
    decreases |events|
  {
    if events == [] {
      assert Slot(cursor, dayEnd, dayEnd - cursor) in Sweep(events, cursor, dayEnd, minDuration);
    } else {
      var e0 := events[0];
      if e0.start >= b {
        assert Slot(cursor, e0.start, e0.start - cursor) in Sweep(events, cursor, dayEnd, minDuration);
      } else {
        assert e0 in events;
        assert forall e :: e in events[1..] ==> e in events;
        SweepComplete(events[1..], Max(cursor, e0.end), dayEnd, minDuration, a, b);
        var s :| s in Sweep(events[1..], Max(cursor, e0.end), dayEnd, minDuration) && s.start <= a && b <= s.end;
        assert s in Sweep(events, cursor, dayEnd, minDuration);
      }
    }
  }

  /** Completeness: every free stretch of the working window that is long enough
      and overlaps none of the day's events lies inside some emitted slot. */
  lemma SlotsComplete(events: seq<Event>, d: int, minDuration: int, wh: WorkingHours, a: int, b: int)
    requires DayStart(d, wh) <= a && b <= DayEnd(d, wh) && b - a >= minDuration
    requires forall e :: e in events && Day(e.start) == d ==> !Overlaps(Slot(a, b, b - a), e)
    ensures exists s :: s in AvailableSlots(events, d, minDuration, wh) && s.start <= a && b <= s.end
  {
    var sorted := SortedDayEvents(events, d);
    SortedDayEventsMembers(events, d);
    SweepComplete(sorted, DayStart(d, wh), DayEnd(d, wh), minDuration, a, b);
  }

  /** A day without events yields the whole window, or nothing when the window is too short. */
  lemma {:induction false} NoEventsWholeWindow(events: seq<Event>, d: int, minDuration: int, wh: WorkingHours)
    requires forall e :: e in events ==> Day(e.start) != d
    ensures AvailableSlots(events, d, minDuration, wh)
         == if DayEnd(d, wh) - DayStart(d, wh) >= minDuration
            then [Slot(DayStart(d, wh), DayEnd(d, wh), DayEnd(d, wh) - DayStart(d, wh))]
            else []
  {
    NoDayEvents(events, d);
  }

  lemma {:induction false} NoDayEvents(events: seq<Event>, d: int)
    requires forall e :: e in events ==> Day(e.start) != d
    ensures DayEvents(events, d) == []
  {
    if events != [] {
      assert events[0] in events;
      NoDayEvents(events[1..], d);
    }
  }

  /** The window end is never applied to events: an event that starts after the
      working hours on the same day stretches the slot before it past `dayEnd`. */
  lemma LateEventStretchesSlot()
    ensures AvailableSlots([Event(None, AtHour(0, 21), AtHour(0, 22), None)], 0, 30, DefaultWorkingHours)
         == [Slot(AtHour(0, 8), AtHour(0, 21), 780)]
  {
    var e := Event(None, AtHour(0, 21), AtHour(0, 22), None);
    assert DayEvents([e], 0) == [e];
    assert SortedDayEvents([e], 0) == [e];
  }
}
