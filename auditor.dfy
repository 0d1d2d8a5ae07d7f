/** `suggestReorganization`: audits one day of the calendar for events at the
    same place scattered across the day and for long idle gaps. */
module Auditor {
  import opened Text
  import opened Calendar
  import Sorting

  datatype Improvement =
    | LocationClustering(location: string, eventCount: int, suggestion: Suggestion, potentialTimeSaved: int)
    | LargeGap(gap: int, between: seq<Option<string>>, suggestion: Suggestion)

  /** The advice attached to an improvement, kept as its message template and
      the values filled into it; `SuggestionText` renders the text. */
  datatype Suggestion =
    | GroupTrips(count: int, location: string)
    | FillGap(gapMinutes: int)

  /** The template literals of `suggestReorganization`; a gap is shown in
      whole hours (`Math.floor(gapMinutes / 60)`). */
  function SuggestionText(s: Suggestion): string {
    match s
    case GroupTrips(count, loc) =>
      "Consider grouping " + IntToString(count) + " events at " + loc + " closer together to minimize multiple trips"
    case FillGap(gap) =>
      IntToString(gap / 60) + " hour gap between events - consider filling with a task or consolidating schedule"
  }

  /** The audit of a day: nothing to audit, or the list of improvements found. */
  datatype Audit =
    | NoEvents(hasImprovements: bool, message: string)
    | Report(hasImprovements: bool, improvements: seq<Improvement>, totalEvents: int, message: string)

  const MaxHourSpread: int := 4
  const MinutesSavedPerHourOfSpread: int := 15
  const LargeGapMinutes: int := 120

  // ----- location groups, as the `locationGroups` object builds them -----

  /** The distinct non-empty locations of `s`, in order of first appearance
      (the key order of the `locationGroups` object). */
  function Locations(s: seq<Event>): seq<string>
    decreases |s|
  {
    if s == [] then []
    else
      var keys := Locations(s[..|s| - 1]);
      var e := s[|s| - 1];
      if Present(e.location) && e.location.value !in keys then keys + [e.location.value] else keys
  }

  /** The events of `s` held at `loc`, in order. */
  function AtLocation(s: seq<Event>, loc: string): seq<Event>
    decreases |s|
  {
    if s == [] then []
    else AtLocation(s[..|s| - 1], loc) + (if s[|s| - 1].location == Some(loc) then [s[|s| - 1]] else [])
  }

  lemma {:induction false} LocationsMembers(s: seq<Event>)
    ensures forall loc :: loc in Locations(s) <==> loc != "" && exists e :: e in s && e.location == Some(loc)
    ensures forall i, j :: 0 <= i < j < |Locations(s)| ==> Locations(s)[i] != Locations(s)[j]
    decreases |s|
  {
    if s != [] {
      var p := s[..|s| - 1];
      LocationsMembers(p);
      assert forall e :: e in s <==> e in p || e == s[|s| - 1] by {
        assert s == p + [s[|s| - 1]];
      }
    }
  }

  lemma {:induction false} AtLocationMembers(s: seq<Event>, loc: string)
    ensures forall e :: e in AtLocation(s, loc) <==> e in s && e.location == Some(loc)
    decreases |s|
  {
    if s != [] {
      var p := s[..|s| - 1];
      AtLocationMembers(p, loc);
      assert forall e :: e in s <==> e in p || e == s[|s| - 1] by {
        assert s == p + [s[|s| - 1]];
      }
    }
  }

  lemma {:induction false} AtLocationAbsent(s: seq<Event>, loc: string)
    requires loc != "" && loc !in Locations(s)
    ensures AtLocation(s, loc) == []
    decreases |s|
  {
    if s != [] {
      AtLocationAbsent(s[..|s| - 1], loc);
    }
  }

  /** `Math.max(...times)` over the start hours of a non-empty group. */
  function MaxHour(g: seq<Event>): (h: int)
    requires g != []
    ensures forall e :: e in g ==> HourOf(e.start) <= h
    ensures exists e :: e in g && HourOf(e.start) == h
  {
    if |g| == 1 then HourOf(g[0].start)
    else
      var m := MaxHour(g[1..]);
      assert forall e :: e in g ==> e == g[0] || e in g[1..];
      if HourOf(g[0].start) >= m then HourOf(g[0].start) else m
  }

  /** `Math.min(...times)` over the start hours of a non-empty group. */
  function MinHour(g: seq<Event>): (h: int)
    requires g != []
    ensures forall e :: e in g ==> h <= HourOf(e.start)
    ensures exists e :: e in g && HourOf(e.start) == h
  {
    if |g| == 1 then HourOf(g[0].start)
    else
      var m := MinHour(g[1..]);
      assert forall e :: e in g ==> e == g[0] || e in g[1..];
      if HourOf(g[0].start) <= m then HourOf(g[0].start) else m
  }

  /** The hours between the earliest and the latest start of the group. */
  function Spread(g: seq<Event>): int
    requires g != []
  {
    MaxHour(g) - MinHour(g)
  }

  /** The clustering entry for one location, when it has two or more events
      whose start hours lie more than four hours apart. */
  function ClusterFor(s: seq<Event>, loc: string): seq<Improvement> {
    var g := AtLocation(s, loc);
    if |g| >= 2 && Spread(g) > MaxHourSpread
    then [LocationClustering(loc, |g|, GroupTrips(|g|, loc), Spread(g) * MinutesSavedPerHourOfSpread)]
    else []
  }

  /** The clustering entries for `keys`, in key order. */
  function Clusters(s: seq<Event>, keys: seq<string>): seq<Improvement>
    decreases |keys|
  {
    if keys == [] then []
    else Clusters(s, keys[..|keys| - 1]) + ClusterFor(s, keys[|keys| - 1])
  }

  lemma {:induction false} ClustersMembers(s: seq<Event>, keys: seq<string>)
    ensures forall imp :: imp in Clusters(s, keys) <==> exists k :: k in keys && imp in ClusterFor(s, k)
    decreases |keys|
  {
    if keys != [] {
      var p := keys[..|keys| - 1];
      ClustersMembers(s, p);
      assert forall k :: k in keys <==> k in p || k == keys[|keys| - 1] by {
        assert keys == p + [keys[|keys| - 1]];
      }
    }
  }

  /** What an entry for `k` says about the events held at `k`. */
  lemma ClusterForEntry(s: seq<Event>, k: string, imp: Improvement)
    requires imp in ClusterFor(s, k)
    ensures imp.LocationClustering? && imp.location == k
    ensures |AtLocation(s, k)| >= 2 && Spread(AtLocation(s, k)) > MaxHourSpread
    ensures imp.eventCount == |AtLocation(s, k)|
    ensures imp.potentialTimeSaved == Spread(AtLocation(s, k)) * MinutesSavedPerHourOfSpread
  {
  }

  /** Every entry of the clustering list is the entry of one of the day's locations. */
  lemma InClusters(s: seq<Event>, imp: Improvement)
    requires imp in Clusters(s, Locations(s))
    ensures imp.LocationClustering? && imp.location in Locations(s)
    ensures imp in ClusterFor(s, imp.location)
  {
    ClustersMembers(s, Locations(s));
    var k :| k in Locations(s) && imp in ClusterFor(s, k);
    ClusterForEntry(s, k, imp);
  }

  /** A location gets a clustering entry exactly when two or more of the day's
      events are held there and their start hours are more than four hours
      apart; the entry counts those events and estimates 15 minutes saved per
      hour of spread. A location with a single event never clusters. */
  lemma ClusteringIff(s: seq<Event>, loc: string)
    ensures (exists imp :: imp in Clusters(s, Locations(s)) && imp.LocationClustering? && imp.location == loc)
        <==> (loc != "" && |AtLocation(s, loc)| >= 2 && Spread(AtLocation(s, loc)) > MaxHourSpread)
    ensures forall imp :: imp in Clusters(s, Locations(s)) ==>
              imp.LocationClustering? && imp.location != "" && AtLocation(s, imp.location) != []
              && imp.eventCount == |AtLocation(s, imp.location)| >= 2
              && imp.potentialTimeSaved == Spread(AtLocation(s, imp.location)) * MinutesSavedPerHourOfSpread
              && Spread(AtLocation(s, imp.location)) > MaxHourSpread
  {
    LocationsMembers(s);
    forall imp | imp in Clusters(s, Locations(s))
      ensures imp.LocationClustering? && imp.location != "" && AtLocation(s, imp.location) != []
              && imp.eventCount == |AtLocation(s, imp.location)| >= 2
              && imp.potentialTimeSaved == Spread(AtLocation(s, imp.location)) * MinutesSavedPerHourOfSpread
              && Spread(AtLocation(s, imp.location)) > MaxHourSpread
    {
      InClusters(s, imp);
      ClusterForEntry(s, imp.location, imp);
    }
    if loc != "" && |AtLocation(s, loc)| >= 2 && Spread(AtLocation(s, loc)) > MaxHourSpread {
      AtLocationMembers(s, loc);
      var g := AtLocation(s, loc);
      assert g[0] in g;
      assert loc in Locations(s);
      var imp := ClusterFor(s, loc)[0];
      ClustersMembers(s, Locations(s));
      assert imp in Clusters(s, Locations(s)) && imp.location == loc;
    }
  }

  // ----- long gaps -----

  /** Minutes between the end of the `i`-th event and the start of the next one. */
  function GapAt(sorted: seq<Event>, i: int): int
    requires 0 <= i < |sorted| - 1
  {
    sorted[i + 1].start - sorted[i].end
  }

  /** The entry for a gap of `gap` minutes between `before` and `after`. */
  function GapImprovement(gap: int, before: Event, after: Event): Improvement {
    LargeGap(gap, [before.summary, after.summary], FillGap(gap))
  }

  function GapEntry(sorted: seq<Event>, i: int): seq<Improvement>
    requires 0 <= i < |sorted| - 1
  {
    var gap := GapAt(sorted, i);
    if gap > LargeGapMinutes then [GapImprovement(gap, sorted[i], sorted[i + 1])] else []
  }

  /** The gap entries for the first `n` consecutive pairs. */
  function Gaps(sorted: seq<Event>, n: nat): seq<Improvement>
    requires n <= |sorted| - 1 || n == 0
  {
    if n == 0 then [] else Gaps(sorted, n - 1) + GapEntry(sorted, n - 1)
  }

  /** A gap entry is produced exactly for each pair of consecutive events (in
      start order) separated by more than two hours, naming both events. */
  lemma {:induction false} GapsIff(sorted: seq<Event>, n: nat)
    requires n <= |sorted| - 1 || n == 0
    ensures forall imp :: imp in Gaps(sorted, n) <==>
              exists i :: 0 <= i < n && GapAt(sorted, i) > LargeGapMinutes
                          && imp == LargeGap(GapAt(sorted, i), [sorted[i].summary, sorted[i + 1].summary], FillGap(GapAt(sorted, i)))
  {
    if n > 0 {
      GapsIff(sorted, n - 1);
    }
  }

  // ----- the audit -----

  function ReportMessage(count: int): string {
    if count > 0 then "Found " + IntToString(count) + " optimization opportunity(ies)"
    else "Schedule looks well optimized"
  }

  /** What `suggestReorganization(events, date)` returns for the day `d`. */
  function Reorganization(events: seq<Event>, d: int): Audit {
    var dayEvents := DayEvents(events, d);
    if dayEvents == [] then NoEvents(false, "No events scheduled for this day")
    else
      var sorted := Sorting.SortBy(dayEvents, StartOf);
      var improvements := Clusters(dayEvents, Locations(dayEvents)) + Gaps(sorted, |sorted| - 1);
      Report(|improvements| > 0, improvements, |dayEvents|, ReportMessage(|improvements|))
  }

  /** The audited day is the target date when one is given, today otherwise. */
  function AuditedDay(target: Option<int>, now: int): int {
    if target.Some? then Day(target.value) else Day(now)
  }

  /** A day without events has nothing to improve; otherwise the report counts
      the day's events, and `hasImprovements` holds exactly when the list of
      improvements is non-empty. */
  lemma AuditFacts(events: seq<Event>, d: int)
    ensures Reorganization(events, d).NoEvents? <==> forall e :: e in events ==> Day(e.start) != d
    ensures Reorganization(events, d).hasImprovements
            <==> Reorganization(events, d).Report? && |Reorganization(events, d).improvements| > 0
    ensures Reorganization(events, d).Report? ==>
              Reorganization(events, d).totalEvents == |DayEvents(events, d)| > 0
  {
    DayEventsMembers(events, d);
    var de := DayEvents(events, d);
    if de != [] {
      assert de[0] in de;
    }
  }

  /** The `suggestReorganization` body: group the day's events by location,
      report scattered groups, then sort the day's events by start and report
      long gaps between neighbours. */
  method SuggestReorganization(events: seq<Event>, target: Option<int>, now: int) returns (audit: Audit)
    ensures audit == Reorganization(events, AuditedDay(target, now))
  {
    var d := AuditedDay(target, now);
    var dayEvents := DayEvents(events, d);
    if dayEvents == [] {
      return NoEvents(false, "No events scheduled for this day");
    }
    var groups, keys := GroupByLocation(dayEvents);
    var clusters := ScatteredGroups(dayEvents, groups, keys);
    var sorted := Sorting.SortBy(dayEvents, StartOf);
    var gaps := LongGaps(sorted);
    var improvements := clusters + gaps;
    audit := Report(|improvements| > 0, improvements, |dayEvents|, ReportMessage(|improvements|));
  }

  /** The `for ... of Object.entries(locationGroups)` loop. */
  method ScatteredGroups(dayEvents: seq<Event>, groups: map<string, seq<Event>>, keys: seq<string>)
    returns (improvements: seq<Improvement>)
    requires forall k :: k in keys ==> k in groups && groups[k] == AtLocation(dayEvents, k)
    ensures improvements == Clusters(dayEvents, keys)
  {
    improvements := [];
    var j := 0;
    while j < |keys|
      invariant 0 <= j <= |keys|
      invariant improvements == Clusters(dayEvents, keys[..j])
    {
      var loc := keys[j];
      var eventsAtLocation := groups[loc];
      assert keys[..j + 1][..j] == keys[..j];
      assert Clusters(dayEvents, keys[..j + 1]) == improvements + ClusterFor(dayEvents, loc);
      if |eventsAtLocation| >= 2 {
        var timeSpread := Spread(eventsAtLocation);
        if timeSpread > MaxHourSpread {
          improvements := improvements + [LocationClustering(loc, |eventsAtLocation|,
                                           GroupTrips(|eventsAtLocation|, loc),
                                           timeSpread * MinutesSavedPerHourOfSpread)];
        }
      }
      j := j + 1;
    }
    assert keys[..j] == keys;
  }

  /** The index loop over consecutive pairs of the start-sorted day. */
  method LongGaps(sorted: seq<Event>) returns (improvements: seq<Improvement>)
    ensures improvements == Gaps(sorted, if |sorted| == 0 then 0 else |sorted| - 1)
  {
    improvements := [];
    ghost var pairs := if |sorted| == 0 then 0 else |sorted| - 1;
    var i := 0;
    while i < |sorted| - 1
      invariant 0 <= i <= pairs
      invariant improvements == Gaps(sorted, i)
    {
      GapsStep(sorted, i);
      var gapMinutes := sorted[i + 1].start - sorted[i].end;
      assert gapMinutes == GapAt(sorted, i);
      if gapMinutes > LargeGapMinutes {
        improvements := improvements + [GapImprovement(gapMinutes, sorted[i], sorted[i + 1])];
      }
      assert improvements == Gaps(sorted, i + 1);
      i := i + 1;
    }
    assert i == pairs;
  }

  lemma GapsStep(sorted: seq<Event>, i: nat)
    requires i < |sorted| - 1
    ensures Gaps(sorted, i + 1) == Gaps(sorted, i) + GapEntry(sorted, i)
    ensures GapAt(sorted, i) > LargeGapMinutes ==>
              GapEntry(sorted, i) == [GapImprovement(GapAt(sorted, i), sorted[i], sorted[i + 1])]
    ensures GapAt(sorted, i) <= LargeGapMinutes ==> GapEntry(sorted, i) == []
  {
  }

  /** The `dayEvents.forEach` that fills `locationGroups`: `keys` is the key
      order of the object and `groups` its contents. */
  method GroupByLocation(dayEvents: seq<Event>) returns (groups: map<string, seq<Event>>, keys: seq<string>)
    ensures keys == Locations(dayEvents)
    ensures forall k :: k in groups <==> k in keys
    ensures forall k :: k in keys ==> groups[k] == AtLocation(dayEvents, k)
  {
    groups := map[];
    keys := [];
    var i := 0;
    while i < |dayEvents|
      invariant 0 <= i <= |dayEvents|
      invariant keys == Locations(dayEvents[..i])
      invariant forall k :: k in groups <==> k in keys
      invariant forall k :: k in keys ==> k != "" && groups[k] == AtLocation(dayEvents[..i], k)
    {
      var e := dayEvents[i];
      assert dayEvents[..i + 1][..i] == dayEvents[..i];
      if Present(e.location) {
        var loc := e.location.value;
        if loc !in groups {
          AtLocationAbsent(dayEvents[..i], loc);
          groups := groups[loc := []];
          keys := keys + [loc];
        }
        groups := groups[loc := groups[loc] + [e]];
      }
      forall k | k in keys ensures k != "" && groups[k] == AtLocation(dayEvents[..i + 1], k) {
        assert AtLocation(dayEvents[..i + 1], k)
            == AtLocation(dayEvents[..i], k) + (if e.location == Some(k) then [e] else []);
      }
      i := i + 1;
    }
    assert dayEvents[..i] == dayEvents;
  }
}
