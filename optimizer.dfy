/** `optimizeSchedule` and its helpers: for each task, search the coming days
    for free slots, score each one against the task and its neighbouring
    events, keep the three best, add travel-time estimates to those, and
    explain the choice. The travel-time estimator is a parameter. */
module Optimizer {
  import opened Text
  import opened Calendar
  import opened SlotFinder
  import opened SlotScorer
  import Sorting

  // ----- estimateCommuteTime -----

  /** What the travel-time estimator gives back: it failed (the call threw or
      its reply did not parse), or it replied with a `minutes` field that may be
      missing, null or 0. */
  datatype Estimate = Failed | Replied(minutes: Option<int>)

  const FallbackCommuteMinutes: int := 30

  /** Minutes of travel from one place to another by `mode`. */
  function EstimateCommuteTime(from: Option<string>, to: Option<string>, mode: string,
                               estimator: (string, string, string) -> Estimate): int
  {
    if !Present(from) || !Present(to) then 0
    else if ToLower(from.value) == ToLower(to.value) then 0
    else match estimator(from.value, to.value, mode)
      case Failed => FallbackCommuteMinutes
      case Replied(minutes) => OrDefault(minutes, 0)
  }

  /** A missing place, or two names of one place that differ only in case, cost
      no travel, and the estimator is not consulted: any two estimators agree. */
  lemma CommuteWithoutEstimate(from: Option<string>, to: Option<string>, mode: string,
                               e1: (string, string, string) -> Estimate, e2: (string, string, string) -> Estimate)
    requires !Present(from) || !Present(to) || ToLower(from.value) == ToLower(to.value)
    ensures EstimateCommuteTime(from, to, mode, e1) == EstimateCommuteTime(from, to, mode, e2) == 0
  {
  }

  /** Travel between two different places falls back to 30 minutes when the
      estimator fails, and to 0 when it replies without a usable number. */
  lemma CommuteFallbacks(from: string, to: string, mode: string, estimator: (string, string, string) -> Estimate)
    requires from != "" && to != "" && ToLower(from) != ToLower(to)
    ensures estimator(from, to, mode).Failed? ==> EstimateCommuteTime(Some(from), Some(to), mode, estimator) == 30
    ensures estimator(from, to, mode) == Replied(None) ==> EstimateCommuteTime(Some(from), Some(to), mode, estimator) == 0
    ensures estimator(from, to, mode) == Replied(Some(0)) ==> EstimateCommuteTime(Some(from), Some(to), mode, estimator) == 0
  {
  }

  // ----- neighbouring events -----

  function EndOf(e: Event): int { e.end }

  /** Sort key for latest end first. */
  function NegEnd(e: Event): int { -e.end }

  /** The events (of any day) that end no later than `t`, in input order. */
  function EndingBy(events: seq<Event>, t: int): (r: seq<Event>)
    ensures forall e :: e in r <==> e in events && e.end <= t
  {
    if events == [] then []
    else (if events[0].end <= t then [events[0]] else []) + EndingBy(events[1..], t)
  }

  /** The events (of any day) that start no earlier than `t`, in input order. */
  function StartingFrom(events: seq<Event>, t: int): (r: seq<Event>)
    ensures forall e :: e in r <==> e in events && t <= e.start
  {
    if events == [] then []
    else (if t <= events[0].start then [events[0]] else []) + StartingFrom(events[1..], t)
  }

  /** The location of the first event after sorting those that end by `t`
      latest-end first. */
  function PreviousLocation(events: seq<Event>, t: int): Option<string> {
    var before := EndingBy(events, t);
    if before == [] then None else Sorting.SortBy(before, NegEnd)[0].location
  }

  /** The location of the first event after sorting those that start at `t` or
      later earliest-start first. */
  function NextLocation(events: seq<Event>, t: int): Option<string> {
    var after := StartingFrom(events, t);
    if after == [] then None else Sorting.SortBy(after, StartOf)[0].location
  }

  /** The previous location comes from the event that ends latest among all
      events (not only the day's) ending by `t`; among several ending at that
      same instant, from the first of them in input order. */
  lemma PreviousLocationIsLatest(events: seq<Event>, t: int)
    ensures EndingBy(events, t) == [] ==> PreviousLocation(events, t).None?
    ensures EndingBy(events, t) != [] ==>
              exists i :: 0 <= i < |EndingBy(events, t)|
                && EndingBy(events, t)[i].location == PreviousLocation(events, t)
                && (forall e :: e in events && e.end <= t ==> e.end <= EndingBy(events, t)[i].end)
                && (forall j :: 0 <= j < i ==> EndingBy(events, t)[j].end < EndingBy(events, t)[i].end)
  {
    var before := EndingBy(events, t);
    if before != [] {
      Sorting.SortByHead(before, NegEnd);
      Sorting.FirstMinIsFirstMinimal(before, NegEnd);
      var i :| 0 <= i < |before| && before[i] == Sorting.FirstMin(before, NegEnd)
               && forall j :: 0 <= j < i ==> NegEnd(before[j]) > NegEnd(before[i]);
      forall e | e in events && e.end <= t ensures e.end <= before[i].end {
        assert NegEnd(before[i]) <= NegEnd(e);
      }
      forall j | 0 <= j < i ensures before[j].end < before[i].end {
        assert NegEnd(before[j]) > NegEnd(before[i]);
      }
    }
  }

  /** The next location comes from the event that starts earliest among all
      events starting at `t` or later; among ties, the first in input order. */
  lemma NextLocationIsEarliest(events: seq<Event>, t: int)
    ensures StartingFrom(events, t) == [] ==> NextLocation(events, t).None?
    ensures StartingFrom(events, t) != [] ==>
              exists i :: 0 <= i < |StartingFrom(events, t)|
                && StartingFrom(events, t)[i].location == NextLocation(events, t)
                && (forall e :: e in events && t <= e.start ==> StartingFrom(events, t)[i].start <= e.start)
                && (forall j :: 0 <= j < i ==> StartingFrom(events, t)[i].start < StartingFrom(events, t)[j].start)
  {
    var after := StartingFrom(events, t);
    if after != [] {
      Sorting.SortByHead(after, StartOf);
      Sorting.FirstMinIsFirstMinimal(after, StartOf);
      var i :| 0 <= i < |after| && after[i] == Sorting.FirstMin(after, StartOf)
               && forall j :: 0 <= j < i ==> StartOf(after[j]) > StartOf(after[i]);
      forall e | e in events && t <= e.start ensures after[i].start <= e.start {
        assert StartOf(after[i]) <= StartOf(e);
      }
    }
  }

  // ----- candidates -----

  /** A scored candidate slot; the commute fields start at 0. */
  datatype ScoredSlot = ScoredSlot(
    slot: Slot,
    score: int,
    day: int,
    previousLocation: Option<string>,
    nextLocation: Option<string>,
    commuteTimeBefore: int,
    commuteTimeAfter: int)

  datatype Options = Options(searchDays: int, workingHours: WorkingHours, includeWeekends: bool, minimizeCommute: bool)

  const DefaultOptions: Options := Options(7, DefaultWorkingHours, true, true)

  /** The `options` object as passed in; a missing field takes its default. */
  datatype OptionsInput = OptionsInput(
    searchDays: Option<int>,
    workingHours: Option<WorkingHours>,
    includeWeekends: Option<bool>,
    minimizeCommute: Option<bool>)

  const NoOptions: OptionsInput := OptionsInput(None, None, None, None)

  /** The destructuring with defaults at the top of `optimizeSchedule`. */
  function ResolveOptions(input: OptionsInput): (opts: Options)
    ensures input == NoOptions ==> opts == DefaultOptions
    ensures input.searchDays.Some? ==> opts.searchDays == input.searchDays.value
    ensures input.searchDays.None? ==> opts.searchDays == 7
    ensures input.workingHours.Some? ==> opts.workingHours == input.workingHours.value
    ensures input.workingHours.None? ==> opts.workingHours == DefaultWorkingHours
    ensures input.includeWeekends.Some? ==> opts.includeWeekends == input.includeWeekends.value
    ensures input.includeWeekends.None? ==> opts.includeWeekends
    ensures input.minimizeCommute.Some? ==> opts.minimizeCommute == input.minimizeCommute.value
    ensures input.minimizeCommute.None? ==> opts.minimizeCommute
  {
    Options(
      if input.searchDays.Some? then input.searchDays.value else DefaultOptions.searchDays,
      if input.workingHours.Some? then input.workingHours.value else DefaultOptions.workingHours,
      if input.includeWeekends.Some? then input.includeWeekends.value else DefaultOptions.includeWeekends,
      if input.minimizeCommute.Some? then input.minimizeCommute.value else DefaultOptions.minimizeCommute)
  }

  /** Neighbouring locations are looked up, and commutes estimated, only when
      commute minimisation is on and the task has a location. */
  predicate UsesNeighbours(task: Task, opts: Options) {
    opts.minimizeCommute && Present(task.location)
  }

  /** Days the search passes over: Sundays and Saturdays when weekends are excluded. */
  predicate Skipped(opts: Options, d: int) {
    !opts.includeWeekends && (Weekday(d) == 0 || Weekday(d) == 6)
  }

  function SearchDays(opts: Options): nat {
    if opts.searchDays < 0 then 0 else opts.searchDays
  }

  function ScoreCandidate(events: seq<Event>, task: Task, opts: Options, d: int, slot: Slot): ScoredSlot {
    var near := UsesNeighbours(task, opts);
    var previous := if near then PreviousLocation(events, slot.start) else None;
    var next := if near then NextLocation(events, slot.end) else None;
    ScoredSlot(slot, ScoreTimeSlot(slot, task, previous, next), d, previous, next, 0, 0)
  }

  /** The given slots of day `d`, each scored, in the same order. */
  function ScoreAll(events: seq<Event>, task: Task, opts: Options, d: int, slots: seq<Slot>): (r: seq<ScoredSlot>)
    ensures |r| == |slots|
  {
    seq(|slots|, k requires 0 <= k < |slots| => ScoreCandidate(events, task, opts, d, slots[k]))
  }

  /** The scored free slots of day `d`, in the order the sweep finds them. */
  function DayCandidates(events: seq<Event>, task: Task, opts: Options, d: int): seq<ScoredSlot> {
    if Skipped(opts, d) then []
    else ScoreAll(events, task, opts, d, AvailableSlots(events, d, TaskDuration(task), opts.workingHours))
  }

  /** The candidates of the first `n` days from `today`, day by day. */
  function Candidates(events: seq<Event>, task: Task, opts: Options, today: int, n: nat): seq<ScoredSlot> {
    if n == 0 then []
    else Candidates(events, task, opts, today, n - 1) + DayCandidates(events, task, opts, today + n - 1)
  }

  /** A candidate is a free slot of a searched, non-skipped day, long enough for
      the task, scored against the task and the neighbours it records, with no
      commute yet; neighbours are recorded only when they are looked up. */
  predicate WellScored(c: ScoredSlot, events: seq<Event>, task: Task, opts: Options) {
    && !Skipped(opts, c.day)
    && c.slot in AvailableSlots(events, c.day, TaskDuration(task), opts.workingHours)
    && c.slot.duration >= TaskDuration(task)
    && c.score == ScoreTimeSlot(c.slot, task, c.previousLocation, c.nextLocation)
    && MinScore <= c.score <= MaxScore
    && (!UsesNeighbours(task, opts) ==> c.previousLocation.None? && c.nextLocation.None?)
  }

  lemma DayCandidatesWellScored(events: seq<Event>, task: Task, opts: Options, d: int)
    ensures forall c :: c in DayCandidates(events, task, opts, d) ==> c.day == d && WellScored(c, events, task, opts)
                                                                      && c.commuteTimeBefore == 0 && c.commuteTimeAfter == 0
  {
    if !Skipped(opts, d) {
      var slots := AvailableSlots(events, d, TaskDuration(task), opts.workingHours);
      SlotsLongEnough(events, d, TaskDuration(task), opts.workingHours);
      forall c | c in DayCandidates(events, task, opts, d)
        ensures c.day == d && WellScored(c, events, task, opts) && c.commuteTimeBefore == 0 && c.commuteTimeAfter == 0
      {
        var k :| 0 <= k < |slots| && ScoreAll(events, task, opts, d, slots)[k] == c;
        assert c == ScoreCandidate(events, task, opts, d, slots[k]);
        assert slots[k] in slots;
      }
    }
  }

  /** Every candidate of an `n`-day search is well scored, lies on one of the
      days `today .. today + n - 1`, and has no commute yet. */
  lemma {:induction false} CandidatesWellScored(events: seq<Event>, task: Task, opts: Options, today: int, n: nat)
    ensures forall c :: c in Candidates(events, task, opts, today, n) ==>
              today <= c.day < today + n && WellScored(c, events, task, opts)
              && c.commuteTimeBefore == 0 && c.commuteTimeAfter == 0
  {
    if n > 0 {
      var earlier := Candidates(events, task, opts, today, n - 1);
      var last := DayCandidates(events, task, opts, today + n - 1);
      CandidatesWellScored(events, task, opts, today, n - 1);
      DayCandidatesWellScored(events, task, opts, today + n - 1);
      forall c: ScoredSlot | c in earlier + last
        ensures today <= c.day < today + n && WellScored(c, events, task, opts)
                && c.commuteTimeBefore == 0 && c.commuteTimeAfter == 0
      {
        if c in earlier {
          assert today <= c.day < today + n - 1 && WellScored(c, events, task, opts);
        } else {
          assert c in last;
        }
      }
    }
  }

  /** `findAvailableSlots` is asked for the task's own length, so every
      candidate is at least `duration || 30` minutes long; on a search that
      leaves out weekends no candidate falls on a Saturday or Sunday. */
  lemma CandidatesRespectOptions(events: seq<Event>, task: Task, opts: Options, today: int, c: ScoredSlot)
    requires c in Candidates(events, task, opts, today, SearchDays(opts))
    ensures c.slot.duration >= TaskDuration(task)
    ensures !opts.includeWeekends ==> Weekday(c.day) != 0 && Weekday(c.day) != 6
    ensures today <= c.day < today + opts.searchDays
  {
    CandidatesWellScored(events, task, opts, today, SearchDays(opts));
  }

  /** The day loop of `optimizeSchedule` for one task, pushing every scored
      slot of every searched day into `bestSlots`. */
  method SlotCandidates(events: seq<Event>, task: Task, opts: Options, today: int)
    returns (bestSlots: seq<ScoredSlot>)
    ensures bestSlots == Candidates(events, task, opts, today, SearchDays(opts))
  {
    bestSlots := [];
    var dayOffset: nat := 0;
    while dayOffset < opts.searchDays
      invariant dayOffset <= SearchDays(opts)
      invariant bestSlots == Candidates(events, task, opts, today, dayOffset)
    {
      var d := today + dayOffset;
      CandidatesStep(events, task, opts, today, dayOffset);
      if !Skipped(opts, d) {
        var scored := ScoreDay(events, task, opts, d);
        bestSlots := bestSlots + scored;
      }
      dayOffset := dayOffset + 1;
    }
    assert dayOffset == SearchDays(opts);
  }

  lemma CandidatesStep(events: seq<Event>, task: Task, opts: Options, today: int, n: nat)
    ensures Candidates(events, task, opts, today, n + 1)
         == Candidates(events, task, opts, today, n) + DayCandidates(events, task, opts, today + n)
    ensures Skipped(opts, today + n) ==>
              Candidates(events, task, opts, today, n + 1) == Candidates(events, task, opts, today, n)
  {
  }

  /** The body of the day loop for a searched day: find the free slots of the
      day that fit the task and score each of them. */
  method ScoreDay(events: seq<Event>, task: Task, opts: Options, d: int) returns (scored: seq<ScoredSlot>)
    requires !Skipped(opts, d)
    ensures scored == DayCandidates(events, task, opts, d)
  {
    var taskDuration := TaskDuration(task);
    var available := FindAvailableSlots(events, d, taskDuration, opts.workingHours);
    scored := ScoreSlots(events, task, opts, d, available);
  }

  /** The slot loop of `optimizeSchedule`: each free slot of the day, scored. */
  method ScoreSlots(events: seq<Event>, task: Task, opts: Options, d: int, available: seq<Slot>)
    returns (scored: seq<ScoredSlot>)
    ensures scored == ScoreAll(events, task, opts, d, available)
  {
    scored := [];
    var k := 0;
    while k < |available|
      invariant 0 <= k <= |available| && |scored| == k
      invariant forall j :: 0 <= j < k ==> scored[j] == ScoreCandidate(events, task, opts, d, available[j])
    {
      scored := scored + [ScoreCandidate(events, task, opts, d, available[k])];
      k := k + 1;
    }
  }

  // ----- ranking -----

  const MaxSuggestions: int := 3

  /** Sort key for highest score first. */
  function NegScore(s: ScoredSlot): int { -s.score }

  /** `bestSlots.sort((a, b) => b.score - a.score).slice(0, 3)`. */
  function TopSlots(candidates: seq<ScoredSlot>): (top: seq<ScoredSlot>)
    ensures |top| == if |candidates| < MaxSuggestions then |candidates| else MaxSuggestions
  {
    var ranked := Sorting.SortBy(candidates, NegScore);
    ranked[..if |ranked| < MaxSuggestions then |ranked| else MaxSuggestions]
  }

  /** The kept slots are candidates, in non-increasing order of score, and no
      candidate left out scores higher than any kept one. */
  lemma TopSlotsAreBest(candidates: seq<ScoredSlot>)
    ensures forall x :: x in TopSlots(candidates) ==> x in candidates
    ensures forall i, j :: 0 <= i < j < |TopSlots(candidates)| ==> TopSlots(candidates)[i].score >= TopSlots(candidates)[j].score
    ensures forall c, x :: c in candidates && c !in TopSlots(candidates) && x in TopSlots(candidates) ==> c.score <= x.score
  {
    var ranked := Sorting.SortBy(candidates, NegScore);
    var top := TopSlots(candidates);
    Sorting.SortBySorted(candidates, NegScore);
    forall x | x in top ensures x in candidates {
      assert x in multiset(ranked);
    }
    forall i, j | 0 <= i < j < |top| ensures top[i].score >= top[j].score {
      assert NegScore(ranked[i]) <= NegScore(ranked[j]);
    }
    forall c, x | c in candidates && c !in top && x in top ensures c.score <= x.score {
      assert c in multiset(ranked);
      var k :| 0 <= k < |ranked| && ranked[k] == c;
      var i :| 0 <= i < |top| && top[i] == x;
      assert k >= |top|;
      assert NegScore(ranked[i]) <= NegScore(ranked[k]);
    }
  }

  /** Candidates with equal scores keep the order in which they were found. */
  lemma TiesKeepDiscoveryOrder(candidates: seq<ScoredSlot>, score: int)
    ensures Sorting.WithKey(Sorting.SortBy(candidates, NegScore), NegScore, -score)
         == Sorting.WithKey(candidates, NegScore, -score)
  {
    Sorting.SortByStable(candidates, NegScore, -score);
  }

  // ----- commute enrichment -----

  /** `task.travelMode || 'driving'`. */
  function TravelMode(task: Task): string {
    if Present(task.travelMode) then task.travelMode.value else "driving"
  }

  function WithCommute(s: ScoredSlot, task: Task, estimator: (string, string, string) -> Estimate): ScoredSlot {
    s.(commuteTimeBefore :=
         if Present(s.previousLocation)
         then EstimateCommuteTime(s.previousLocation, task.location, TravelMode(task), estimator)
         else s.commuteTimeBefore,
       commuteTimeAfter :=
         if Present(s.nextLocation)
         then EstimateCommuteTime(task.location, s.nextLocation, TravelMode(task), estimator)
         else s.commuteTimeAfter)
  }

  /** The kept slots after the commute estimates have been filled in. */
  function Enriched(top: seq<ScoredSlot>, task: Task, opts: Options, estimator: (string, string, string) -> Estimate): seq<ScoredSlot> {
    if UsesNeighbours(task, opts)
    then seq(|top|, k requires 0 <= k < |top| => WithCommute(top[k], task, estimator))
    else top
  }

  /** The loop over the kept slots that sets their commute fields in place. */
  method AddCommuteTimes(top: seq<ScoredSlot>, task: Task, opts: Options, estimator: (string, string, string) -> Estimate)
    returns (slots: seq<ScoredSlot>)
    ensures slots == Enriched(top, task, opts, estimator)
  {
    slots := top;
    if UsesNeighbours(task, opts) {
      var mode := TravelMode(task);
      var k := 0;
      while k < |slots|
        invariant 0 <= k <= |slots| == |top|
        invariant forall j :: 0 <= j < k ==> slots[j] == WithCommute(top[j], task, estimator)
        invariant forall j :: k <= j < |slots| ==> slots[j] == top[j]
      {
        var s := slots[k];
        if Present(s.previousLocation) {
          s := s.(commuteTimeBefore := EstimateCommuteTime(s.previousLocation, task.location, mode, estimator));
        }
        if Present(s.nextLocation) {
          s := s.(commuteTimeAfter := EstimateCommuteTime(task.location, s.nextLocation, mode, estimator));
        }
        slots := slots[k := s];
        k := k + 1;
      }
    }
  }

  /** Enrichment changes only the commute fields; without neighbour lookup it changes nothing. */
  lemma EnrichedKeepsChoice(top: seq<ScoredSlot>, task: Task, opts: Options, estimator: (string, string, string) -> Estimate)
    ensures |Enriched(top, task, opts, estimator)| == |top|
    ensures forall k :: 0 <= k < |top| ==>
              Enriched(top, task, opts, estimator)[k].(commuteTimeBefore := 0, commuteTimeAfter := 0)
              == top[k].(commuteTimeBefore := 0, commuteTimeAfter := 0)
    ensures !UsesNeighbours(task, opts) ==> Enriched(top, task, opts, estimator) == top
  {
  }

  // ----- generateReasoning -----

  function TimeReason(task: Task, best: ScoredSlot): seq<string> {
    if Present(task.preferredTimeOfDay) && InBand(task.preferredTimeOfDay.value, HourOf(best.slot.start))
    then ["Scheduled during your preferred " + task.preferredTimeOfDay.value + " time"]
    else []
  }

  /** Compares with the task's own `duration`; a missing one compares false. */
  function DurationReason(task: Task, best: ScoredSlot): seq<string> {
    if task.duration.None? then []
    else if task.duration.value <= best.slot.duration <= task.duration.value + 30 then ["Perfect fit for available time"]
    else if best.slot.duration > task.duration.value + 30 then ["Provides buffer time"]
    else []
  }

  function PriorityReason(task: Task): seq<string> {
    if task.priority.Some? && task.priority.value >= 8 then ["High priority - scheduled as soon as possible"] else []
  }

  function DueReason(task: Task, best: ScoredSlot): seq<string> {
    if task.dueDate.None? then []
    else
      var days := DaysUntilDue(task.dueDate.value, best.slot.start);
      if days <= 1 then ["Due soon - scheduled urgently"]
      else if days <= 3 then ["Scheduled before due date"]
      else []
  }

  function LocationReason(task: Task, best: ScoredSlot): seq<string> {
    if !Present(task.location) then []
    else if best.commuteTimeBefore == 0 && best.commuteTimeAfter == 0 then ["Minimal commute time"]
    else if best.commuteTimeBefore + best.commuteTimeAfter < 30 then ["Reasonable commute from nearby events"]
    else []
  }

  /** The reasons given for the best slot, in the order they are considered. */
  function Reasons(task: Task, best: ScoredSlot): seq<string> {
    TimeReason(task, best) + DurationReason(task, best) + PriorityReason(task)
    + DueReason(task, best) + LocationReason(task, best)
  }

  function GenerateReasoning(task: Task, best: Option<ScoredSlot>): (text: string)
    ensures text != ""
  {
    if best.None? then "No suitable time slots found"
    else
      var reasons := Reasons(task, best.value);
      var parts := if reasons == [] then ["Best available time slot"] else reasons;
      assert parts[0] != "";
      Join(parts, "; ")
  }

  /** Every reason that applies to the best slot appears in the explanation;
      when none applies the explanation is the generic one. */
  lemma ReasoningMentionsEveryReason(task: Task, best: ScoredSlot)
    ensures forall k :: 0 <= k < |Reasons(task, best)| ==> Includes(GenerateReasoning(task, Some(best)), Reasons(task, best)[k])
    ensures Reasons(task, best) == [] ==> GenerateReasoning(task, Some(best)) == "Best available time slot"
  {
    forall k | 0 <= k < |Reasons(task, best)| ensures Includes(GenerateReasoning(task, Some(best)), Reasons(task, best)[k]) {
      JoinContainsPart(Reasons(task, best), "; ", k);
    }
  }

  /** A high-priority task, and a task with a location and no commute on either
      side, say so in the explanation. */
  lemma ReasoningExamples(task: Task, best: ScoredSlot)
    ensures task.priority.Some? && task.priority.value >= 8 ==>
              Includes(GenerateReasoning(task, Some(best)), "High priority - scheduled as soon as possible")
    ensures Present(task.location) && best.commuteTimeBefore == 0 && best.commuteTimeAfter == 0 ==>
              Includes(GenerateReasoning(task, Some(best)), "Minimal commute time")
  {
    ReasoningMentionsEveryReason(task, best);
    var r := Reasons(task, best);
    if task.priority.Some? && task.priority.value >= 8 {
      assert r[|TimeReason(task, best)| + |DurationReason(task, best)|] == "High priority - scheduled as soon as possible";
    }
    if Present(task.location) && best.commuteTimeBefore == 0 && best.commuteTimeAfter == 0 {
      assert r[|r| - 1] == "Minimal commute time";
    }
  }

  // ----- optimizeSchedule -----

  datatype Recommendation = Recommendation(task: Task, suggestedSlots: seq<ScoredSlot>, reasoning: string)

  datatype Plan = Plan(success: bool, recommendations: seq<Recommendation>, totalTasks: int)

  /** What `optimizeSchedule` recommends for one task. */
  function Recommend(events: seq<Event>, task: Task, opts: Options, today: int,
                     estimator: (string, string, string) -> Estimate): Recommendation
  {
    var top := Enriched(TopSlots(Candidates(events, task, opts, today, SearchDays(opts))), task, opts, estimator);
    Recommendation(task, top, GenerateReasoning(task, if top == [] then None else Some(top[0])))
  }

  /** One recommendation: at most three suggestions, best first, each a
      well-scored candidate; commutes stay 0 unless neighbours are looked up. */
  lemma RecommendFacts(events: seq<Event>, task: Task, opts: Options, today: int,
                       estimator: (string, string, string) -> Estimate)
    ensures Recommend(events, task, opts, today, estimator).task == task
    ensures |Recommend(events, task, opts, today, estimator).suggestedSlots| <= MaxSuggestions
    ensures forall i, j :: 0 <= i < j < |Recommend(events, task, opts, today, estimator).suggestedSlots| ==>
              Recommend(events, task, opts, today, estimator).suggestedSlots[i].score
              >= Recommend(events, task, opts, today, estimator).suggestedSlots[j].score
    ensures forall s :: s in Recommend(events, task, opts, today, estimator).suggestedSlots ==>
              WellScored(s, events, task, opts) && today <= s.day < today + SearchDays(opts)
    ensures !UsesNeighbours(task, opts) ==>
              forall s :: s in Recommend(events, task, opts, today, estimator).suggestedSlots ==>
                s.commuteTimeBefore == 0 && s.commuteTimeAfter == 0
  {
    var cands := Candidates(events, task, opts, today, SearchDays(opts));
    var top := TopSlots(cands);
    var slots := Recommend(events, task, opts, today, estimator).suggestedSlots;
    TopSlotsAreBest(cands);
    CandidatesWellScored(events, task, opts, today, SearchDays(opts));
    EnrichedKeepsChoice(top, task, opts, estimator);
    forall s | s in slots ensures WellScored(s, events, task, opts) && today <= s.day < today + SearchDays(opts) {
      var k :| 0 <= k < |slots| && slots[k] == s;
      assert top[k] in cands;
      assert s.(commuteTimeBefore := 0, commuteTimeAfter := 0) == top[k].(commuteTimeBefore := 0, commuteTimeAfter := 0);
    }
    forall i, j | 0 <= i < j < |slots| ensures slots[i].score >= slots[j].score {
      assert slots[i].score == top[i].score && slots[j].score == top[j].score;
    }
  }

  /** The body of the task loop: search, rank, add commutes, explain. */
  method RecommendTask(events: seq<Event>, task: Task, opts: Options, today: int,
                       estimator: (string, string, string) -> Estimate)
    returns (r: Recommendation)
    ensures r == Recommend(events, task, opts, today, estimator)
  {
    var bestSlots := SlotCandidates(events, task, opts, today);
    var top := TopSlots(bestSlots);
    top := AddCommuteTimes(top, task, opts, estimator);
    var reasoning := GenerateReasoning(task, if top == [] then None else Some(top[0]));
    r := Recommendation(task, top, reasoning);
  }

  /** The recommendations for a list of tasks, one per task, in task order. */
  function RecommendAll(events: seq<Event>, tasks: seq<Task>, opts: Options, today: int,
                        estimator: (string, string, string) -> Estimate): seq<Recommendation>
  {
    if tasks == [] then []
    else RecommendAll(events, tasks[..|tasks| - 1], opts, today, estimator)
         + [Recommend(events, tasks[|tasks| - 1], opts, today, estimator)]
  }

  lemma RecommendAllStep(events: seq<Event>, tasks: seq<Task>, opts: Options, today: int,
                         estimator: (string, string, string) -> Estimate, i: int)
    requires 0 <= i < |tasks|
    ensures RecommendAll(events, tasks[..i + 1], opts, today, estimator)
         == RecommendAll(events, tasks[..i], opts, today, estimator) + [Recommend(events, tasks[i], opts, today, estimator)]
  {
    assert tasks[..i + 1][..i] == tasks[..i];
  }

  /** Every task gets its own recommendation, at its own position, holding the
      task itself and at most three slots, best first, none with a commute
      unless the task's location and the options call for one. */
  lemma {:induction false} RecommendAllFacts(events: seq<Event>, tasks: seq<Task>, opts: Options, today: int,
                                             estimator: (string, string, string) -> Estimate)
    ensures |RecommendAll(events, tasks, opts, today, estimator)| == |tasks|
    ensures forall i :: 0 <= i < |tasks| ==>
              RecommendAll(events, tasks, opts, today, estimator)[i] == Recommend(events, tasks[i], opts, today, estimator)
    ensures forall i :: 0 <= i < |tasks| ==>
              RecommendAll(events, tasks, opts, today, estimator)[i].task == tasks[i]
              && |RecommendAll(events, tasks, opts, today, estimator)[i].suggestedSlots| <= MaxSuggestions
    ensures forall i :: 0 <= i < |tasks| && !UsesNeighbours(tasks[i], opts) ==>
              forall s :: s in RecommendAll(events, tasks, opts, today, estimator)[i].suggestedSlots ==>
                s.commuteTimeBefore == 0 && s.commuteTimeAfter == 0
  {
    var all := RecommendAll(events, tasks, opts, today, estimator);
    if tasks != [] {
      var n := |tasks| - 1;
      RecommendAllFacts(events, tasks[..n], opts, today, estimator);
      assert all == RecommendAll(events, tasks[..n], opts, today, estimator) + [Recommend(events, tasks[n], opts, today, estimator)];
    }
    forall i | 0 <= i < |tasks|
      ensures all[i] == Recommend(events, tasks[i], opts, today, estimator)
    {
      if i < |tasks| - 1 {
        assert tasks[..|tasks| - 1][i] == tasks[i];
      }
    }
    forall i | 0 <= i < |tasks|
      ensures all[i].task == tasks[i] && |all[i].suggestedSlots| <= MaxSuggestions
      ensures !UsesNeighbours(tasks[i], opts) ==>
                forall s :: s in all[i].suggestedSlots ==> s.commuteTimeBefore == 0 && s.commuteTimeAfter == 0
    {
      RecommendFacts(events, tasks[i], opts, today, estimator);
    }
  }

  /** `optimizeSchedule(existingEvents, newTasks, options)` with the clock read
      as `now` and the travel-time estimator given. */
  method OptimizeSchedule(events: seq<Event>, tasks: seq<Task>, options: OptionsInput, now: int,
                          estimator: (string, string, string) -> Estimate)
    returns (plan: Plan)
    ensures plan.success && plan.totalTasks == |tasks|
    ensures plan.recommendations == RecommendAll(events, tasks, ResolveOptions(options), Day(now), estimator)
  {
    var opts := ResolveOptions(options);
    var today := Day(now);
    var recommendations: seq<Recommendation> := [];
    var i := 0;
    while i < |tasks|
      invariant 0 <= i <= |tasks|
      invariant recommendations == RecommendAll(events, tasks[..i], opts, today, estimator)
    {
      var recommendation := RecommendTask(events, tasks[i], opts, today, estimator);
      RecommendAllStep(events, tasks, opts, today, estimator, i);
      recommendations := recommendations + [recommendation];
      i := i + 1;
    }
    assert tasks[..i] == tasks;
    plan := Plan(true, recommendations, |tasks|);
  }
}
