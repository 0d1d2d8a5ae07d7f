/** The scheduling routes: task validation and the empty-input guards around
    the optimizer and the auditor, the combined extract-then-schedule route,
    and the one-day metrics of `/analyze-day`. */
module ScheduleRoutes {
  import opened Text
  import opened Calendar
  import opened SlotScorer
  import opened Optimizer
  import opened Auditor

  // ----- task validation -----

  /** `Math.min(10, Math.max(1, priority || 5))`. */
  function ValidPriority(p: Option<int>): (r: int)
    ensures 1 <= r <= 10
    ensures Truthy(p) && 1 <= p.value <= 10 ==> r == p.value
    ensures !Truthy(p) ==> r == 5
    ensures Truthy(p) && p.value < 1 ==> r == 1
    ensures Truthy(p) && p.value > 10 ==> r == 10
  {
    var q := OrDefault(p, 5);
    if q > 10 then 10 else if q < 1 then 1 else q
  }

  /** One element of the `tasks.map(...)` in `/optimize`: every field gets a
      value, with `isFlexible` defaulting to true only when it is missing. */
  function ValidateTask(t: Task): (v: Task)
    ensures Present(v.summary) && Present(v.travelMode)
    ensures v.summary == Some(OrText(t.summary, "Untitled Task"))
    ensures v.travelMode == Some(OrText(t.travelMode, "driving"))
    ensures v.description == Some(OrText(t.description, ""))
    ensures v.preferredTimeOfDay == Nonblank(t.preferredTimeOfDay)
    ensures v.description.Some? && v.duration.Some? && v.isFlexible.Some?
    ensures v.priority.Some? && 1 <= v.priority.value <= 10
    ensures v.duration.value == TaskDuration(t) && v.duration.value != 0
    ensures v.dueDate == t.dueDate
    ensures v.isFlexible == (if t.isFlexible.None? then Some(true) else t.isFlexible)
    ensures Present(t.location) ==> v.location == t.location
    ensures !Present(t.location) ==> v.location == None
  {
    Task(
      Some(OrText(t.summary, "Untitled Task")),
      Some(OrText(t.description, "")),
      Some(TaskDuration(t)),
      Some(ValidPriority(t.priority)),
      t.dueDate,
      Nonblank(t.location),
      Nonblank(t.preferredTimeOfDay),
      if t.isFlexible.None? then Some(true) else t.isFlexible,
      Some(OrText(t.travelMode, "driving")))
  }

  /** Validating a validated task changes nothing. */
  lemma ValidateIdempotent(t: Task)
    ensures ValidateTask(ValidateTask(t)) == ValidateTask(t)
  {
    var v := ValidateTask(t);
    assert Truthy(v.priority);
    assert OrText(v.description, "") == v.description.value;
  }

  /** Validation keeps the length searched for, the location that neighbours
      are compared with, and the due date; a priority already in [1, 10]
      scores as before. */
  lemma ValidationKeepsSearch(t: Task)
    ensures TaskDuration(ValidateTask(t)) == TaskDuration(t)
    ensures Present(ValidateTask(t).location) <==> Present(t.location)
    ensures Present(t.location) ==> ValidateTask(t).location == t.location
    ensures ValidateTask(t).dueDate == t.dueDate
    ensures Truthy(t.priority) && 1 <= t.priority.value <= 10 ==>
              PriorityWeight(ValidateTask(t).priority) == PriorityWeight(t.priority)
    ensures !Truthy(t.priority) ==> PriorityWeight(ValidateTask(t).priority) == PriorityWeight(t.priority) == 5
  {
  }

  /** `tasks.map(validate)`. */
  function ValidateTasks(tasks: seq<Task>): (vs: seq<Task>)
    ensures |vs| == |tasks|
    ensures forall i :: 0 <= i < |tasks| ==> vs[i] == ValidateTask(tasks[i])
  {
    seq(|tasks|, i requires 0 <= i < |tasks| => ValidateTask(tasks[i]))
  }

  // ----- POST /optimize -----

  datatype OptimizeResponse =
    | OptimizeRejected(error: string, success: bool)
    | Optimized(plan: Plan)

  /** The `/optimize` route: a missing or empty task list is refused before
      the optimizer runs; otherwise the validated tasks are planned against
      the given events (none when missing) and options (defaults when
      missing). */
  method OptimizeRoute(tasks: Option<seq<Task>>, existingEvents: Option<seq<Event>>, options: Option<OptionsInput>,
                       now: int, estimator: (string, string, string) -> Estimate)
    returns (response: OptimizeResponse)
    ensures (tasks.None? || tasks.value == []) <==> response.OptimizeRejected?
    ensures response.OptimizeRejected? ==> response == OptimizeRejected("At least one task is required", false)
    ensures response.Optimized? ==>
              response.plan.success && response.plan.totalTasks == |tasks.value|
              && response.plan.recommendations
                 == RecommendAll(if existingEvents.Some? then existingEvents.value else [],
                                 ValidateTasks(tasks.value),
                                 ResolveOptions(if options.Some? then options.value else NoOptions),
                                 Day(now), estimator)
  {
    if tasks.None? || tasks.value == [] {
      return OptimizeRejected("At least one task is required", false);
    }
    var validated := ValidateTasks(tasks.value);
    var plan := OptimizeSchedule(if existingEvents.Some? then existingEvents.value else [],
                                 validated,
                                 if options.Some? then options.value else NoOptions,
                                 now, estimator);
    response := Optimized(plan);
  }

  /** Every task sent to `/optimize` comes back as its own recommendation, in
      order, with a priority in [1, 10] and a duration, and at most three
      suggested slots. */
  lemma OptimizedTasksAreValidated(tasks: seq<Task>, events: seq<Event>, opts: Options, today: int,
                                   estimator: (string, string, string) -> Estimate, i: int)
    requires 0 <= i < |tasks|
    ensures |RecommendAll(events, ValidateTasks(tasks), opts, today, estimator)| == |tasks|
    ensures RecommendAll(events, ValidateTasks(tasks), opts, today, estimator)[i].task == ValidateTask(tasks[i])
    ensures 1 <= RecommendAll(events, ValidateTasks(tasks), opts, today, estimator)[i].task.priority.value <= 10
    ensures |RecommendAll(events, ValidateTasks(tasks), opts, today, estimator)[i].suggestedSlots| <= MaxSuggestions
  {
    RecommendAllFacts(events, ValidateTasks(tasks), opts, today, estimator);
  }

  // ----- POST /suggest-reorganization -----

  datatype ReorganizationResponse =
    | NothingToAnalyze(hasImprovements: bool, message: string, improvements: seq<Improvement>)
    | Suggestions(audit: Audit)

  /** The `/suggest-reorganization` route: an absent or empty event list is
      answered without auditing; otherwise the audit of the target day. */
  method SuggestReorganizationRoute(events: Option<seq<Event>>, targetDate: Option<int>, now: int)
    returns (response: ReorganizationResponse)
    ensures (events.None? || events.value == []) <==> response.NothingToAnalyze?
    ensures response.NothingToAnalyze? ==> response == NothingToAnalyze(false, "No events to analyze", [])
    ensures response.Suggestions? ==> response.audit == Reorganization(events.value, AuditedDay(targetDate, now))
  {
    if events.None? || events.value == [] {
      return NothingToAnalyze(false, "No events to analyze", []);
    }
    var audit := SuggestReorganization(events.value, targetDate, now);
    response := Suggestions(audit);
  }

  // ----- POST /smart-schedule -----

  datatype SmartResponse =
    | SmartRejected(error: string, success: bool)
    | NoTasksFound(success: bool, message: string, tasks: seq<Task>, recommendations: seq<Recommendation>)
    | SmartScheduled(success: bool, tasks: seq<Task>, recommendations: seq<Recommendation>, totalTasks: int)

  /** The `/smart-schedule` route with the task extractor given as a
      function: blank text is refused, text without tasks is answered without
      planning, and otherwise the extracted tasks are planned as they are,
      without the validation `/optimize` applies. */
  method SmartSchedule(text: Option<string>, existingEvents: Option<seq<Event>>, options: Option<OptionsInput>,
                       now: int, extractor: (string, seq<Event>) -> seq<Task>,
                       estimator: (string, string, string) -> Estimate)
    returns (response: SmartResponse)
    ensures (text.None? || Blank(text.value)) <==> response.SmartRejected?
    ensures response.SmartRejected? ==> response == SmartRejected("Text is required", false)
    ensures response.NoTasksFound? ==>
              response == NoTasksFound(false, "No tasks found in the text", [], [])
              && extractor(text.value, if existingEvents.Some? then existingEvents.value else []) == []
    ensures response.SmartScheduled? ==>
              var events := if existingEvents.Some? then existingEvents.value else [];
              var tasks := extractor(text.value, events);
              tasks != [] && response.success && response.tasks == tasks && response.totalTasks == |tasks|
              && response.recommendations
                 == RecommendAll(events, tasks, ResolveOptions(if options.Some? then options.value else NoOptions),
                                 Day(now), estimator)
  {
    if text.None? || Blank(text.value) {
      return SmartRejected("Text is required", false);
    }
    var events := if existingEvents.Some? then existingEvents.value else [];
    var tasks := extractor(text.value, events);
    if tasks == [] {
      return NoTasksFound(false, "No tasks found in the text", [], []);
    }
    var plan := OptimizeSchedule(events, tasks, if options.Some? then options.value else NoOptions, now, estimator);
    response := SmartScheduled(plan.success, tasks, plan.recommendations, |tasks|);
  }

  // ----- POST /analyze-day -----

  /** The working day the metrics assume: 8am to 8pm. */
  const WorkdayMinutes: int := 720

  datatype DayAnalysis =
    | Unanalysed(date: Option<int>, totalEvents: int, totalScheduledTime: int, freeTime: int, analysis: string)
    | Analysed(day: int, totalEvents: int, totalScheduledTime: int, freeTime: int,
               locationBreakdown: map<string, int>, suggestions: Audit, efficiency: int)

  /** The minutes the events of `s` take, `end - start` summed. */
  function ScheduledMinutes(s: seq<Event>): int
    decreases |s|
  {
    if s == [] then 0 else ScheduledMinutes(s[..|s| - 1]) + (s[|s| - 1].end - s[|s| - 1].start)
  }

  /** Scheduled time adds up over a split of the events. */
  lemma {:induction false} ScheduledMinutesAppend(a: seq<Event>, b: seq<Event>)
    ensures ScheduledMinutes(a + b) == ScheduledMinutes(a) + ScheduledMinutes(b)
    decreases |b|
  {
    if b == [] {
      assert a + b == a;
    } else {
      var n := |b| - 1;
      ScheduledMinutesAppend(a, b[..n]);
      assert (a + b)[..|a + b| - 1] == a + b[..n];
    }
  }

  /** Events that do not run backwards take no negative time, and an event of
      positive length makes the total positive. */
  lemma {:induction false} ScheduledMinutesPositive(s: seq<Event>)
    requires forall e :: e in s ==> e.start <= e.end
    ensures ScheduledMinutes(s) >= 0
    ensures (exists e :: e in s && e.start < e.end) ==> ScheduledMinutes(s) > 0
    decreases |s|
  {
    if s != [] {
      var n := |s| - 1;
      assert forall e :: e in s[..n] ==> e in s;
      ScheduledMinutesPositive(s[..n]);
      forall e | e in s && e.start < e.end ensures ScheduledMinutes(s) > 0 {
        if e !in s[..n] {
          assert e == s[n];
        }
      }
    }
  }

  /** `Math.round(total / 720 * 100)` when something is scheduled, else 0: the
      whole percentage nearest to the share of the workday, halves rounded up. */
  function Efficiency(total: int): (e: int)
    ensures total > 0 ==> WorkdayMinutes * e - 360 <= 100 * total < WorkdayMinutes * e + 360
    ensures total <= 0 ==> e == 0
  {
    if total > 0 then (100 * total + 360) / WorkdayMinutes else 0
  }

  /** A full workday is 100 percent, and efficiency never falls as more is scheduled. */
  lemma EfficiencyFacts(total: int, more: int)
    requires 0 < total <= more
    ensures Efficiency(WorkdayMinutes) == 100
    ensures Efficiency(total) <= Efficiency(more)
  {
    var e1 := Efficiency(total);
    var e2 := Efficiency(more);
    assert WorkdayMinutes * e1 - 360 <= 100 * total <= 100 * more < WorkdayMinutes * e2 + 360;
  }

  /** One event of the `forEach`: counting it at its location (when it has
      one) keeps the breakdown equal to the per-location counts. */
  lemma TallyStep(p: seq<Event>, e: Event, before: map<string, int>, after: map<string, int>)
    requires forall k :: k in before <==> k in Locations(p)
    requires forall k :: k in before ==> before[k] == |AtLocation(p, k)|
    requires after == if Present(e.location)
                      then before[e.location.value := (if e.location.value in before then before[e.location.value] else 0) + 1]
                      else before
    ensures forall k :: k in after <==> k in Locations(p + [e])
    ensures forall k :: k in after ==> after[k] == |AtLocation(p + [e], k)|
  {
    var q := p + [e];
    assert q[..|q| - 1] == p && q[|q| - 1] == e;
    LocationsMembers(p);
    if Present(e.location) && e.location.value !in before {
      AtLocationAbsent(p, e.location.value);
    }
    forall k | k in after ensures after[k] == |AtLocation(q, k)| {
      assert AtLocation(q, k) == AtLocation(p, k) + (if e.location == Some(k) then [e] else []);
    }
  }

  /** The `forEach` over the day's events: total minutes, and for each
      non-empty location the number of the day's events held there. */
  method DayMetrics(dayEvents: seq<Event>) returns (total: int, breakdown: map<string, int>)
    ensures total == ScheduledMinutes(dayEvents)
    ensures forall k :: k in breakdown <==> k in Locations(dayEvents)
    ensures forall k :: k in breakdown ==> breakdown[k] == |AtLocation(dayEvents, k)|
  {
    total := 0;
    breakdown := map[];
    var i := 0;
    while i < |dayEvents|
      invariant 0 <= i <= |dayEvents|
      invariant total == ScheduledMinutes(dayEvents[..i])
      invariant forall k :: k in breakdown <==> k in Locations(dayEvents[..i])
      invariant forall k :: k in breakdown ==> breakdown[k] == |AtLocation(dayEvents[..i], k)|
    {
      var e := dayEvents[i];
      assert dayEvents[..i + 1] == dayEvents[..i] + [e];
      ScheduledMinutesAppend(dayEvents[..i], [e]);
      total := total + (e.end - e.start);
      ghost var before := breakdown;
      if Present(e.location) {
        var loc := e.location.value;
        breakdown := breakdown[loc := (if loc in breakdown then breakdown[loc] else 0) + 1];
      }
      TallyStep(dayEvents[..i], e, before, breakdown);
      i := i + 1;
    }
    assert dayEvents[..i] == dayEvents;
  }

  /** The `/analyze-day` route for the day of `date` (today when missing). */
  method AnalyzeDay(events: Option<seq<Event>>, date: Option<int>, now: int) returns (analysis: DayAnalysis)
    ensures (events.None? || events.value == []) ==>
              analysis == Unanalysed(date, 0, 0, 0, "No events scheduled for this day")
    ensures events.Some? && events.value != [] && DayEvents(events.value, AuditedDay(date, now)) == [] ==>
              analysis == Unanalysed(Some(AuditedDay(date, now)), 0, 0, WorkdayMinutes, "No events scheduled for this day")
    ensures events.Some? && events.value != [] && DayEvents(events.value, AuditedDay(date, now)) != [] ==>
              analysis.Analysed?
    ensures analysis.Analysed? ==>
              var dayEvents := DayEvents(events.value, AuditedDay(date, now));
              dayEvents != [] && analysis.day == AuditedDay(date, now)
              && analysis.totalEvents == |dayEvents|
              && analysis.totalScheduledTime == ScheduledMinutes(dayEvents)
              && analysis.freeTime + analysis.totalScheduledTime == WorkdayMinutes
              && (forall k :: k in analysis.locationBreakdown <==> k in Locations(dayEvents))
              && (forall k :: k in analysis.locationBreakdown ==> analysis.locationBreakdown[k] == |AtLocation(dayEvents, k)|)
              && analysis.suggestions == Reorganization(events.value, AuditedDay(date, now))
              && analysis.efficiency == Efficiency(analysis.totalScheduledTime)
  {
    if events.None? || events.value == [] {
      return Unanalysed(date, 0, 0, 0, "No events scheduled for this day");
    }
    var d := AuditedDay(date, now);
    var dayEvents := DayEvents(events.value, d);
    if dayEvents == [] {
      return Unanalysed(Some(d), 0, 0, WorkdayMinutes, "No events scheduled for this day");
    }
    var total, breakdown := DayMetrics(dayEvents);
    var suggestions := SuggestReorganization(events.value, date, now);
    analysis := Analysed(d, |dayEvents|, total, WorkdayMinutes - total, breakdown, suggestions, Efficiency(total));
  }
}
