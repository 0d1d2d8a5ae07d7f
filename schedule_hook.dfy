/** The client-side scheduling hook: the scheduling-intent test on a message,
    and the two entry points that send text or tasks to the server and keep
    the outcome in the hook's state. */
module ScheduleHook {
  import opened Text
  import opened Calendar
  import opened SlotFinder
  import opened Optimizer

  // ----- scheduling intent -----

  const SchedulingKeywords: seq<string> := [
    "schedule", "plan", "book", "set up", "arrange",
    "need to", "have to", "should", "want to",
    "appointment", "meeting", "reminder",
    "optimize", "best time", "when should",
    "fit in", "squeeze in", "find time"
  ]

  /** `hasSchedulingIntent(text)`: missing or empty text has none; otherwise
      some keyword occurs in the lower-cased text. */
  function HasSchedulingIntent(text: Option<string>): (r: bool)
    ensures !Present(text) ==> !r
    ensures Present(text) ==>
              (r <==> exists k :: 0 <= k < |SchedulingKeywords| && Contains(ToLower(text.value), SchedulingKeywords[k]))
  {
    Present(text) && IncludesAny(ToLower(text.value), SchedulingKeywords)
  }

  /** The test ignores case: lower-casing the message first changes nothing. */
  lemma SchedulingIntentIgnoresCase(text: string)
    ensures HasSchedulingIntent(Some(ToLower(text))) == HasSchedulingIntent(Some(text))
  {
    ToLowerIdempotent(text);
    assert |ToLower(text)| == |text|;
  }

  /** The keywords are written in lower case. */
  lemma KeywordsAreLowerCase()
    ensures forall k :: 0 <= k < |SchedulingKeywords| ==> NoUpper(SchedulingKeywords[k])
  {
  }

  /** A keyword anywhere in the message, in any case, is scheduling intent. */
  lemma KeywordShowsIntent(before: string, k: int, after: string)
    requires 0 <= k < |SchedulingKeywords|
    ensures HasSchedulingIntent(Some(before + SchedulingKeywords[k] + after))
  {
    var w := SchedulingKeywords[k];
    assert NoUpper(w) by {
      KeywordsAreLowerCase();
    }
    WordInLowered(before, w, after);
    IncludesAnyWitness(ToLower(before + w + after), SchedulingKeywords, k);
  }

  // ----- reformatting calendar events -----

  /** An event as the calendar view holds it. */
  datatype CalendarItem = CalendarItem(title: Option<string>, summary: Option<string>, start: int, end: int, location: Option<string>)

  /** `{ summary: title || summary, start, end, location: location || null }`. */
  function FormatEvent(e: CalendarItem): (r: Event)
    ensures r.start == e.start && r.end == e.end
    ensures r.summary == (if Present(e.title) then e.title else e.summary)
    ensures Present(r.location) <==> Present(e.location)
    ensures Present(e.location) ==> r.location == e.location
  {
    Event(if Present(e.title) then e.title else e.summary, e.start, e.end, Nonblank(e.location))
  }

  /** `calendarEvents.map(...)`: one event per calendar item, in order. */
  function FormatEvents(items: seq<CalendarItem>): (r: seq<Event>)
    ensures |r| == |items|
    ensures forall i :: 0 <= i < |items| ==> r[i] == FormatEvent(items[i])
  {
    seq(|items|, i requires 0 <= i < |items| => FormatEvent(items[i]))
  }

  // ----- the options the hook sends -----

  /** `{ searchDays: o.searchDays || 7, workingHours: o.workingHours || 8-20,
      includeWeekends / minimizeCommute: given or true }`. */
  function HookOptions(o: OptionsInput): (r: OptionsInput)
    ensures r.searchDays.Some? && r.workingHours.Some? && r.includeWeekends.Some? && r.minimizeCommute.Some?
  {
    OptionsInput(
      Some(OrDefault(o.searchDays, 7)),
      Some(if o.workingHours.Some? then o.workingHours.value else DefaultWorkingHours),
      Some(if o.includeWeekends.Some? then o.includeWeekends.value else true),
      Some(if o.minimizeCommute.Some? then o.minimizeCommute.value else true))
  }

  /** Filling in the options in the hook agrees with the server's own
      defaults, except that a `searchDays` of 0 becomes 7. */
  lemma HookOptionsAgree(o: OptionsInput)
    ensures o.searchDays != Some(0) ==> ResolveOptions(HookOptions(o)) == ResolveOptions(o)
    ensures o.searchDays == Some(0) ==> ResolveOptions(HookOptions(o)) == ResolveOptions(o).(searchDays := 7)
  {
  }

  // ----- the hook -----

  /** What the server answers, or that the request threw. */
  datatype Reply =
    | Threw
    | Replied(success: bool, recommendations: Option<seq<Recommendation>>, tasks: Option<seq<Task>>, message: Option<string>)

  /** A request the hook sent to the server. */
  datatype Request =
    | TextRequest(text: string, events: seq<Event>, options: OptionsInput)
    | TasksRequest(tasks: seq<Task>, events: seq<Event>, options: OptionsInput)

  datatype Outcome =
    | Failure(message: string)
    | Success(recommendations: seq<Recommendation>, tasks: Option<seq<Task>>)

  const NoTimeFound: string := "No optimal time slots found"
  const RetryMessage: string := "Failed to optimize schedule. Please try again."

  /** A reply that carries at least one recommendation. */
  predicate Usable(reply: Reply) {
    reply.Replied? && reply.success && reply.recommendations.Some? && |reply.recommendations.value| > 0
  }

  /** The state of `useScheduleOptimization(calendarEvents)`. */
  class ScheduleOptimization {
    const calendarEvents: seq<CalendarItem>
    var recommendations: Option<seq<Recommendation>>
    var isOptimizing: bool
    var optimizationError: Option<string>
    /** The requests sent to the server so far. */
    ghost var sent: seq<Request>

    constructor(calendarEvents: seq<CalendarItem>)
      ensures this.calendarEvents == calendarEvents
      ensures recommendations == None && !isOptimizing && optimizationError == None && sent == []
    {
      this.calendarEvents := calendarEvents;
      recommendations := None;
      isOptimizing := false;
      optimizationError := None;
      sent := [];
    }

    /** Takes the answer to a request: keep the recommendations of a usable
        reply, otherwise record the failure message. */
    method Settle(reply: Reply, failureMessage: string, withTasks: bool) returns (outcome: Outcome)
      modifies this
      ensures Usable(reply) ==>
                outcome == Success(reply.recommendations.value, if withTasks then reply.tasks else None)
                && recommendations == reply.recommendations && optimizationError == None
      ensures reply.Replied? && !Usable(reply) ==>
                outcome == Failure(failureMessage)
                && recommendations == old(recommendations) && optimizationError == Some(failureMessage)
      ensures reply.Threw? ==>
                outcome == Failure(RetryMessage)
                && recommendations == old(recommendations) && optimizationError == Some(RetryMessage)
      ensures !isOptimizing && sent == old(sent)
    {
      optimizationError := None;
      if reply.Threw? {
        optimizationError := Some(RetryMessage);
        outcome := Failure(RetryMessage);
      } else if Usable(reply) {
        recommendations := reply.recommendations;
        outcome := Success(reply.recommendations.value, if withTasks then reply.tasks else None);
      } else {
        optimizationError := Some(failureMessage);
        outcome := Failure(failureMessage);
      }
      isOptimizing := false;
    }

    /** `optimizeFromText(text, options)` with the `/smart-schedule` call given
        as a function: blank text is refused without a request and without
        touching the state; otherwise exactly one request is sent, and
        `isOptimizing` is off again whatever the answer. */
    method OptimizeFromText(text: Option<string>, options: OptionsInput,
                            smartSchedule: (string, seq<Event>, OptionsInput) -> Reply)
      returns (outcome: Outcome)
      modifies this
      ensures !Present(text) || Blank(text.value) ==>
                outcome == Failure("No text provided")
                && recommendations == old(recommendations) && isOptimizing == old(isOptimizing)
                && optimizationError == old(optimizationError) && sent == old(sent)
      ensures Present(text) && !Blank(text.value) ==>
                var request := TextRequest(text.value, FormatEvents(calendarEvents), HookOptions(options));
                var reply := smartSchedule(request.text, request.events, request.options);
                sent == old(sent) + [request] && !isOptimizing
                && (Usable(reply) <==> outcome.Success?)
                && (Usable(reply) ==> outcome == Success(reply.recommendations.value, reply.tasks)
                                      && recommendations == reply.recommendations && optimizationError == None)
                && (reply.Replied? && !Usable(reply) ==>
                      outcome.message == OrText(reply.message, NoTimeFound)
                      && optimizationError == Some(outcome.message) && recommendations == old(recommendations))
                && (reply.Threw? ==> outcome == Failure(RetryMessage) && optimizationError == Some(RetryMessage)
                                     && recommendations == old(recommendations))
    {
      if !Present(text) || Blank(text.value) {
        return Failure("No text provided");
      }
      isOptimizing := true;
      optimizationError := None;
      var events := FormatEvents(calendarEvents);
      var opts := HookOptions(options);
      sent := sent + [TextRequest(text.value, events, opts)];
      var reply := smartSchedule(text.value, events, opts);
      var message := if reply.Replied? then OrText(reply.message, NoTimeFound) else RetryMessage;
      outcome := Settle(reply, message, true);
    }

    /** `optimizeFromTasks(tasks, options)` with the `/optimize` call given as
        a function: an absent or empty task list is refused without a request
        and without touching the state; otherwise exactly one request is
        sent, and `isOptimizing` is off again whatever the answer. */
    method OptimizeFromTasks(tasks: Option<seq<Task>>, options: OptionsInput,
                             optimize: (seq<Task>, seq<Event>, OptionsInput) -> Reply)
      returns (outcome: Outcome)
      modifies this
      ensures tasks.None? || tasks.value == [] ==>
                outcome == Failure("No tasks provided")
                && recommendations == old(recommendations) && isOptimizing == old(isOptimizing)
                && optimizationError == old(optimizationError) && sent == old(sent)
      ensures tasks.Some? && tasks.value != [] ==>
                var request := TasksRequest(tasks.value, FormatEvents(calendarEvents), HookOptions(options));
                var reply := optimize(request.tasks, request.events, request.options);
                sent == old(sent) + [request] && !isOptimizing
                && (Usable(reply) <==> outcome.Success?)
                && (Usable(reply) ==> outcome == Success(reply.recommendations.value, None)
                                      && recommendations == reply.recommendations && optimizationError == None)
                && (reply.Replied? && !Usable(reply) ==>
                      outcome == Failure(NoTimeFound) && optimizationError == Some(NoTimeFound)
                      && recommendations == old(recommendations))
                && (reply.Threw? ==> outcome == Failure(RetryMessage) && optimizationError == Some(RetryMessage)
                                     && recommendations == old(recommendations))
    {
      if tasks.None? || tasks.value == [] {
        return Failure("No tasks provided");
      }
      isOptimizing := true;
      optimizationError := None;
      var events := FormatEvents(calendarEvents);
      var opts := HookOptions(options);
      sent := sent + [TasksRequest(tasks.value, events, opts)];
      var reply := optimize(tasks.value, events, opts);
      outcome := Settle(reply, NoTimeFound, false);
    }

    /** `clearRecommendations()`. */
    method ClearRecommendations()
      modifies this
      ensures recommendations == None && optimizationError == None
      ensures isOptimizing == old(isOptimizing) && sent == old(sent)
    {
      recommendations := None;
      optimizationError := None;
    }
  }
}
