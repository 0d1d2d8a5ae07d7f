/** `scoreTimeSlot`: a score that starts at 100, collects additive adjustments
    for priority, preferred part of the day, duration fit, neighbouring locations
    and due-date urgency, and is clamped to [0, 200]. */
module SlotScorer {
  import opened Text
  import opened Calendar
  import opened SlotFinder

  const BaseScore: int := 100
  const MinScore: int := 0
  const MaxScore: int := 200

  /** `priority || 5`. */
  function PriorityWeight(p: Option<int>): int {
    OrDefault(p, 5)
  }

  function PriorityAdjustment(p: Option<int>): int {
    (PriorityWeight(p) - 5) * 10
  }

  /** The hour falls in the band named by `preferred`: morning is [8, 12),
      afternoon [12, 17), evening [17, 20); any other name matches nothing. */
  predicate InBand(preferred: string, hour: int) {
    (preferred == "morning" && 8 <= hour < 12)
    || (preferred == "afternoon" && 12 <= hour < 17)
    || (preferred == "evening" && 17 <= hour < 20)
  }

  function TimeOfDayAdjustment(preferred: Option<string>, hour: int): int {
    if !Present(preferred) then 0
    else if InBand(preferred.value, hour) then 20
    else -10
  }

  function Abs(x: int): int { if x < 0 then -x else x }

  /** Closeness of the slot length to the task's own `duration` field (not the
      defaulted one). A missing duration makes the difference `NaN`, which
      passes none of the tests, so nothing is added. */
  function DurationAdjustment(slotDuration: int, taskDuration: Option<int>): int {
    if taskDuration.None? then 0
    else
      var fit := Abs(slotDuration - taskDuration.value);
      if fit == 0 then 15
      else if fit <= 15 then 10
      else if fit <= 30 then 5
      else if fit > 60 then -10
      else 0
  }

  /** A neighbour costs 10 when it has a location that differs (exactly, with
      case) from the task's; only tasks with a location are affected. */
  function NeighbourPenalty(taskLocation: string, neighbour: Option<string>): int {
    if Present(neighbour) && neighbour.value != taskLocation then -10 else 0
  }

  function LocationAdjustment(taskLocation: Option<string>, previous: Option<string>, next: Option<string>): int {
    if !Present(taskLocation) then 0
    else NeighbourPenalty(taskLocation.value, previous) + NeighbourPenalty(taskLocation.value, next)
  }

  /** `Math.ceil(a / b)` for a positive divisor. */
  function CeilDiv(a: int, b: int): (q: int)
    requires b > 0
    ensures b * (q - 1) < a <= b * q
  {
    var m := (-a) / b;
    assert b * m <= -a < b * m + b;
    -m
  }

  /** `Math.ceil((dueDate - slot.start) / one day)`. */
  function DaysUntilDue(due: int, start: int): int {
    CeilDiv(due - start, MinutesPerDay)
  }

  function UrgencyAdjustment(dueDate: Option<int>, start: int): int {
    if dueDate.None? then 0
    else
      var days := DaysUntilDue(dueDate.value, start);
      if days < 0 then -100
      else if days == 0 then 30
      else if days == 1 then 20
      else if days <= 3 then 10
      else 0
  }

  /** The score before clamping. */
  function RawScore(slot: Slot, task: Task, previous: Option<string>, next: Option<string>): int {
    BaseScore
    + PriorityAdjustment(task.priority)
    + TimeOfDayAdjustment(task.preferredTimeOfDay, HourOf(slot.start))
    + DurationAdjustment(slot.duration, task.duration)
    + LocationAdjustment(task.location, previous, next)
    + UrgencyAdjustment(task.dueDate, slot.start)
  }

  /** `Math.max(0, Math.min(200, score))`. */
  function Clamp(x: int): (r: int)
    ensures MinScore <= r <= MaxScore
    ensures MinScore <= x <= MaxScore ==> r == x
    ensures x < MinScore ==> r == MinScore
    ensures x > MaxScore ==> r == MaxScore
  {
    if x < MinScore then MinScore else if x > MaxScore then MaxScore else x
  }

  function ScoreTimeSlot(slot: Slot, task: Task, previous: Option<string>, next: Option<string>): (score: int)
    ensures MinScore <= score <= MaxScore
    ensures score == RawScore(slot, task, previous, next)
            || (score == MinScore && RawScore(slot, task, previous, next) < MinScore)
            || (score == MaxScore && RawScore(slot, task, previous, next) > MaxScore)
  {
    Clamp(RawScore(slot, task, previous, next))
  }

  lemma ClampMonotone(x: int, y: int)
    requires x <= y
    ensures Clamp(x) <= Clamp(y)
  {
  }

  /** One more point of (non-zero) priority adds exactly 10 to the raw score. */
  lemma PriorityStep(slot: Slot, task: Task, previous: Option<string>, next: Option<string>, p: int)
    requires p != 0 && p + 1 != 0
    ensures RawScore(slot, task.(priority := Some(p + 1)), previous, next)
         == RawScore(slot, task.(priority := Some(p)), previous, next) + 10
  {
  }

  /** With everything else fixed, the score never falls as the priority rises. */
  lemma ScoreMonotoneInPriority(slot: Slot, task: Task, previous: Option<string>, next: Option<string>, p: int, q: int)
    requires p <= q && p != 0 && q != 0
    ensures ScoreTimeSlot(slot, task.(priority := Some(p)), previous, next)
         <= ScoreTimeSlot(slot, task.(priority := Some(q)), previous, next)
  {
    ClampMonotone(RawScore(slot, task.(priority := Some(p)), previous, next),
                  RawScore(slot, task.(priority := Some(q)), previous, next));
  }

  /** A missing priority and a priority of 0 both score as priority 5. */
  lemma MissingPriorityIsFive(slot: Slot, task: Task, previous: Option<string>, next: Option<string>)
    ensures RawScore(slot, task.(priority := None), previous, next)
         == RawScore(slot, task.(priority := Some(0)), previous, next)
         == RawScore(slot, task.(priority := Some(5)), previous, next)
  {
  }

  /** A task without a location ignores where the neighbouring events are. */
  lemma NoLocationIgnoresNeighbours(slot: Slot, task: Task, p1: Option<string>, n1: Option<string>, p2: Option<string>, n2: Option<string>)
    requires !Present(task.location)
    ensures ScoreTimeSlot(slot, task, p1, n1) == ScoreTimeSlot(slot, task, p2, n2)
  {
  }

  /** For a task with a location, neighbours that are absent or at the same place
      cost nothing, and two neighbours elsewhere cost exactly 20. */
  lemma LocationPenalties(slot: Slot, task: Task, previous: Option<string>, next: Option<string>)
    requires Present(task.location)
    ensures (!Present(previous) || previous == task.location) && (!Present(next) || next == task.location)
            ==> RawScore(slot, task, previous, next) == RawScore(slot, task, None, None)
    ensures Present(previous) && previous != task.location && Present(next) && next != task.location
            ==> RawScore(slot, task, previous, next) == RawScore(slot, task, None, None) - 20
    ensures RawScore(slot, task, None, None) - 20 <= RawScore(slot, task, previous, next) <= RawScore(slot, task, None, None)
  {
  }

  /** The due-date bands of the rounded-up day count: a slot starting a whole
      day or more after the due instant is past due; one starting at the due
      instant or less than a day after it counts as due the same day; one
      starting up to a day before it counts as due the next day. */
  lemma DaysUntilDueBands(due: int, start: int)
    ensures DaysUntilDue(due, start) < 0 <==> due <= start - MinutesPerDay
    ensures DaysUntilDue(due, start) == 0 <==> start - MinutesPerDay < due <= start
    ensures DaysUntilDue(due, start) == 1 <==> start < due <= start + MinutesPerDay
  {
    var q := DaysUntilDue(due, start);
    assert MinutesPerDay * (q - 1) < due - start <= MinutesPerDay * q;
  }

  /** A slot past the due date loses 100 points before clamping. */
  lemma PastDuePenalty(slot: Slot, task: Task, previous: Option<string>, next: Option<string>)
    requires task.dueDate.Some? && task.dueDate.value <= slot.start - MinutesPerDay
    ensures RawScore(slot, task, previous, next) == RawScore(slot, task.(dueDate := None), previous, next) - 100
  {
    DaysUntilDueBands(task.dueDate.value, slot.start);
  }

  /** For a task with a preferred part of the day and no due date, a slot in
      the band outscores, by 30 before clamping, a slot of the same length
      outside it. */
  lemma PreferredBandBonus(slot: Slot, other: Slot, task: Task, previous: Option<string>, next: Option<string>)
    requires Present(task.preferredTimeOfDay) && task.dueDate.None?
    requires slot.duration == other.duration
    requires InBand(task.preferredTimeOfDay.value, HourOf(slot.start))
    requires !InBand(task.preferredTimeOfDay.value, HourOf(other.start))
    ensures RawScore(slot, task, previous, next) == RawScore(other, task, previous, next) + 30
  {
  }
}
