# ProductStudio92 scheduling, family groups, settings and conversation control, in Dafny

This project models the core of ProductStudio92, a voice and chat calendar assistant. The model covers six parts.

- **The scheduling engine.** It finds the free slots of a day between working hours (`findAvailableSlots`). It scores each slot for a task (`scoreTimeSlot`). For every task it searches the coming days, ranks the candidates with a stable sort and keeps the best three. It fills in travel times from a travel-time estimator (`optimizeSchedule`, `estimateCommuteTime`) and explains the choice (`generateReasoning`). It also audits a day for scattered visits to one place and for long idle gaps (`suggestReorganization`).
- **The scheduling routes and the client hook.** The routes validate tasks and refuse empty input, and they compute the metrics of one day (`/analyze-day`). The client side formats durations and labels priorities, detects scheduling intent in a message, and holds the state of `useScheduleOptimization`.
- **The family-group store.** Groups, invitations and notifications live in one object. Its methods are the routes: create, update, delete, invite, accept, decline, notify, answer an event, read the unread list, mark read, change preferences and remove a member. Each method keeps the store invariant:
  - member emails are unique;
  - every group has an admin;
  - at most one invitation is pending per group and email;
  - nobody with a pending invitation is already a member;
  - `readBy`, `acceptedBy` and `declinedBy` hold each user once.
- **The per-user settings store.** It has get, save and delete by email, and four routes. GET falls back to the defaults, POST checks the structure, and PATCH is the two-level merge.
- **The conversation control of the chat client (`useMessageProcessing`).** This covers:
  - how a message is dispatched;
  - the one pending operation (reschedule, conflict or delete) and how each reply moves it on;
  - the bounded list of recent events;
  - the quick-reply and skip-speech tests.
- **Two rules of the language-model service.** One decides whether a message needs the calendar as context (`shouldUseCalendarContext`). The other is the time-zone suffix added to a `newTime`.

**How time is modelled.** Scheduling uses integer minutes: the day is `t / 1440` and the hour is `(t % 1440) / 60`. Family and settings timestamps are integer milliseconds. The clock is always a parameter `now`.

**Outside calls.** The language model, the travel-time estimator, the task extractor and the calendar glue are function parameters. A call is either answered or fails.

**JavaScript truthiness.** A falsy value is `None` or the empty string (`Text.Present`), or `None` or `0` for numbers (`Calendar.Truthy`).

**Sorting.** Every `sort` of the source is the one stable insertion sort `Sorting.SortBy`. ECMAScript requires `Array.prototype.sort` to be stable.

**Ids.** The random ids of `generateId` are a counter that the store advances.

## Model

| member | source | states |
|---|---|---|
| Sorting.SortBySorted | server/services/scheduleOptimizer.js:78-82 | the stable sort orders its result by key (and `SortBy` keeps the multiset of elements) |
| Sorting.SortByStable | server/services/scheduleOptimizer.js:252 | elements with equal keys keep their relative order |
| Sorting.SortByHead | server/services/scheduleOptimizer.js:215-219 | the head of the sorted list is the first element of smallest key (what `sort(...)[0]` picks) |
| Sorting.FirstMinIsFirstMinimal | server/services/scheduleOptimizer.js:215-219 | that pick has the smallest key and every earlier element has a strictly larger one |
| Calendar.HourOf | server/services/scheduleOptimizer.js:126 | the local hour of an instant is in 0..23 |
| Calendar.Weekday | server/services/scheduleOptimizer.js:196 | `getDay()` of a day index is in 0..6 |
| Calendar.Mod7 | server/services/scheduleOptimizer.js:196 | reduction of a day index into 0..6 |
| Calendar.Mod7IsRemainder | server/services/scheduleOptimizer.js:196 | that reduction is the Euclidean remainder modulo 7 |
| Calendar.WeekdayPeriodic | server/services/scheduleOptimizer.js:191-198 | the weekday repeats every seven days |
| Calendar.WeekdayNext | server/services/scheduleOptimizer.js:191-198 | the weekday advances by one per day and wraps from Saturday to Sunday |
| Calendar.OrText | server/routes/schedule.js:33 | `x \|\| fallback`: a present string is kept, an absent or empty one gives the fallback |
| Calendar.Nonblank | server/routes/schedule.js:38 | `x \|\| null`: an empty string becomes null, a present one is kept |
| Calendar.DayEventsMembers | server/services/scheduleOptimizer.js:73-77 | the day's events are exactly the events starting on that day |
| Calendar.SortedDayEventsMembers | server/services/scheduleOptimizer.js:73-82 | the swept events are exactly that day's events, in start order |
| SlotFinder.FindAvailableSlots | server/services/scheduleOptimizer.js:61-118 | the cursor loop returns exactly the slots of the sweep over the day's sorted events |
| SlotFinder.SweepGaps | server/services/scheduleOptimizer.js:84-104 | the gap loop emits exactly the slots of the sweep from the working-hours start |
| SlotFinder.SlotsLongEnough | server/services/scheduleOptimizer.js:92-115 | every slot lasts at least `minDuration` and its duration is end minus start |
| SlotFinder.SlotsAvoidDayEvents | server/services/scheduleOptimizer.js:84-104 | no slot overlaps any event starting that day |
| SlotFinder.SlotsOrderedAndDisjoint | server/services/scheduleOptimizer.js:84-104 | with a positive minimum, slots are non-empty, in increasing order and pairwise disjoint |
| SlotFinder.SlotsStartInWindow | server/services/scheduleOptimizer.js:84-103 | no slot starts before the working-hours start (the cursor never moves backwards) |
| SlotFinder.SlotsComplete | server/services/scheduleOptimizer.js:84-115 | every free stretch of the window long enough for the task lies inside some slot |
| SlotFinder.NoEventsWholeWindow | server/services/scheduleOptimizer.js:107-117 | a day without events gives the whole window when it is long enough, else nothing |
| SlotFinder.NoDayEvents | server/services/scheduleOptimizer.js:73-77 | events of other days leave the day's list empty |
| SlotFinder.LateEventStretchesSlot | server/services/scheduleOptimizer.js:92-100 | an event starting after the working hours stretches the slot before it past the window end |
| SlotScorer.ScoreTimeSlot | server/services/scheduleOptimizer.js:123-168 | the score is in [0, 200], and equals the raw sum unless that is clamped to a bound it exceeds |
| SlotScorer.ClampMonotone | server/services/scheduleOptimizer.js:167 | clamping keeps order |
| SlotScorer.PriorityStep | server/services/scheduleOptimizer.js:129-130 | one more (non-zero) priority point adds exactly 10 to the raw score |
| SlotScorer.ScoreMonotoneInPriority | server/services/scheduleOptimizer.js:129-167 | with all else fixed, the score never falls as priority rises |
| SlotScorer.MissingPriorityIsFive | server/services/scheduleOptimizer.js:129 | a missing priority and priority 0 score as priority 5 |
| SlotScorer.NoLocationIgnoresNeighbours | server/services/scheduleOptimizer.js:149 | a task without a location ignores its neighbours' locations |
| SlotScorer.LocationPenalties | server/services/scheduleOptimizer.js:149-156 | absent or same-place neighbours cost nothing, two elsewhere cost exactly 20, never more |
| SlotScorer.CeilDiv | server/services/scheduleOptimizer.js:160 | `Math.ceil(a / b)` is the q with b(q-1) < a <= bq |
| SlotScorer.DaysUntilDueBands | server/services/scheduleOptimizer.js:160-164 | which offsets of the due instant give a negative, zero or one rounded-up day count |
| SlotScorer.PastDuePenalty | server/services/scheduleOptimizer.js:161 | a slot a whole day or more past the due date loses 100 before clamping |
| SlotScorer.PreferredBandBonus | server/services/scheduleOptimizer.js:133-139 | a slot in the preferred band beats one of the same length outside it by 30 |
| Optimizer.CommuteWithoutEstimate | server/services/scheduleOptimizer.js:17-21 | an absent place, or two places equal ignoring case, cost 0 whatever the estimator says |
| Optimizer.CommuteFallbacks | server/services/scheduleOptimizer.js:49-55 | a failed estimate gives 30; a missing or 0 `minutes` gives 0 |
| Optimizer.PreviousLocationIsLatest | server/services/scheduleOptimizer.js:210-221 | the previous location comes from the latest-ending event of any day ending by the slot start, the first such in input order |
| Optimizer.NextLocationIsEarliest | server/services/scheduleOptimizer.js:223-234 | the next location comes from the earliest-starting event of any day starting at or after the slot end |
| Optimizer.ResolveOptions | server/services/scheduleOptimizer.js:175-180 | the destructuring defaults field by field: each given field is kept, each absent one takes its own default (7 days, 8 to 20, weekends in, commute on) |
| Optimizer.CandidatesWellScored | server/services/scheduleOptimizer.js:191-248 | every candidate is a free slot of a searched, non-skipped day, scored with its own neighbours, commutes 0 |
| Optimizer.CandidatesRespectOptions | server/services/scheduleOptimizer.js:187-201 | every candidate is long enough for the task, on a searched day, and not a weekend when weekends are excluded |
| Optimizer.SlotCandidates | server/services/scheduleOptimizer.js:188-249 | the day loop pushes exactly the candidates of the searched days, in discovery order |
| Optimizer.ScoreDay | server/services/scheduleOptimizer.js:200-248 | the body of the day loop gives the scored free slots of that day |
| Optimizer.ScoreSlots | server/services/scheduleOptimizer.js:204-248 | the slot loop scores each free slot, in order |
| Optimizer.TopSlots | server/services/scheduleOptimizer.js:252-253 | the kept list has min(n, 3) entries |
| Optimizer.TopSlotsAreBest | server/services/scheduleOptimizer.js:252-253 | the kept slots are candidates, in non-increasing score, and no dropped candidate outscores a kept one |
| Optimizer.TiesKeepDiscoveryOrder | server/services/scheduleOptimizer.js:252 | candidates with equal scores keep their discovery order |
| Optimizer.AddCommuteTimes | server/services/scheduleOptimizer.js:256-273 | the commute loop gives exactly the enriched slots |
| Optimizer.EnrichedKeepsChoice | server/services/scheduleOptimizer.js:256-273 | enrichment changes only the commute fields, and nothing at all without neighbour lookup |
| Optimizer.GenerateReasoning | server/services/scheduleOptimizer.js:300-351 | the explanation is never empty; no slot gives the 'none found' text |
| Optimizer.ReasoningMentionsEveryReason | server/services/scheduleOptimizer.js:303-350 | every applicable reason appears in the text; with none, the text is 'Best available time slot' |
| Optimizer.ReasoningExamples | server/services/scheduleOptimizer.js:323-340 | a priority of 8 or more and a commute-free located slot are each mentioned |
| Optimizer.RecommendFacts | server/services/scheduleOptimizer.js:186-279 | one recommendation holds its task and at most three well-scored slots of searched days, best first; commutes 0 unless neighbours are used |
| Optimizer.RecommendTask | server/services/scheduleOptimizer.js:186-279 | the body of the task loop computes that recommendation |
| Optimizer.RecommendAllFacts | server/services/scheduleOptimizer.js:183-279 | one recommendation per task, at the task's position, with the facts above |
| Optimizer.OptimizeSchedule | server/services/scheduleOptimizer.js:173-286 | success, `totalTasks` equal to the number of tasks, and the recommendations of every task in order |
| Auditor.LocationsMembers | server/services/scheduleOptimizer.js:452-460 | the group keys are exactly the non-empty locations of the day's events, each once |
| Auditor.AtLocationMembers | server/services/scheduleOptimizer.js:452-460 | a group holds exactly the day's events at that location |
| Auditor.AtLocationAbsent | server/services/scheduleOptimizer.js:455-457 | a location no event has has an empty group |
| Auditor.MaxHour | server/services/scheduleOptimizer.js:465-466 | `Math.max` of the start hours is an upper bound that some event attains |
| Auditor.MinHour | server/services/scheduleOptimizer.js:465-466 | `Math.min` of the start hours is a lower bound that some event attains |
| Auditor.ClustersMembers | server/services/scheduleOptimizer.js:463-478 | the clustering list is made of the entries for the keys |
| Auditor.ClusteringIff | server/services/scheduleOptimizer.js:463-478 | a location gets an entry iff it has two or more events spread over more than four hours; the entry counts them and saves spread times 15 |
| Auditor.GapsIff | server/services/scheduleOptimizer.js:487-500 | a gap entry exists iff two consecutive sorted events are more than 120 minutes apart; it names both |
| Auditor.GapsStep | server/services/scheduleOptimizer.js:487-500 | each pair adds its entry exactly when the gap exceeds 120 minutes |
| Auditor.AuditFacts | server/services/scheduleOptimizer.js:441-509 | no events that day iff no report; `hasImprovements` iff the list is non-empty; the report counts the day's events |
| Auditor.SuggestReorganization | server/services/scheduleOptimizer.js:431-509 | the method computes the audit of the audited day |
| Auditor.GroupByLocation | server/services/scheduleOptimizer.js:452-460 | the `forEach` builds a map whose keys, in insertion order, are the locations and whose groups are the events there |
| Auditor.ScatteredGroups | server/services/scheduleOptimizer.js:463-478 | the loop over the groups builds exactly the clustering list |
| Auditor.LongGaps | server/services/scheduleOptimizer.js:487-500 | the index loop builds exactly the gap list |
| ScheduleRoutes.ValidPriority | server/routes/schedule.js:36 | the validated priority is in [1, 10], a falsy one becomes 5, others are clamped |
| ScheduleRoutes.ValidateTask | server/routes/schedule.js:32-42 | every field is filled: summary or 'Untitled Task', description or '', travel mode or 'driving', duration or 30, priority in [1, 10], location and preferred time of day or null; `isFlexible` defaults to true only when undefined |
| ScheduleRoutes.ValidateIdempotent | server/routes/schedule.js:32-42 | validating a validated task changes nothing |
| ScheduleRoutes.ValidationKeepsSearch | server/routes/schedule.js:33-41 | validation keeps the searched length, the location, the due date and the priority weight |
| ScheduleRoutes.ValidateTasks | server/routes/schedule.js:32 | the map keeps the number and order of tasks |
| ScheduleRoutes.OptimizeRoute | server/routes/schedule.js:15-58 | an absent or empty task list is rejected; otherwise the plan of the validated tasks is returned |
| ScheduleRoutes.OptimizedTasksAreValidated | server/routes/schedule.js:32-50 | each task comes back validated at its own position, with a priority in [1, 10] and at most three slots |
| ScheduleRoutes.SuggestReorganizationRoute | server/routes/schedule.js:113-134 | an absent or empty event list is answered without auditing; otherwise the audit |
| ScheduleRoutes.SmartSchedule | server/routes/schedule.js:149-194 | blank text is rejected; no extracted task gives the empty answer; otherwise the plan of the extracted tasks |
| ScheduleRoutes.ScheduledMinutesAppend | server/routes/schedule.js:249-254 | scheduled time adds up over a split of the events |
| ScheduleRoutes.ScheduledMinutesPositive | server/routes/schedule.js:249-254 | events that do not run backwards give a non-negative total, and a positive one if any has length |
| ScheduleRoutes.Efficiency | server/routes/schedule.js:273-275 | the rounded percentage of the 720-minute day, 0 when nothing is scheduled |
| ScheduleRoutes.EfficiencyFacts | server/routes/schedule.js:273-275 | a full workday is 100 percent, and efficiency never falls as more is scheduled |
| ScheduleRoutes.TallyStep | server/routes/schedule.js:255-257 | counting one more event keeps the breakdown equal to the per-location counts |
| ScheduleRoutes.DayMetrics | server/routes/schedule.js:246-258 | the loop sums the minutes and counts events per non-empty location |
| ScheduleRoutes.AnalyzeDay | server/routes/schedule.js:209-276 | no events gives free time 0; no events that day gives free time 720; otherwise the analysis always succeeds with the totals, free time 720 minus total, the breakdown, the audit and the efficiency |
| ScheduleService.FormatDuration | src/services/scheduleService.js:167-174 | under an hour "m min"; otherwise "h h r m" with h = m div 60 and r = m mod 60, or "h h" when r is 0 |
| ScheduleService.FormatDurationRoundTrip | src/services/scheduleService.js:167-174 | reading the text of a non-negative duration back gives the duration |
| ScheduleService.GetPriorityInfo | src/services/scheduleService.js:179-189 | 9 and above is Urgent, 7 and 8 High, 4 to 6 Medium, anything else Low (each an iff) |
| ScheduleService.PriorityLabelMonotone | src/services/scheduleService.js:179-189 | a higher priority never gets a lower label |
| ScheduleHook.HasSchedulingIntent | src/hooks/useScheduleOptimization.js:124-137 | false for missing or empty text; otherwise true iff some keyword occurs in the lower-cased text |
| ScheduleHook.SchedulingIntentIgnoresCase | src/hooks/useScheduleOptimization.js:127 | lower-casing the message first changes nothing |
| ScheduleHook.KeywordShowsIntent | src/hooks/useScheduleOptimization.js:127-136 | a keyword written anywhere, in any case, shows intent |
| ScheduleHook.FormatEvent | src/hooks/useScheduleOptimization.js:24-29 | summary is title or else summary, times kept, location kept or null |
| ScheduleHook.FormatEvents | src/hooks/useScheduleOptimization.js:24-29 | one event per calendar item, in order |
| ScheduleHook.HookOptions | src/hooks/useScheduleOptimization.js:31-36 | every option is filled in |
| ScheduleHook.HookOptionsAgree | src/hooks/useScheduleOptimization.js:31-36 | the hook's defaults agree with the server's, except a 0 day count, which the hook turns into 7 |
| ScheduleHook.ScheduleOptimization.constructor | src/hooks/useScheduleOptimization.js:4-7 | no recommendations, not optimizing, no error |
| ScheduleHook.ScheduleOptimization.Settle | src/hooks/useScheduleOptimization.js:40-59 | a usable reply stores its recommendations; otherwise the failure message is recorded; `isOptimizing` ends false |
| ScheduleHook.ScheduleOptimization.OptimizeFromText | src/hooks/useScheduleOptimization.js:12-60 | blank text fails with no request and no state change; otherwise exactly one request with the reformatted events, and `isOptimizing` is false on every path; a usable reply stores its recommendations, while an unusable reply or a thrown request records its message and keeps the recommendations as they were |
| ScheduleHook.ScheduleOptimization.OptimizeFromTasks | src/hooks/useScheduleOptimization.js:65-111 | an absent or empty list fails with no request and no state change; otherwise exactly one request, `isOptimizing` false on every path, and the recommendations kept as they were unless the reply is usable, whether it was unusable or the request threw |
| ScheduleHook.ScheduleOptimization.ClearRecommendations | src/hooks/useScheduleOptimization.js:116-119 | recommendations and error are cleared |
| CalendarContext.ShouldUseCalendarContext | clearmind/server/services/openaiService.js:445-511 | a schedule keyword, or a question word with a time keyword, makes the result true |
| CalendarContext.ShouldUseCalendarContextCases | clearmind/server/services/openaiService.js:469-510 | a schedule pattern makes it true; without keyword or pattern it is exactly question-and-time, so a time keyword alone is not enough |
| CalendarContext.NormalizedTextDecides | clearmind/server/services/openaiService.js:446 | the decision depends only on the lower-cased, trimmed text |
| CalendarContext.TrimKeepsWord | clearmind/server/services/openaiService.js:446 | trimming keeps every occurrence of a word that begins and ends with a non-space |
| CalendarContext.ScheduleKeywordSuffices | clearmind/server/services/openaiService.js:448-496 | a schedule keyword written anywhere, in any case, brings in the calendar |
| CalendarContext.QuestionWithTimeSuffices | clearmind/server/services/openaiService.js:454-506 | so do a question word and a time keyword written anywhere |
| CalendarContext.FixNewTime | clearmind/server/services/openaiService.js:377-380 | a present `newTime` ends up containing '-05:00' or 'Z'; a compliant one is untouched; otherwise '-05:00' is appended |
| CalendarContext.FixNewTimeIdempotent | clearmind/server/services/openaiService.js:377-380 | fixing a fixed time changes nothing |
| FamilySchema.CreateFamilyGroup | server/db/schema.js:128-151 | exactly one member, the creator, an admin with every preference on |
| FamilySchema.CreateInvitation | server/db/schema.js:153-164 | pending, expiring seven days after creation |
| FamilySchema.CreateNotification | server/db/schema.js:166-177 | the given recipients and data, read by nobody |
| FamilyGroups.MemberIndex | server/routes/familyGroups.js:83 | a member is found iff the email belongs to the group, at a position holding it |
| FamilyGroups.MemberIndexUnique | server/routes/familyGroups.js:83 | in a valid group the member is found at its own position |
| FamilyGroups.CreatedGroupValid | server/routes/familyGroups.js:49-63 | a new group is valid and its creator is an admin |
| FamilyGroups.WithoutEmailRemovesOne | server/routes/familyGroups.js:583 | with unique emails, filtering out a member's email removes exactly that member |
| FamilyGroups.RecipientsMembers | server/routes/familyGroups.js:318-329 | recipients are exactly the other members whose preference for the type is on (unknown types: all others) |
| FamilyGroups.EnhancedEventData | server/routes/familyGroups.js:336-358 | group id and name are added; the description is the given one or ''; the location is kept when non-empty and dropped otherwise; other fields are kept and no other key is added |
| FamilyGroups.GroupIndex | server/routes/familyGroups.js:77 | the group found has the id; none found means no group has it |
| FamilyGroups.RemovalCheck | server/routes/familyGroups.js:566-581 | the removal checks in order: caller a member, only admins remove others, unknown member, last admin |
| FamilyGroups.LocalPart | server/routes/familyGroups.js:236 | the part of the email before the first '@' |
| FamilyGroups.MergePreferences | server/routes/familyGroups.js:536-539 | a field sent overrides, a field not sent keeps its value |
| FamilyGroups.MergePreferencesIdempotent | server/routes/familyGroups.js:536-539 | sending the same preferences twice is sending them once |
| FamilyGroups.NewestUnreadFacts | server/routes/familyGroups.js:474-480 | at most 20, all addressed to and unread by the user, newest first; all of them when 20 or fewer, and otherwise no unread notification left out is newer than one kept |
| FamilyGroups.NewestUnreadCount | server/routes/familyGroups.js:474-480 | `.slice(0, 20)` keeps exactly min(n, 20) of the n unread notifications, each taken from them |
| FamilyGroups.RemoveMemberValid | server/routes/familyGroups.js:576-583 | removing anyone but the last admin keeps the group valid |
| FamilyGroups.AcceptValid | server/routes/familyGroups.js:234-248 | the invitee of a pending invitation is not yet a member, and joining keeps the store valid |
| FamilyGroups.FamilyStore.constructor | server/routes/familyGroups.js:16 | empty, valid stores |
| FamilyGroups.FamilyStore.GroupsOf | server/routes/familyGroups.js:28-45 | 400 without an email; otherwise exactly the groups the user belongs to |
| FamilyGroups.FamilyStore.CreateGroup | server/routes/familyGroups.js:49-67 | missing fields give 400 and no change; otherwise one new valid group is appended |
| FamilyGroups.FamilyStore.UpdateGroup | server/routes/familyGroups.js:71-97 | 404 or 403 for a missing group or non-admin; an admin of an existing group always succeeds, and only the name (when given) and the description (when defined) change |
| FamilyGroups.FamilyStore.DeleteGroup | server/routes/familyGroups.js:101-128 | 400, 404 or 403 with no change; an admin of an existing group always succeeds, and exactly that group goes |
| FamilyGroups.FamilyStore.Invite | server/routes/familyGroups.js:132-176 | only an admin invites; a member or a duplicate pending invitation is refused; a request passing every check always appends one pending invitation |
| FamilyGroups.FamilyStore.PendingFor | server/routes/familyGroups.js:180-199 | exactly the user's pending invitations that have not expired |
| FamilyGroups.FamilyStore.AcceptInvitation | server/routes/familyGroups.js:203-266 | needs the invitee, pending status, no expiry and an existing group, and then always succeeds: one member joins with every preference on, the status is 'accepted' and the others are notified |
| FamilyGroups.FamilyStore.JoinGroup | server/routes/familyGroups.js:234-262 | the joined group, the accepted invitation and the 'member_joined' notification |
| FamilyGroups.FamilyStore.DeclineInvitation | server/routes/familyGroups.js:270-293 | only the invitee declines, whatever the current status; the invitee always succeeds and the status becomes 'declined' |
| FamilyGroups.FamilyStore.Notify | server/routes/familyGroups.js:297-376 | only members notify; with no recipients nothing is stored; otherwise one notification to the recipients |
| FamilyGroups.FamilyStore.AnswerEvent | server/routes/familyGroups.js:381-461 | only recipients answer, and a recipient always succeeds; the user is added once to `readBy` and to `acceptedBy` or `declinedBy` |
| FamilyGroups.FamilyStore.Unread | server/routes/familyGroups.js:465-486 | 400 without an email; otherwise exactly min(n, 20) of the user's n unread notifications, newest first, all of them when n <= 20, none left out newer than one kept |
| FamilyGroups.FamilyStore.MarkRead | server/routes/familyGroups.js:490-515 | only recipients mark, and a recipient always succeeds; the user is added to `readBy` at most once |
| FamilyGroups.FamilyStore.UpdatePreferences | server/routes/familyGroups.js:519-547 | 404 for a missing group or non-member; a member always succeeds and only the caller's own preferences change, by the merge |
| FamilyGroups.FamilyStore.RemoveMember | server/routes/familyGroups.js:551-601 | a non-admin removes only themselves, the last admin stays, a non-member email is an error; success removes exactly that email |
| FamilyGroups.FamilyStore.TakeOutMember | server/routes/familyGroups.js:583-595 | the member leaves, the others keep their order, and the 'member_left' notification goes to those left |
| UserSettings.CheckSettings | server/routes/userSettings.js:50-59 | falsy settings give 'Settings data is required'; settings pass iff `tts` and `empathy` are truthy |
| UserSettings.DefaultsAreWellFormed | server/db/schema.js:233-245 | the defaults pass the POST checks |
| UserSettings.MergeSettingsFacts | server/routes/userSettings.js:121-132 | both sections merge key by key (patch wins); other top-level keys come from the patch, else from the stored settings |
| UserSettings.MergeSettingsIdempotent | server/routes/userSettings.js:121-132 | applying the same patch twice gives what applying it once gave |
| UserSettings.EmptyPatchKeeps | server/routes/userSettings.js:121-132 | an empty patch keeps settings whose sections are objects |
| UserSettings.EntryIndex | server/db/schema.js:206 | `findIndex` gives the first entry of the user, or none when there is none |
| UserSettings.EntryIndexAt | server/db/schema.js:206 | an entry with no earlier one of the user is the one found |
| UserSettings.FilterKeepsUnique | server/db/schema.js:227 | filtering keeps users unique |
| UserSettings.SavingKeepsOthers | server/db/schema.js:204-223 | saving one user's settings leaves every other user's entry where it was, unchanged, and adds none for them |
| UserSettings.SettingsStore.constructor | server/db/schema.js:199-230 | an empty store |
| UserSettings.SettingsStore.Get | server/db/schema.js:199-202 | the user's entry if one exists, else none |
| UserSettings.SettingsStore.Save | server/db/schema.js:204-223 | an existing entry is replaced in place keeping `createdAt`; otherwise one is appended (the list `Saving` describes); other entries unchanged; users stay unique |
| UserSettings.SettingsStore.Delete | server/db/schema.js:225-230 | every entry of the user goes, the rest stay in order |
| UserSettings.SettingsStore.GetRoute | server/routes/userSettings.js:13-38 | the stored settings, or the defaults when none are stored |
| UserSettings.SettingsStore.PostRoute | server/routes/userSettings.js:41-74 | the POST checks, then a save of the given settings: the entries become `Saving` of the old ones, and every other user's settings stay as they were |
| UserSettings.SettingsStore.DeleteRoute | server/routes/userSettings.js:77-95 | the user's settings are gone |
| UserSettings.SettingsStore.PatchRoute | server/routes/userSettings.js:98-145 | the patch is merged onto the stored settings, or onto the defaults, and saved: the entries become `Saving` of the old ones, every other user's settings stay; a missing patch changes nothing |
| MessageProcessing.RecentEvents | src/hooks/useMessageProcessing.js:116-119 | the new events first, then the previous ones, at most 3 |
| MessageProcessing.RecentEventsTwice | src/hooks/useMessageProcessing.js:116-119 | adding two batches in turn is adding them as one batch |
| MessageProcessing.IsQuickResponse | src/hooks/useMessageProcessing.js:478-495 | false beyond 15 trimmed characters; otherwise true iff a quick word occurs |
| MessageProcessing.QuickWordIsQuick | src/hooks/useMessageProcessing.js:478-495 | a quick word alone, in any case and spacing, is quick |
| MessageProcessing.ShouldSkipTTS | src/hooks/useMessageProcessing.js:91-101 | true for missing or empty text; otherwise true iff the trimmed text starts with the check mark |
| MessageProcessing.SkipIgnoresSpacing | src/hooks/useMessageProcessing.js:100 | only the trimmed text matters |
| MessageProcessing.RescheduleReaction | src/hooks/useMessageProcessing.js:131-188 | a cancel word ends it; a found time updates the event; otherwise the user is asked again with the retry count one higher, or, at the last attempt, the operation is cleared; a reply is shown exactly when nothing is called |
| MessageProcessing.NoonCancels | src/hooks/useMessageProcessing.js:135-136 | "noon" contains "no", so it cancels |
| MessageProcessing.RescheduleGivesUp | src/hooks/useMessageProcessing.js:167-174 | after as many replies without a cancel word or a time as attempts are left, whatever they say, the operation is cleared |
| MessageProcessing.UnansweredCounts | src/hooks/useMessageProcessing.js:176-186 | before that, each such reply, whatever it says, adds one to the retry count and keeps the event pending |
| MessageProcessing.MovedTo | src/hooks/useMessageProcessing.js:259-300 | the moved event keeps its id, title and length |
| MessageProcessing.ReadConflictReply | src/hooks/useMessageProcessing.js:197-234 | confirm only without a reschedule word; then cancel; then reschedule; otherwise not understood (each an iff) |
| MessageProcessing.ConflictReaction | src/hooks/useMessageProcessing.js:193-321 | the reaction for each reading of a conflict reply |
| MessageProcessing.DeleteReaction | src/hooks/useMessageProcessing.js:326-358 | a confirm deletes the first event; a cancel clears; otherwise ask again and keep waiting |
| MessageProcessing.ReactionsKeepPendingValid | src/hooks/useMessageProcessing.js:131-358 | every reaction leaves the pending operation in a shape the hook gives it |
| MessageProcessing.ReactionTo | src/hooks/useMessageProcessing.js:527-540 | the handler for the pending kind, whose next state is well-shaped |
| MessageProcessing.Dispatch | src/hooks/useMessageProcessing.js:500-554 | blank text is ignored; a pending operation takes the message before update or regular handling |
| MessageProcessing.ReplaceTemporary | src/hooks/useMessageProcessing.js:77-86 | temporary messages go, the reply is appended last |
| MessageProcessing.Shown | src/hooks/useMessageProcessing.js:503-521 | the user's message, then a thinking message unless a quick reply answers a pending operation |
| MessageProcessing.ThinkingMessage | src/hooks/useMessageProcessing.js:13-19 | the pick is one of the thinking messages |
| MessageProcessing.MessageProcessor.constructor | src/hooks/useMessageProcessing.js:47-55 | no messages, nothing pending |
| MessageProcessing.MessageProcessor.ClearPendingOperation | src/hooks/useMessageProcessing.js:124-126 | NONE, no data, retry count 0 |
| MessageProcessing.MessageProcessor.AddToRecentEvents | src/hooks/useMessageProcessing.js:116-119 | the recent list becomes the bounded list above |
| MessageProcessing.MessageProcessor.AwaitReschedule | src/hooks/useMessageProcessing.js:160 | a reschedule waits for the event, retry count 0 |
| MessageProcessing.MessageProcessor.AwaitDeleteConfirmation | src/hooks/useMessageProcessing.js:430-436 | a delete waits for the events |
| MessageProcessing.MessageProcessor.AwaitConflictDecision | src/hooks/useMessageProcessing.js:440-446 | a conflict waits for the first conflicting event |
| MessageProcessing.MessageProcessor.ProcessMessage | src/hooks/useMessageProcessing.js:500-554 | the dispatch; a blank message changes nothing; otherwise shown, then handled by the pending handler |
| MessageProcessing.MessageProcessor.ShowMessage | src/hooks/useMessageProcessing.js:503-521 | the transcript becomes the shown one, nothing else changes |
| MessageProcessing.MessageProcessor.HandlePending | src/hooks/useMessageProcessing.js:527-540 | the reaction's reply, next state and call are applied; created events enter the recent list |
| Lists.AddOnce | server/routes/familyGroups.js:398-408 | `if (!includes) push`: the value is in, nothing else added, no duplicate made |

## Left out

- Floating point: durations, efficiency and scores are integers of minutes. Efficiency rounds half up. The 0.95 speech speed is an exact real.
- Local time zones and Date rollover: days and hours are plain arithmetic on an integer clock (`toDateString`, `getHours`, `setDate`). UTC and local day are not told apart. The ISO date strings of the responses are not modelled.
- Locale formatting: `formattedDate` and `formattedTime` of the notify route are not modelled.
- `NaN` and malformed inputs: an event without a parseable start or end, a task whose `duration` is not a number, and so on.
- Every `catch` and 500 path caused by a thrown exception, except the ones that follow from the modelled logic (DeclineInvitation and MarkRead without an email, PatchRoute without a patch).
- The language-model calls (commute estimate, task extraction, update intent) and the calendar glue (`handleEventUpdate`, `handleMultipleEventsCreation`, `handleEventDeletion`) are parameters or recorded effects. `findAfter` (the "after X" event lookup of the conflict handler) is an oracle too.
- `handleUpdateRequest` and `handleRegularMessage` of `useMessageProcessing`: the model routes to them (`ToUpdateOrRegular`) but not through them, because both are language-model round trips.
- `cleanTextForTTS` and speech playback: speech is output only.
- The `/extract-tasks` route: it is only a call to the task extractor.
- The `Array.isArray` wrapping in `addToRecentEvents`: events are always a sequence.
- Random choices: the thinking message pick is a parameter. `generateId` is a counter, so ids are distinct numbers rather than random strings.
- Absent versus empty `acceptedBy` and `declinedBy`: they start empty, which behaves the same.
- Null versus undefined: both are `None`, so null is not told apart for `isFlexible` or for the `includeWeekends` and `minimizeCommute` options. The source keeps a null `isFlexible` as null, where the model makes it true. The hook forwards a null `includeWeekends` or `minimizeCommute` to the server, where no destructuring default applies, so the source skips weekends or commute lookup; the model takes the default (true) instead.
- JavaScript object key order: the keys of `locationGroups` are kept in first-appearance order. Settings objects are maps.
- Spreading a non-object value in the PATCH merge: the model adds no keys for a string or number section, where JavaScript spreads a string's characters under the keys "0", "1", and so on.
- Extra preference keys sent to UpdatePreferences: the four known ones are modelled.
- Asynchronous interleaving of requests and React state batching: each request or call is one sequential step.
- `IsSpace` is the ASCII subset of the characters `trim` removes. `ToLower` folds only ASCII letters.
- The regular expressions of `shouldUseCalendarContext` are modelled as ordered occurrences of alternation groups with no line break between them.
- MessageProcessing.IsQuickResponse: the 15-character limit counts characters, where `trim().length` counts UTF-16 code units, so a character outside the Basic Multilingual Plane (an emoji, say) counts once instead of twice.
- MessageProcessing.IsQuickResponse: the `===` disjunct is not modelled separately, because containment already covers equality.
- MessageProcessing.ConflictReaction: a parsed `newDate` without `newTime` moves the event to its own start, as the source does; the date itself is not applied.
- Auditor.SuggestionText: suggestions are kept as a template datatype, and the rendered text has no contract.
- ScheduleRoutes.ValidateTask: the due date is an integer instant, not the request's date string, so `dueDate || null` turning an empty string into null has no counterpart beyond an absent due date; a due date of 0 is kept.
