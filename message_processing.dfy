/** The conversation control of the chat client: which message goes where,
    the one operation that may wait for the user's answer (a reschedule, a
    conflict decision or a delete confirmation), the short list of recently
    created events, and the two text tests that decide whether to show a
    "thinking" message and whether to speak a reply. The language-model and
    calendar calls are parameters; their effects are recorded, not run. */
module MessageProcessing {
  import opened Text
  import opened Lists

  // ----- events and the pending operation -----

  /** A calendar event; instants are integers. */
  datatype CalendarEvent = CalendarEvent(id: string, summary: string, start: int, end: int)

  const MaxRecentEvents: nat := 3
  const MaxRescheduleAttempts: nat := 3

  /** `PENDING_STATES`: none, reschedule, conflict, delete. */
  datatype PendingKind = NoPending | Reschedule | Conflict | Delete

  /** `{ type, data, retryCount }`; `data` is the event to reschedule, the
      conflicting event, or the events to delete, and empty for none. */
  datatype PendingOperation = PendingOperation(kind: PendingKind, data: seq<CalendarEvent>, retryCount: nat)

  /** The state `clearPendingOperation()` sets. */
  const Cleared: PendingOperation := PendingOperation(NoPending, [], 0)

  /** The shapes the hook ever gives the pending operation: nothing pending
      holds nothing; a reschedule or a conflict holds one event; only a
      reschedule counts retries, and never up to the maximum. */
  predicate PendingValid(p: PendingOperation) {
    (p.kind == NoPending ==> p == Cleared)
    && (p.kind in {Reschedule, Conflict} ==> |p.data| == 1)
    && (p.kind != Reschedule ==> p.retryCount == 0)
    && p.retryCount < MaxRescheduleAttempts
  }

  // ----- recent events -----

  /** `[...events, ...prev].slice(0, MAX_RECENT_EVENTS)`. */
  function RecentEvents(events: seq<CalendarEvent>, prev: seq<CalendarEvent>): (r: seq<CalendarEvent>)
    ensures |r| <= MaxRecentEvents
    ensures |r| == if |events| + |prev| < MaxRecentEvents then |events| + |prev| else MaxRecentEvents
    ensures forall i :: 0 <= i < |r| && i < |events| ==> r[i] == events[i]
    ensures forall i :: |events| <= i < |r| ==> r[i] == prev[i - |events|]
  {
    var all := events + prev;
    if |all| <= MaxRecentEvents then all else all[..MaxRecentEvents]
  }

  /** Adding two batches one after the other is adding them as one batch,
      the later batch first. */
  lemma RecentEventsTwice(a: seq<CalendarEvent>, b: seq<CalendarEvent>, prev: seq<CalendarEvent>)
    ensures RecentEvents(b, RecentEvents(a, prev)) == RecentEvents(b + a, prev)
  {
    var once := RecentEvents(a, prev);
    var lhs := RecentEvents(b, once);
    var rhs := RecentEvents(b + a, prev);
    assert |lhs| == |rhs|;
    forall i | 0 <= i < |lhs| ensures lhs[i] == rhs[i] {
      if i < |b| {
      } else if i - |b| < |a| {
        assert lhs[i] == once[i - |b|];
      } else {
        assert lhs[i] == once[i - |b|] == prev[i - |b| - |a|];
      }
    }
  }

  // ----- words -----

  const RescheduleCancelWords: seq<string> := ["no", "wrong", "not that", "different", "cancel", "nevermind"]
  const ConflictConfirmWords: seq<string> := ["add it", "add anyway", "yes", "yeah", "sure", "ok", "okay", "go ahead", "do it"]
  const ConflictCancelWords: seq<string> := ["cancel", "no", "nope", "nevermind", "don't"]
  const RescheduleWords: seq<string> := ["after", "different time", "later", "reschedule", "move it"]
  const DeleteConfirmWords: seq<string> := ["yes", "yeah", "sure", "ok", "okay", "delete it", "remove it", "confirm"]
  const DeleteCancelWords: seq<string> := ["no", "nope", "cancel", "nevermind", "don't"]
  const QuickWords: seq<string> := [
    "yes", "yeah", "yep", "sure", "ok", "okay",
    "no", "nope", "nah",
    "cancel", "nevermind", "never mind",
    "confirm", "accept", "decline",
    "add it", "add anyway", "go ahead", "do it"
  ]

  const ThinkingMessages: seq<string> := ["Just a moment...", "One second...", "Got it...", "I see...", "One moment..."]

  /** Some word of the list occurs in the lower-cased text. */
  predicate Says(text: string, words: seq<string>) {
    IncludesAny(ToLower(text), words)
  }

  // ----- the two text tests -----

  /** `isQuickResponse(text)`: a short reply (at most fifteen characters once
      lower-cased and trimmed) that contains a quick word. The source also
      tests equality with the word, which containment already covers. */
  function IsQuickResponse(text: string): (r: bool)
    ensures |Trim(ToLower(text))| > 15 ==> !r
    ensures |Trim(ToLower(text))| <= 15 ==>
              (r <==> exists k :: 0 <= k < |QuickWords| && Includes(Trim(ToLower(text)), QuickWords[k]))
  {
    var lower := Trim(ToLower(text));
    |lower| <= 15 && IncludesAny(lower, QuickWords)
  }

  lemma QuickWordsShort()
    ensures forall k :: 0 <= k < |QuickWords| ==> |QuickWords[k]| <= 15
  {
  }

  /** A reply that is exactly a quick word, in any case and with any spacing
      around it, is a quick response. */
  lemma QuickWordIsQuick(text: string, k: int)
    requires 0 <= k < |QuickWords| && Trim(ToLower(text)) == QuickWords[k]
    ensures IsQuickResponse(text)
  {
    var w := QuickWords[k];
    QuickWordsShort();
    ContainsSelf("", w, "");
    assert "" + w + "" == w;
    IncludesAnyWitness(w, QuickWords, k);
  }

  const CheckMark: char := '\U{2713}'

  /** `shouldSkipTTS(text)`: nothing to say, or a visual-only confirmation
      whose trimmed text starts with a check mark. */
  function ShouldSkipTTS(text: Option<string>): (r: bool)
    ensures !Present(text) ==> r
    ensures Present(text) ==> (r <==> StartsWith(Trim(text.value), [CheckMark]))
  {
    !Present(text) || (Trim(text.value) != [] && Trim(text.value)[0] == CheckMark)
  }

  /** Only the trimmed text of a reply that is not blank matters. */
  lemma SkipIgnoresSpacing(text: string)
    requires !Blank(text)
    ensures ShouldSkipTTS(Some(Trim(text))) == ShouldSkipTTS(Some(text))
  {
    TrimIdempotent(text);
    assert Trim(text) != [];
  }

  // ----- what a reply to a pending operation does -----

  /** What `checkUpdateIntent` found in the reply: a new time, a new date. */
  datatype UpdateAnalysis = UpdateAnalysis(newTime: Option<int>, newDate: Option<int>)

  predicate TimeFound(a: UpdateAnalysis) {
    a.newTime.Some? || a.newDate.Some?
  }

  /** A call into the calendar glue. */
  datatype Effect =
    | NoEffect
    | UpdateEvent(event: CalendarEvent, analysis: UpdateAnalysis)
    | CreateEvents(events: seq<CalendarEvent>)
    | DeleteEvent(event: CalendarEvent)

  /** The answer to one reply: the message that replaces the temporary one
      (none when the calendar glue writes its own), the call made, and the
      pending operation afterwards. */
  datatype Reaction = Reaction(reply: Option<string>, effect: Effect, next: PendingOperation)

  const WhichEventMessage: string := "No problem! Which event did you want to reschedule?"
  const GiveUpMessage: string := "I'm having trouble understanding the time. Let's try again from the start - which event would you like to reschedule?"
  const SayTimeAgainMessage: string := "I'm not sure about that time. Could you say it again? For example, 'tomorrow at 3pm' or 'next Monday at 10am'."
  const WontAddMessage: string := "No problem, I won't add that event."
  const AddOrCancelMessage: string := "I didn't catch that. Would you like me to add it anyway, or would you prefer to cancel?"
  const WhenInsteadMessage: string := "When would you like to schedule it instead? For example, 'tomorrow at 2pm' or 'next Monday at 10am'."
  const WontDeleteMessage: string := "Okay, I won't delete that event."
  const YesOrNoMessage: string := "I didn't catch that. Would you like me to delete this event? Please say yes or no."

  /** `handlePendingReschedule(text)`: a cancel word ends the operation; a
      time found updates the event; otherwise the user is asked again, at
      most `MAX_RESCHEDULE_ATTEMPTS` times in all. */
  function RescheduleReaction(event: CalendarEvent, retryCount: nat, text: string, analysis: UpdateAnalysis): (r: Reaction)
    ensures Says(text, RescheduleCancelWords) ==> r == Reaction(Some(WhichEventMessage), NoEffect, Cleared)
    ensures !Says(text, RescheduleCancelWords) && TimeFound(analysis) ==> r.effect == UpdateEvent(event, analysis) && r.reply.None?
    ensures !Says(text, RescheduleCancelWords) && !TimeFound(analysis) && retryCount + 1 < MaxRescheduleAttempts ==>
              r == Reaction(Some(SayTimeAgainMessage), NoEffect, PendingOperation(Reschedule, [event], retryCount + 1))
    ensures !Says(text, RescheduleCancelWords) && !TimeFound(analysis) && retryCount + 1 >= MaxRescheduleAttempts ==>
              r == Reaction(Some(GiveUpMessage), NoEffect, Cleared)
    ensures r.effect.NoEffect? <==> r.reply.Some?
    ensures r.next == Cleared
            || (r.next == PendingOperation(Reschedule, [event], retryCount + 1)
                && !Says(text, RescheduleCancelWords) && !TimeFound(analysis) && retryCount + 1 < MaxRescheduleAttempts)
  {
    if Says(text, RescheduleCancelWords) then Reaction(Some(WhichEventMessage), NoEffect, Cleared)
    else if TimeFound(analysis) then Reaction(None, UpdateEvent(event, analysis), Cleared)
    else if retryCount >= MaxRescheduleAttempts - 1 then Reaction(Some(GiveUpMessage), NoEffect, Cleared)
    else Reaction(Some(SayTimeAgainMessage), NoEffect, PendingOperation(Reschedule, [event], retryCount + 1))
  }

  /** "noon" contains "no", so a reply of "noon" cancels the reschedule
      instead of giving its time. */
  lemma NoonCancels(event: CalendarEvent, retryCount: nat, analysis: UpdateAnalysis)
    ensures RescheduleReaction(event, retryCount, "noon", analysis) == Reaction(Some(WhichEventMessage), NoEffect, Cleared)
  {
    LowerKeepsLowerCase("noon");
    ContainsSelf("", "no", "on");
    assert "" + "no" + "on" == "noon";
    IncludesAnyWitness("noon", RescheduleCancelWords, 0);
  }

  /** Replies in a row to a pending reschedule, for none of which a time is
      found; the operation left afterwards. */
  function Unanswered(event: CalendarEvent, retryCount: nat, replies: seq<string>): PendingOperation
    decreases |replies|
  {
    if replies == [] then PendingOperation(Reschedule, [event], retryCount)
    else
      var p := Unanswered(event, retryCount, replies[..|replies| - 1]);
      if p.kind != Reschedule then p
      else RescheduleReaction(event, p.retryCount, replies[|replies| - 1], UpdateAnalysis(None, None)).next
  }

  /** The user is asked for the time at most three times: after as many
      replies without a cancel word or a time as attempts are left, nothing
      is pending any more. */
  lemma {:induction false} RescheduleGivesUp(event: CalendarEvent, retryCount: nat, replies: seq<string>)
    requires retryCount < MaxRescheduleAttempts && |replies| >= MaxRescheduleAttempts - retryCount
    requires forall t :: t in replies ==> !Says(t, RescheduleCancelWords)
    ensures Unanswered(event, retryCount, replies) == Cleared
    decreases |replies|
  {
    var init := replies[..|replies| - 1];
    assert forall t :: t in init ==> t in replies;
    if |init| >= MaxRescheduleAttempts - retryCount {
      RescheduleGivesUp(event, retryCount, init);
    } else {
      UnansweredCounts(event, retryCount, init);
      assert replies[|replies| - 1] in replies;
    }
  }

  /** Before giving up, each reply without a cancel word or a time adds one
      to the retry count and keeps the event pending. */
  lemma {:induction false} UnansweredCounts(event: CalendarEvent, retryCount: nat, replies: seq<string>)
    requires retryCount + |replies| < MaxRescheduleAttempts
    requires forall t :: t in replies ==> !Says(t, RescheduleCancelWords)
    ensures Unanswered(event, retryCount, replies) == PendingOperation(Reschedule, [event], retryCount + |replies|)
    decreases |replies|
  {
    if replies != [] {
      var init := replies[..|replies| - 1];
      assert forall t :: t in init ==> t in replies;
      UnansweredCounts(event, retryCount, init);
      assert replies[|replies| - 1] in replies;
    }
  }

  /** The event moved to start at `start`, keeping its length. */
  function MovedTo(event: CalendarEvent, start: int): (r: CalendarEvent)
    ensures r.id == event.id && r.summary == event.summary
    ensures r.start == start && r.end - r.start == event.end - event.start
  {
    event.(start := start, end := start + (event.end - event.start))
  }

  /** How a reply to a conflict is read. */
  datatype ConflictChoice = AddAnyway | DontAdd | Move | NotUnderstood

  /** Confirmation counts only when no reschedule word is present; a cancel
      word comes next, then a reschedule word. */
  function ReadConflictReply(text: string): (r: ConflictChoice)
    ensures r == AddAnyway <==> Says(text, ConflictConfirmWords) && !Says(text, RescheduleWords)
    ensures r == DontAdd <==>
              !(Says(text, ConflictConfirmWords) && !Says(text, RescheduleWords)) && Says(text, ConflictCancelWords)
    ensures r == Move <==> !Says(text, ConflictCancelWords) && Says(text, RescheduleWords)
    ensures r == NotUnderstood <==> !Says(text, ConflictConfirmWords) && !Says(text, ConflictCancelWords) && !Says(text, RescheduleWords)
  {
    if Says(text, ConflictConfirmWords) && !Says(text, RescheduleWords) then AddAnyway
    else if Says(text, ConflictCancelWords) then DontAdd
    else if Says(text, RescheduleWords) then Move
    else NotUnderstood
  }

  /** `handlePendingConflict(text)`. To move the event, a named event to go
      after (`afterEvent`, found by the "after ..." test) comes first, then a
      time found in the reply; a date found alone keeps the old start. */
  function ConflictReaction(event: CalendarEvent, text: string, afterEvent: Option<CalendarEvent>,
                            analysis: UpdateAnalysis): (r: Reaction)
    ensures ReadConflictReply(text) == AddAnyway ==> r == Reaction(None, CreateEvents([event]), Cleared)
    ensures ReadConflictReply(text) == DontAdd ==> r == Reaction(Some(WontAddMessage), NoEffect, Cleared)
    ensures ReadConflictReply(text) == NotUnderstood ==>
              r == Reaction(Some(AddOrCancelMessage), NoEffect, PendingOperation(Conflict, [event], 0))
    ensures ReadConflictReply(text) == Move ==>
              (r.effect.CreateEvents? <==> afterEvent.Some? || TimeFound(analysis))
              && (r.effect.CreateEvents? ==>
                    r.next == Cleared && |r.effect.events| == 1
                    && r.effect.events[0].end - r.effect.events[0].start == event.end - event.start
                    && r.effect.events[0].id == event.id)
              && (afterEvent.Some? ==> r.effect.events[0].start == afterEvent.value.end)
              && (afterEvent.None? && analysis.newTime.Some? ==> r.effect.events[0].start == analysis.newTime.value)
              && (afterEvent.None? && analysis.newTime.None? && analysis.newDate.Some? ==> r.effect.events[0] == event)
              && (r.effect.NoEffect? ==> r.next == PendingOperation(Conflict, [event], 0))
  {
    match ReadConflictReply(text)
    case AddAnyway => Reaction(None, CreateEvents([event]), Cleared)
    case DontAdd => Reaction(Some(WontAddMessage), NoEffect, Cleared)
    case NotUnderstood => Reaction(Some(AddOrCancelMessage), NoEffect, PendingOperation(Conflict, [event], 0))
    case Move =>
      if afterEvent.Some? then Reaction(None, CreateEvents([MovedTo(event, afterEvent.value.end)]), Cleared)
      else if TimeFound(analysis) then
        var start := if analysis.newTime.Some? then analysis.newTime.value else event.start;
        Reaction(None, CreateEvents([MovedTo(event, start)]), Cleared)
      else Reaction(Some(WhenInsteadMessage), NoEffect, PendingOperation(Conflict, [event], 0))
  }

  /** `handlePendingDelete(text)`: a confirmation deletes the first event
      (when there is one), a cancel word keeps it; either ends the
      operation. Anything else asks again. */
  function DeleteReaction(events: seq<CalendarEvent>, text: string): (r: Reaction)
    ensures Says(text, DeleteConfirmWords) ==>
              r.reply.None? && r.next == Cleared
              && (events != [] ==> r.effect == DeleteEvent(events[0])) && (events == [] ==> r.effect.NoEffect?)
    ensures !Says(text, DeleteConfirmWords) ==> r.effect.NoEffect? && r.reply.Some?
    ensures !Says(text, DeleteConfirmWords) && Says(text, DeleteCancelWords) ==> r.next == Cleared && r.reply == Some(WontDeleteMessage)
    ensures !Says(text, DeleteConfirmWords) && !Says(text, DeleteCancelWords) ==>
              r.next == PendingOperation(Delete, events, 0) && r.reply == Some(YesOrNoMessage)
  {
    if Says(text, DeleteConfirmWords) then
      Reaction(None, if events != [] then DeleteEvent(events[0]) else NoEffect, Cleared)
    else if Says(text, DeleteCancelWords) then Reaction(Some(WontDeleteMessage), NoEffect, Cleared)
    else Reaction(Some(YesOrNoMessage), NoEffect, PendingOperation(Delete, events, 0))
  }

  /** Every reaction leaves the pending operation in a shape the hook gives it. */
  lemma ReactionsKeepPendingValid(p: PendingOperation, text: string, afterEvent: Option<CalendarEvent>, analysis: UpdateAnalysis)
    requires PendingValid(p) && p.kind != NoPending
    ensures p.kind == Reschedule ==> PendingValid(RescheduleReaction(p.data[0], p.retryCount, text, analysis).next)
    ensures p.kind == Conflict ==> PendingValid(ConflictReaction(p.data[0], text, afterEvent, analysis).next)
    ensures p.kind == Delete ==> PendingValid(DeleteReaction(p.data, text).next)
  {
  }

  /** The reaction of the handler for the pending operation's kind. */
  function ReactionTo(p: PendingOperation, text: string, afterEvent: Option<CalendarEvent>, analysis: UpdateAnalysis): (r: Reaction)
    requires PendingValid(p) && p.kind != NoPending
    ensures PendingValid(r.next)
  {
    ReactionsKeepPendingValid(p, text, afterEvent, analysis);
    match p.kind
    case Reschedule => RescheduleReaction(p.data[0], p.retryCount, text, analysis)
    case Conflict => ConflictReaction(p.data[0], text, afterEvent, analysis)
    case Delete => DeleteReaction(p.data, text)
  }

  // ----- dispatch -----

  /** Where `processMessage(text)` sends a message. */
  datatype Route = Ignored | ToReschedule | ToConflict | ToDelete | ToUpdateOrRegular

  /** Blank text is dropped; a pending operation takes the message before any
      update or regular processing. */
  function Dispatch(text: Option<string>, kind: PendingKind): (r: Route)
    ensures r == Ignored <==> !Present(text) || Blank(text.value)
    ensures r != Ignored ==> (r == ToUpdateOrRegular <==> kind == NoPending)
    ensures r == ToReschedule <==> r != Ignored && kind == Reschedule
    ensures r == ToConflict <==> r != Ignored && kind == Conflict
    ensures r == ToDelete <==> r != Ignored && kind == Delete
  {
    if !Present(text) || Blank(text.value) then Ignored
    else match kind
      case Reschedule => ToReschedule
      case Conflict => ToConflict
      case Delete => ToDelete
      case NoPending => ToUpdateOrRegular
  }

  // ----- the chat transcript -----

  datatype Role = User | Assistant

  datatype Message = Message(role: Role, content: string, isTemporary: bool)

  function WithoutTemporary(ms: seq<Message>): seq<Message> {
    Filter(ms, (m: Message) => !m.isTemporary)
  }

  /** `replaceTemporaryMessage(content)`: the temporary messages go, the reply
      comes last. */
  function ReplaceTemporary(ms: seq<Message>, content: string): (r: seq<Message>)
    ensures |r| >= 1 && r[|r| - 1] == Message(Assistant, content, false)
    ensures forall m :: m in r ==> !m.isTemporary
    ensures forall m :: m in r[..|r| - 1] <==> m in ms && !m.isTemporary
  {
    FilterMembers(ms, (m: Message) => !m.isTemporary);
    var r := WithoutTemporary(ms) + [Message(Assistant, content, false)];
    assert r[..|r| - 1] == WithoutTemporary(ms);
    r
  }

  /** The transcript after a reaction. */
  function Answered(ms: seq<Message>, reply: Option<string>): seq<Message> {
    if reply.Some? then ReplaceTemporary(ms, reply.value) else WithoutTemporary(ms)
  }

  /** The transcript once the user's message is in: the message, then a
      temporary thinking message unless a quick reply answers a pending
      operation. */
  function Shown(ms: seq<Message>, text: string, hasPending: bool, thinkingPick: nat): (r: seq<Message>)
    ensures |r| > |ms| && r[..|ms| + 1] == ms + [Message(User, text, false)]
    ensures hasPending && IsQuickResponse(text) ==> |r| == |ms| + 1
    ensures !(hasPending && IsQuickResponse(text)) ==>
              |r| == |ms| + 2 && r[|ms| + 1].isTemporary && r[|ms| + 1].content in ThinkingMessages
  {
    var withUser := ms + [Message(User, text, false)];
    if hasPending && IsQuickResponse(text) then withUser
    else withUser + [Message(Assistant, ThinkingMessage(thinkingPick), true)]
  }

  /** `THINKING_MESSAGES[Math.floor(Math.random() * length)]`, the random
      number given as `pick`. */
  function ThinkingMessage(pick: nat): (m: string)
    ensures m in ThinkingMessages
  {
    ThinkingMessages[pick % |ThinkingMessages|]
  }

  // ----- the hook -----

  /** The state of `useMessageProcessing`. */
  class MessageProcessor {
    var messages: seq<Message>
    var pending: PendingOperation
    var recentEvents: seq<CalendarEvent>
    /** The calls made into the calendar glue so far. */
    ghost var effects: seq<Effect>

    ghost predicate Valid()
      reads this
    {
      PendingValid(pending)
    }

    constructor(recentEvents: seq<CalendarEvent>)
      ensures Valid()
      ensures messages == [] && pending == Cleared && this.recentEvents == recentEvents && effects == []
    {
      messages := [];
      pending := Cleared;
      this.recentEvents := recentEvents;
      effects := [];
    }

    /** `clearPendingOperation()`. */
    method ClearPendingOperation()
      modifies this
      ensures Valid() && pending == Cleared
      ensures messages == old(messages) && recentEvents == old(recentEvents) && effects == old(effects)
    {
      pending := Cleared;
    }

    /** `addToRecentEvents(events)`. */
    method AddToRecentEvents(events: seq<CalendarEvent>)
      modifies this
      ensures recentEvents == RecentEvents(events, old(recentEvents))
      ensures messages == old(messages) && pending == old(pending) && effects == old(effects)
    {
      var all := events + recentEvents;
      if |all| > MaxRecentEvents {
        all := all[..MaxRecentEvents];
      }
      recentEvents := all;
    }

    /** The calendar glue found an event whose new time it must ask for. */
    method AwaitReschedule(event: CalendarEvent)
      modifies this
      ensures Valid() && pending == PendingOperation(Reschedule, [event], 0)
      ensures messages == old(messages) && recentEvents == old(recentEvents) && effects == old(effects)
    {
      pending := PendingOperation(Reschedule, [event], 0);
    }

    /** A regular reply asked to confirm a deletion. */
    method AwaitDeleteConfirmation(events: seq<CalendarEvent>)
      modifies this
      ensures Valid() && pending == PendingOperation(Delete, events, 0)
      ensures messages == old(messages) && recentEvents == old(recentEvents) && effects == old(effects)
    {
      pending := PendingOperation(Delete, events, 0);
    }

    /** A regular reply found a conflict; the first conflicting event waits. */
    method AwaitConflictDecision(eventsData: seq<CalendarEvent>)
      requires eventsData != []
      modifies this
      ensures Valid() && pending == PendingOperation(Conflict, [eventsData[0]], 0)
      ensures messages == old(messages) && recentEvents == old(recentEvents) && effects == old(effects)
    {
      pending := PendingOperation(Conflict, [eventsData[0]], 0);
    }

    /** `processMessage(text)` up to the pending-operation handlers. The user's
        message is shown, then a temporary thinking message unless a quick
        reply answers a pending operation. A pending operation takes the
        reply and its reaction is applied; created events join the recent
        ones. With nothing pending the message goes on to the update and
        regular processing, which are not part of this model. */
    method ProcessMessage(text: Option<string>, thinkingPick: nat,
                          checkUpdateIntent: (string, seq<CalendarEvent>) -> UpdateAnalysis,
                          findAfter: string -> Option<CalendarEvent>,
                          createEvents: seq<CalendarEvent> -> seq<CalendarEvent>)
      returns (route: Route)
      requires Valid()
      modifies this
      ensures Valid()
      ensures route == Dispatch(text, old(pending).kind)
      ensures route == Ignored ==> unchanged(this)
      ensures route != Ignored ==>
                var shown := Shown(old(messages), text.value, old(pending).kind != NoPending, thinkingPick);
                (route == ToUpdateOrRegular ==>
                   messages == shown && pending == old(pending) && recentEvents == old(recentEvents) && effects == old(effects))
                && (route != ToUpdateOrRegular ==>
                      var reaction := ReactionTo(old(pending), text.value, findAfter(text.value), checkUpdateIntent(text.value, old(pending).data));
                      messages == Answered(shown, reaction.reply)
                      && pending == reaction.next
                      && effects == old(effects) + [reaction.effect]
                      && recentEvents == (if reaction.effect.CreateEvents?
                                          then RecentEvents(createEvents(reaction.effect.events), old(recentEvents))
                                          else old(recentEvents)))
    {
      route := Dispatch(text, pending.kind);
      if route == Ignored {
        return;
      }
      ShowMessage(text.value, thinkingPick);
      if route == ToUpdateOrRegular {
        return;
      }
      HandlePending(text.value, findAfter(text.value), checkUpdateIntent(text.value, pending.data), createEvents);
    }

    /** The user's message, then a temporary thinking message unless a quick
        reply answers a pending operation. */
    method ShowMessage(text: string, thinkingPick: nat)
      modifies this
      ensures messages == Shown(old(messages), text, old(pending).kind != NoPending, thinkingPick)
      ensures pending == old(pending) && recentEvents == old(recentEvents) && effects == old(effects)
    {
      messages := Shown(messages, text, pending.kind != NoPending, thinkingPick);
    }

    /** `handlePendingReschedule`, `handlePendingConflict` or
        `handlePendingDelete`, by the kind of the pending operation. */
    method HandlePending(text: string, afterEvent: Option<CalendarEvent>, analysis: UpdateAnalysis,
                         createEvents: seq<CalendarEvent> -> seq<CalendarEvent>)
      requires Valid() && pending.kind != NoPending
      modifies this
      ensures Valid()
      ensures var reaction := ReactionTo(old(pending), text, afterEvent, analysis);
              messages == Answered(old(messages), reaction.reply)
              && pending == reaction.next
              && effects == old(effects) + [reaction.effect]
              && recentEvents == (if reaction.effect.CreateEvents?
                                  then RecentEvents(createEvents(reaction.effect.events), old(recentEvents))
                                  else old(recentEvents))
    {
      var reaction := ReactionTo(pending, text, afterEvent, analysis);
      messages := Answered(messages, reaction.reply);
      effects := effects + [reaction.effect];
      if reaction.effect.CreateEvents? {
        AddToRecentEvents(createEvents(reaction.effect.events));
      }
      pending := reaction.next;
    }
  }
}
