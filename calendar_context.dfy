/** Two rules of the language-model service that need no model: whether a
    message is about the user's schedule, so that calendar events should go
    into the prompt, and the time-zone suffix added to a new time the model
    returns without one. */
module CalendarContext {
  import opened Text

  const ScheduleKeywords: seq<string> := [
    "busy", "schedule", "appointment", "appointments", "free", "available",
    "calendar", "planned", "booked", "meeting", "meetings", "event", "events",
    "gap", "time for", "fit in", "room for", "open"
  ]

  const TimeKeywords: seq<string> := [
    "today", "tomorrow", "tonight", "this week", "next week",
    "this morning", "this afternoon", "this evening",
    "morning", "afternoon", "evening", "night",
    "monday", "tuesday", "wednesday", "thursday", "friday", "saturday", "sunday"
  ]

  const QuestionWords: seq<string> := ["what", "when", "how", "do i", "am i", "can i", "could i"]

  /** A pattern `g1.*g2.*...` where each group is an alternation of words,
      such as `/am i.*(free|busy|available|open)/`. */
  type Pattern = seq<seq<string>>

  const SchedulePatterns: seq<Pattern> := [
    [["what"], ["do i have", "on my", "is my", "are my"]],
    [["am i"], ["free", "busy", "available", "open"]],
    [["do i have"], ["any", "time", "room"]],
    [["when"], ["am i", "can i", "could i", "do i"]],
    [["how"], ["busy", "many", "much"]],
    [["can i"], ["fit", "schedule", "add", "squeeze"]],
    [["show", "tell", "give"], ["me", "my"], ["schedule", "calendar", "appointments", "events"]]
  ]

  /** The characters `.` does not match in a JavaScript regular expression. */
  predicate IsLineTerminator(c: char) {
    c == '\n' || c == '\r' || c == '\U{2028}' || c == '\U{2029}'
  }

  /** `.*` can cover `s[i..j]`. */
  predicate NoLineBreak(s: string, i: int, j: int)
    requires 0 <= i <= j <= |s|
  {
    forall m :: i <= m < j ==> !IsLineTerminator(s[m])
  }

  /** From position `i` on, the groups occur one after the other, each after
      a stretch without line breaks. */
  predicate FollowedBy(s: string, groups: Pattern, i: nat)
    requires i <= |s|
    decreases |groups|
  {
    groups == []
    || exists k, j :: 0 <= k < |groups[0]| && i <= j && j + |groups[0][k]| <= |s|
                      && NoLineBreak(s, i, j) && OccursAt(s, groups[0][k], j)
                      && FollowedBy(s, groups[1..], j + |groups[0][k]|)
  }

  /** `pattern.test(s)`: the pattern matches somewhere in `s`. */
  predicate Matches(s: string, pattern: Pattern) {
    exists p :: 0 <= p <= |s| && FollowedBy(s, pattern, p)
  }

  predicate MatchesAnyPattern(s: string) {
    exists k :: 0 <= k < |SchedulePatterns| && Matches(s, SchedulePatterns[k])
  }

  /** `text.toLowerCase().trim()`. */
  function Normalize(text: string): string {
    Trim(ToLower(text))
  }

  /** `shouldUseCalendarContext(text)`: a schedule keyword, a schedule
      pattern, or a question word together with a time keyword, all looked
      for in the lower-cased, trimmed text. */
  function ShouldUseCalendarContext(text: string): (r: bool)
    ensures IncludesAny(Normalize(text), ScheduleKeywords) ==> r
    ensures IncludesAny(Normalize(text), QuestionWords) && IncludesAny(Normalize(text), TimeKeywords) ==> r
  {
    Decide(Normalize(text))
  }

  /** A schedule pattern also brings in the calendar; without a keyword or a
      pattern, a question word and a time keyword are both needed, so a time
      keyword alone is not enough. */
  lemma ShouldUseCalendarContextCases(text: string)
    ensures MatchesAnyPattern(Normalize(text)) ==> ShouldUseCalendarContext(text)
    ensures (!IncludesAny(Normalize(text), ScheduleKeywords) && !MatchesAnyPattern(Normalize(text))
             && !IncludesAny(Normalize(text), QuestionWords)) ==> !ShouldUseCalendarContext(text)
    ensures (!IncludesAny(Normalize(text), ScheduleKeywords) && !MatchesAnyPattern(Normalize(text))
             && !IncludesAny(Normalize(text), TimeKeywords)) ==> !ShouldUseCalendarContext(text)
  {
  }

  /** The decision on the normalized text. */
  function Decide(lower: string): bool {
    var hasScheduleKeyword := IncludesAny(lower, ScheduleKeywords);
    var hasTimeKeyword := IncludesAny(lower, TimeKeywords);
    var hasQuestionWord := IncludesAny(lower, QuestionWords);
    if hasScheduleKeyword then true
    else if MatchesAnyPattern(lower) then true
    else hasQuestionWord && hasTimeKeyword
  }

  /** The decision depends only on the lower-cased, trimmed text. */
  lemma NormalizedTextDecides(text: string)
    ensures ShouldUseCalendarContext(Normalize(text)) == ShouldUseCalendarContext(text)
  {
    NormalizeTwice(text);
  }

  lemma NormalizeTwice(text: string)
    ensures Normalize(Normalize(text)) == Normalize(text)
  {
    NormalizeIdempotent(text);
  }

  // ----- words written anywhere in the message -----

  /** A word that begins and ends with a character trimming keeps. */
  predicate Solid(w: string) {
    w != [] && !IsSpace(w[0]) && !IsSpace(w[|w| - 1])
  }

  /** Every word of the list is solid and written in lower case. */
  predicate SolidLowerWords(words: seq<string>) {
    forall k :: 0 <= k < |words| ==> Solid(words[k]) && NoUpper(words[k])
  }

  lemma ScheduleKeywordsSolid()
    ensures SolidLowerWords(ScheduleKeywords)
  {
    forall k | 0 <= k < |ScheduleKeywords| ensures Solid(ScheduleKeywords[k]) && NoUpper(ScheduleKeywords[k]) {
      if k < 9 {
        EarlyScheduleKeywordsSolid(k);
      } else {
        LateScheduleKeywordsSolid(k);
      }
    }
  }

  lemma EarlyScheduleKeywordsSolid(k: int)
    requires 0 <= k < 9
    ensures Solid(ScheduleKeywords[k]) && NoUpper(ScheduleKeywords[k])
  {
  }

  lemma LateScheduleKeywordsSolid(k: int)
    requires 9 <= k < |ScheduleKeywords|
    ensures Solid(ScheduleKeywords[k]) && NoUpper(ScheduleKeywords[k])
  {
  }

  lemma TimeKeywordsSolid()
    ensures SolidLowerWords(TimeKeywords)
  {
    forall k | 0 <= k < |TimeKeywords| ensures Solid(TimeKeywords[k]) && NoUpper(TimeKeywords[k]) {
      if k < 10 {
        EarlyTimeKeywordsSolid(k);
      } else {
        LateTimeKeywordsSolid(k);
      }
    }
  }

  lemma EarlyTimeKeywordsSolid(k: int)
    requires 0 <= k < 10
    ensures Solid(TimeKeywords[k]) && NoUpper(TimeKeywords[k])
  {
  }

  lemma LateTimeKeywordsSolid(k: int)
    requires 10 <= k < |TimeKeywords|
    ensures Solid(TimeKeywords[k]) && NoUpper(TimeKeywords[k])
  {
  }

  lemma QuestionWordsSolid()
    ensures SolidLowerWords(QuestionWords)
  {
  }

  /** Trimming the start keeps an occurrence of a solid word, shifted by
      the white space removed. */
  lemma TrimStartKeepsWord(s: string, w: string, i: int)
    requires Solid(w) && OccursAt(s, w, i)
    ensures i >= |s| - |TrimStart(s)| && OccursAt(TrimStart(s), w, i - (|s| - |TrimStart(s)|))
  {
    var t := TrimStart(s);
    var a := |s| - |t|;
    assert a <= i by {
      assert s[i..i + |w|][0] == s[i];
    }
    SuffixKeepsWord(s, w, i, a);
  }

  /** Dropping a prefix that ends before an occurrence shifts the occurrence. */
  lemma SuffixKeepsWord(s: string, w: string, i: int, a: int)
    requires 0 <= a <= i && OccursAt(s, w, i)
    ensures OccursAt(s[a..], w, i - a)
  {
    assert s[a..][i - a..i - a + |w|] == s[i..i + |w|];
  }

  /** Trimming the end keeps an occurrence of a solid word in place. */
  lemma TrimEndKeepsWord(t: string, w: string, j: int)
    requires Solid(w) && OccursAt(t, w, j)
    ensures OccursAt(TrimEnd(t), w, j)
  {
    var r := TrimEnd(t);
    assert t[j + |w| - 1] == w[|w| - 1] by {
      assert t[j..j + |w|][|w| - 1] == t[j + |w| - 1];
    }
    assert j + |w| <= |r|;
    assert r[j..j + |w|] == t[j..j + |w|];
  }

  /** Trimming only removes white space at the ends, so it keeps every
      occurrence of a word that neither starts nor ends with white space. */
  lemma TrimKeepsWord(s: string, w: string)
    requires Solid(w) && Includes(s, w)
    ensures Includes(Trim(s), w)
  {
    var i :| OccursAt(s, w, i);
    TrimStartKeepsWord(s, w, i);
    TrimEndKeepsWord(TrimStart(s), w, i - (|s| - |TrimStart(s)|));
  }

  /** A lower-case solid word written anywhere in the message, in any case,
      is found in the normalized text. */
  lemma WordInNormalized(before: string, w: string, after: string)
    requires Solid(w) && NoUpper(w)
    ensures Includes(Normalize(before + w + after), w)
  {
    WordInLowered(before, w, after);
    TrimKeepsWord(ToLower(before + w + after), w);
  }

  /** A schedule keyword anywhere in the message, in any case, brings in the
      calendar. */
  lemma ScheduleKeywordSuffices(before: string, k: int, after: string)
    requires 0 <= k < |ScheduleKeywords|
    ensures ShouldUseCalendarContext(before + ScheduleKeywords[k] + after)
  {
    ScheduleKeywordsSolid();
    WordInNormalized(before, ScheduleKeywords[k], after);
    IncludesAnyWitness(Normalize(before + ScheduleKeywords[k] + after), ScheduleKeywords, k);
  }

  /** So do a question word and a time keyword, wherever they are written. */
  lemma QuestionWithTimeSuffices(text: string, q: int, t: int)
    requires 0 <= q < |QuestionWords| && 0 <= t < |TimeKeywords|
    requires Includes(ToLower(text), QuestionWords[q]) && Includes(ToLower(text), TimeKeywords[t])
    ensures ShouldUseCalendarContext(text)
  {
    QuestionWordsSolid();
    TimeKeywordsSolid();
    TrimKeepsWord(ToLower(text), QuestionWords[q]);
    TrimKeepsWord(ToLower(text), TimeKeywords[t]);
    IncludesAnyWitness(Normalize(text), QuestionWords, q);
    IncludesAnyWitness(Normalize(text), TimeKeywords, t);
  }

  // ----- the time-zone fix -----

  /** When the model's `newTime` has neither '-05:00' nor 'Z' in it, '-05:00'
      is appended. */
  function FixNewTime(newTime: Option<string>): (r: Option<string>)
    ensures Present(r) <==> Present(newTime)
    ensures Present(r) ==> Includes(r.value, "-05:00") || Includes(r.value, "Z")
    ensures !Present(newTime) ==> r == newTime
    ensures Present(newTime) && (Includes(newTime.value, "-05:00") || Includes(newTime.value, "Z")) ==> r == newTime
    ensures Present(newTime) && r != newTime ==> r == Some(newTime.value + "-05:00")
  {
    if Present(newTime) && !Includes(newTime.value, "-05:00") && !Includes(newTime.value, "Z") then
      ContainsSelf(newTime.value, "-05:00", "");
      assert newTime.value + "-05:00" + "" == newTime.value + "-05:00";
      Some(newTime.value + "-05:00")
    else newTime
  }

  /** Fixing a fixed time changes nothing. */
  lemma FixNewTimeIdempotent(newTime: Option<string>)
    ensures FixNewTime(FixNewTime(newTime)) == FixNewTime(newTime)
  {
  }
}
