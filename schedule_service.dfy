/** Display helpers of the client-side schedule service: a duration in minutes
    as text, and the label of a priority. */
module ScheduleService {
  import opened Text

  /** `formatDuration(minutes)`: under an hour as "m min"; otherwise whole hours
      and the remaining minutes as "h h r m", or "h h" on the hour. */
  function FormatDuration(minutes: int): (text: string)
    ensures minutes < 60 ==> text == IntToString(minutes) + " min"
    ensures minutes >= 60 ==>
              exists h: nat, r: nat :: h * 60 + r == minutes && r < 60 && h >= 1
                && text == NatToString(h) + (if r > 0 then "h " + NatToString(r) + "m" else "h")
  {
    if minutes < 60 then IntToString(minutes) + " min"
    else
      var hours := minutes / 60;
      var mins := minutes % 60;
      assert hours * 60 + mins == minutes;
      if mins > 0 then NatToString(hours) + "h " + NatToString(mins) + "m" else NatToString(hours) + "h"
  }

  // ----- reading a formatted duration back -----

  /** The number of decimal digits at the head of `s`. */
  function DigitRun(s: string): (k: nat)
    ensures k <= |s|
    ensures forall i :: 0 <= i < k ==> IsDigit(s[i])
    ensures k == |s| || !IsDigit(s[k])
  {
    if s == [] || !IsDigit(s[0]) then 0 else 1 + DigitRun(s[1..])
  }

  /** A run of digits followed by a non-digit (or nothing) is read up to that point. */
  lemma {:induction false} DigitRunOf(digits: string, rest: string)
    requires forall i :: 0 <= i < |digits| ==> IsDigit(digits[i])
    requires rest == [] || !IsDigit(rest[0])
    ensures DigitRun(digits + rest) == |digits|
    decreases |digits|
  {
    if digits != [] {
      DigitRunOf(digits[1..], rest);
      assert (digits + rest)[1..] == digits[1..] + rest;
    } else {
      assert digits + rest == rest;
    }
  }

  /** Reads "m min", "h h" or "h h r m" for non-negative numbers back as minutes. */
  function ParseDuration(s: string): Option<int> {
    var k := DigitRun(s);
    if k == 0 then None
    else
      var n := ParseDigits(s[..k]);
      var rest := s[k..];
      if rest == " min" then Some(n)
      else if rest == "h" then Some(n * 60)
      else if |rest| >= 2 && rest[..2] == "h " then
        var r := ParseMinutesPart(rest[2..]);
        if r.Some? then Some(n * 60 + r.value) else None
      else None
  }

  /** Reads the "r m" after the hours. */
  function ParseMinutesPart(tail: string): Option<int> {
    var j := DigitRun(tail);
    if j > 0 && tail[j..] == "m" then Some(ParseDigits(tail[..j])) else None
  }

  /** Reading the prefix `NatToString(n)` off `NatToString(n) + rest`. */
  lemma NumberThen(n: nat, rest: string)
    requires rest == [] || !IsDigit(rest[0])
    ensures DigitRun(NatToString(n) + rest) == |NatToString(n)|
    ensures (NatToString(n) + rest)[..|NatToString(n)|] == NatToString(n)
    ensures (NatToString(n) + rest)[|NatToString(n)|..] == rest
    ensures ParseDigits(NatToString(n)) == n
  {
    DigitRunOf(NatToString(n), rest);
    ParseNatToString(n);
  }

  lemma ReadMinutes(m: nat)
    ensures ParseDuration(NatToString(m) + " min") == Some(m)
  {
    var s := NatToString(m) + " min";
    NumberThen(m, " min");
    assert s[DigitRun(s)..] == " min";
  }

  lemma ReadHours(h: nat)
    ensures ParseDuration(NatToString(h) + "h") == Some(h * 60)
  {
    var s := NatToString(h) + "h";
    NumberThen(h, "h");
    assert s[DigitRun(s)..] == "h";
  }

  lemma ReadMinutesPart(r: nat)
    ensures ParseMinutesPart(NatToString(r) + "m") == Some(r)
  {
    var tail := NatToString(r) + "m";
    NumberThen(r, "m");
    assert tail[DigitRun(tail)..] == "m";
  }

  /** A number followed by "h " is read as hours plus the minutes part after it. */
  lemma HoursThenMinutes(s: string, n: nat, tail: string)
    requires DigitRun(s) > 0 && ParseDigits(s[..DigitRun(s)]) == n
    requires s[DigitRun(s)..] == "h " + tail
    ensures ParseMinutesPart(tail).Some? ==> ParseDuration(s) == Some(n * 60 + ParseMinutesPart(tail).value)
  {
    var rest := "h " + tail;
    assert rest[0] == 'h' && |rest| >= 2;
    assert rest[..2] == "h ";
    assert rest[2..] == tail;
  }

  lemma ReadHoursMinutes(h: nat, r: nat)
    ensures ParseDuration(NatToString(h) + "h " + NatToString(r) + "m") == Some(h * 60 + r)
  {
    var tail := NatToString(r) + "m";
    Regroup(NatToString(h), "h ", NatToString(r), "m");
    ReadHoursThen(h, r, tail);
  }

  lemma Regroup(a: string, b: string, c: string, d: string)
    ensures a + b + c + d == a + (b + (c + d))
  {
  }

  lemma ReadHoursThen(h: nat, r: nat, tail: string)
    requires tail == NatToString(r) + "m"
    ensures ParseDuration(NatToString(h) + ("h " + tail)) == Some(h * 60 + r)
  {
    NumberThen(h, "h " + tail);
    ReadMinutesPart(r);
    HoursThenMinutes(NatToString(h) + ("h " + tail), h, tail);
  }

  /** The text of a non-negative duration reads back as that duration. */
  lemma FormatDurationRoundTrip(minutes: nat)
    ensures ParseDuration(FormatDuration(minutes)) == Some(minutes)
  {
    if minutes < 60 {
      ReadMinutes(minutes);
    } else if minutes % 60 > 0 {
      ReadHoursMinutes(minutes / 60, minutes % 60);
    } else {
      ReadHours(minutes / 60);
    }
  }

  // ----- priority labels -----

  datatype PriorityLevel = Low | Medium | High | Urgent

  /** The label (`level`), with the colour and the emoji it is shown with. */
  datatype PriorityInfo = PriorityInfo(level: PriorityLevel, color: string, emoji: string)

  /** `getPriorityInfo(priority)`: 9 and above is urgent, 7 and 8 high, 4 to 6
      medium, anything lower low. */
  function GetPriorityInfo(priority: int): (info: PriorityInfo)
    ensures info.level == Urgent <==> priority >= 9
    ensures info.level == High <==> 7 <= priority < 9
    ensures info.level == Medium <==> 4 <= priority < 7
    ensures info.level == Low <==> priority < 4
  {
    if priority >= 9 then PriorityInfo(Urgent, "red", "🔴")
    else if priority >= 7 then PriorityInfo(High, "orange", "🟠")
    else if priority >= 4 then PriorityInfo(Medium, "yellow", "🟡")
    else PriorityInfo(Low, "green", "🟢")
  }

  /** The order of the labels, lowest first. */
  function Rank(l: PriorityLevel): nat {
    match l
    case Low => 0
    case Medium => 1
    case High => 2
    case Urgent => 3
  }

  /** A higher priority never gets a lower label. */
  lemma PriorityLabelMonotone(p: int, q: int)
    requires p <= q
    ensures Rank(GetPriorityInfo(p).level) <= Rank(GetPriorityInfo(q).level)
  {
  }
}
