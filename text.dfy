/** String helpers shared by the classifiers and the message builders:
    ASCII lower-casing, whitespace trimming, substring search (JavaScript's
    `String.prototype.includes`), joining, and decimal rendering of integers. */
module Text {

  datatype Option<T> = None | Some(value: T)

  /** JavaScript truthiness of an optional string: absent, null and "" are all false. */
  predicate Present(o: Option<string>) {
    o.Some? && o.value != ""
  }

  /** `String.prototype.toLowerCase` restricted to ASCII letters. */
  function Lower(c: char): char {
    if 'A' <= c <= 'Z' then (c as int + 32) as char else c
  }

  function ToLower(s: string): (r: string)
    ensures |r| == |s|
    ensures forall i :: 0 <= i < |s| ==> r[i] == Lower(s[i])
  {
    if s == [] then [] else [Lower(s[0])] + ToLower(s[1..])
  }

  lemma {:induction false} ToLowerIdempotent(s: string)
    ensures ToLower(ToLower(s)) == ToLower(s)
  {
    var t := ToLower(s);
    assert forall i :: 0 <= i < |t| ==> ToLower(t)[i] == t[i];
  }

  lemma ToLowerAppend(a: string, b: string)
    ensures ToLower(a + b) == ToLower(a) + ToLower(b)
  {
    assert forall i :: 0 <= i < |a + b| ==> ToLower(a + b)[i] == (ToLower(a) + ToLower(b))[i];
  }

  /** No upper-case ASCII letter occurs in `s`. */
  predicate NoUpper(s: string) {
    forall i :: 0 <= i < |s| ==> !('A' <= s[i] <= 'Z')
  }

  lemma LowerKeepsLowerCase(s: string)
    requires NoUpper(s)
    ensures ToLower(s) == s
  {
  }

  /** The white-space characters `String.prototype.trim` removes (ASCII subset). */
  predicate IsSpace(c: char) {
    c == ' ' || c == '\t' || c == '\n' || c == '\r' || c == '\U{B}' || c == '\U{C}'
  }

  function TrimStart(s: string): (r: string)
    ensures |r| <= |s| && r == s[|s| - |r|..]
    ensures r == [] || !IsSpace(r[0])
    ensures forall i :: 0 <= i < |s| - |r| ==> IsSpace(s[i])
  {
    if s != [] && IsSpace(s[0]) then TrimStart(s[1..]) else s
  }

  function TrimEnd(s: string): (r: string)
    ensures |r| <= |s| && r == s[..|r|]
    ensures r == [] || !IsSpace(r[|r| - 1])
    ensures forall i :: |r| <= i < |s| ==> IsSpace(s[i])
  {
    if s != [] && IsSpace(s[|s| - 1]) then TrimEnd(s[..|s| - 1]) else s
  }

  /** `String.prototype.trim`. */
  function Trim(s: string): (r: string)
    ensures |r| <= |s|
    ensures r == [] || (!IsSpace(r[0]) && !IsSpace(r[|r| - 1]))
  {
    TrimEnd(TrimStart(s))
  }

  /** True when the string is empty or consists of white space only (`!s.trim()`). */
  predicate Blank(s: string) {
    Trim(s) == []
  }

  lemma BlankIffAllSpace(s: string)
    ensures Blank(s) <==> forall i :: 0 <= i < |s| ==> IsSpace(s[i])
  {
    var t := TrimStart(s);
    if !Blank(s) {
      assert t != [] && !IsSpace(t[0]);
      assert t[0] == s[|s| - |t|];
    }
  }

  lemma {:induction false} TrimIdempotent(s: string)
    ensures Trim(Trim(s)) == Trim(s)
  {
    var t := Trim(s);
    if t != [] {
      assert !IsSpace(t[0]) && !IsSpace(t[|t| - 1]);
      assert TrimStart(t) == t;
      assert TrimEnd(t) == t;
    }
  }

  lemma {:induction false} LowerKeepsSpace(c: char)
    ensures IsSpace(Lower(c)) <==> IsSpace(c)
  {
  }

  lemma {:induction false} TrimStartToLower(s: string)
    ensures TrimStart(ToLower(s)) == ToLower(TrimStart(s))
    decreases |s|
  {
    if s != [] {
      LowerKeepsSpace(s[0]);
      assert ToLower(s)[1..] == ToLower(s[1..]);
      if IsSpace(s[0]) {
        TrimStartToLower(s[1..]);
      }
    }
  }

  lemma {:induction false} TrimEndToLower(s: string)
    ensures TrimEnd(ToLower(s)) == ToLower(TrimEnd(s))
    decreases |s|
  {
    if s != [] {
      LowerKeepsSpace(s[|s| - 1]);
      assert ToLower(s)[..|s| - 1] == ToLower(s[..|s| - 1]);
      if IsSpace(s[|s| - 1]) {
        TrimEndToLower(s[..|s| - 1]);
      }
    }
  }

  lemma {:induction false} TrimToLower(s: string)
    ensures Trim(ToLower(s)) == ToLower(Trim(s))
  {
    TrimStartToLower(s);
    TrimEndToLower(TrimStart(s));
  }

  /** Lower-casing and trimming commute, and doing both twice changes nothing:
      `s.toLowerCase().trim()` is a normal form. */
  lemma {:induction false} NormalizeIdempotent(s: string)
    ensures Trim(ToLower(Trim(ToLower(s)))) == Trim(ToLower(s))
  {
    calc {
      Trim(ToLower(Trim(ToLower(s))));
      { TrimToLower(s); }
      Trim(ToLower(ToLower(Trim(s))));
      { ToLowerIdempotent(Trim(s)); }
      Trim(ToLower(Trim(s)));
      { TrimToLower(s); }
      Trim(Trim(ToLower(s)));
      { TrimIdempotent(ToLower(s)); }
      Trim(ToLower(s));
    }
  }

  /** `w` occurs in `s` starting at position `i`. */
  predicate OccursAt(s: string, w: string, i: int) {
    0 <= i && i + |w| <= |s| && s[i..i + |w|] == w
  }

  /** `s.includes(w)`, stated as the existence of an occurrence. */
  ghost predicate Contains(s: string, w: string) {
    exists i :: OccursAt(s, w, i)
  }

  /** `s.includes(w)` as the left-to-right scan a runtime performs. */
  function Includes(s: string, w: string): (r: bool)
    ensures r <==> Contains(s, w)
    decreases |s|
  {
    if OccursAt(s, w, 0) then true
    else if |s| <= |w| then
      assert !Contains(s, w) by {
        forall i | OccursAt(s, w, i) ensures i == 0 { }
      }
      false
    else
      var r := Includes(s[1..], w);
      assert r ==> Contains(s, w) by {
        if r {
          var i :| OccursAt(s[1..], w, i);
          assert OccursAt(s, w, i + 1);
        }
      }
      assert Contains(s, w) ==> r by {
        if Contains(s, w) {
          var i :| OccursAt(s, w, i);
          assert i != 0;
          assert OccursAt(s[1..], w, i - 1);
        }
      }
      r
  }

  lemma ContainsSelf(s: string, w: string, u: string)
    ensures Includes(s + w + u, w)
  {
    assert OccursAt(s + w + u, w, |s|);
  }

  /** A lower-case word written anywhere, in any case, is found once the
      text is lower-cased. */
  lemma WordInLowered(before: string, w: string, after: string)
    requires NoUpper(w)
    ensures Includes(ToLower(before + w + after), w)
  {
    ToLowerAppend(before + w, after);
    ToLowerAppend(before, w);
    LowerKeepsLowerCase(w);
    ContainsSelf(ToLower(before), w, ToLower(after));
  }

  lemma ContainsEmpty(s: string)
    ensures Includes(s, "")
  {
    assert OccursAt(s, "", 0);
  }

  /** `words.some(w => s.includes(w))`. */
  function IncludesAny(s: string, words: seq<string>): (r: bool)
    ensures r <==> exists k :: 0 <= k < |words| && Includes(s, words[k])
  {
    if words == [] then false
    else if Includes(s, words[0]) then true
    else
      var r := IncludesAny(s, words[1..]);
      assert r ==> exists k :: 0 <= k < |words| && Includes(s, words[k]) by {
        if r {
          var k :| 0 <= k < |words[1..]| && Includes(s, words[1..][k]);
          assert Includes(s, words[k + 1]);
        }
      }
      r
  }

  lemma IncludesAnyWitness(s: string, words: seq<string>, k: int)
    requires 0 <= k < |words| && Includes(s, words[k])
    ensures IncludesAny(s, words)
  {
  }

  predicate StartsWith(s: string, p: string) {
    |p| <= |s| && s[..|p|] == p
  }

  /** `parts.join(sep)`. */
  function Join(parts: seq<string>, sep: string): string {
    if parts == [] then ""
    else if |parts| == 1 then parts[0]
    else parts[0] + sep + Join(parts[1..], sep)
  }

  /** Every part can be found in the joined text. */
  lemma {:induction false} JoinContainsPart(parts: seq<string>, sep: string, k: int)
    requires 0 <= k < |parts|
    ensures Includes(Join(parts, sep), parts[k])
    decreases |parts|
  {
    if k == 0 {
      if |parts| == 1 {
        assert OccursAt(Join(parts, sep), parts[0], 0);
      } else {
        assert OccursAt(parts[0] + sep + Join(parts[1..], sep), parts[0], 0);
      }
    } else {
      JoinContainsPart(parts[1..], sep, k - 1);
      var rest := Join(parts[1..], sep);
      var i :| OccursAt(rest, parts[k], i);
      var prefix := parts[0] + sep;
      assert (prefix + rest)[|prefix| + i..|prefix| + i + |parts[k]|] == rest[i..i + |parts[k]|];
      assert OccursAt(prefix + rest, parts[k], |prefix| + i);
    }
  }

  // ----- decimal rendering, as JavaScript's template literals print integers -----

  predicate IsDigit(c: char) { '0' <= c <= '9' }

  function DigitChar(d: int): (c: char)
    requires 0 <= d < 10
    ensures IsDigit(c)
  {
    ('0' as int + d) as char
  }

  function DigitValue(c: char): int
    requires IsDigit(c)
  {
    c as int - '0' as int
  }

  function NatToString(n: nat): (r: string)
    ensures r != []
    ensures forall i :: 0 <= i < |r| ==> IsDigit(r[i])
    decreases n
  {
    if n < 10 then [DigitChar(n)] else NatToString(n / 10) + [DigitChar(n % 10)]
  }

  function IntToString(n: int): (r: string)
    ensures r != []
  {
    if n < 0 then "-" + NatToString(-n) else NatToString(n)
  }

  /** Reads a non-empty string of decimal digits. */
  function ParseDigits(s: string): nat
    requires forall i :: 0 <= i < |s| ==> IsDigit(s[i])
  {
    if s == [] then 0 else ParseDigits(s[..|s| - 1]) * 10 + DigitValue(s[|s| - 1])
  }

  /** Reading back the decimal rendering of a number gives the number. */
  lemma {:induction false} ParseNatToString(n: nat)
    ensures ParseDigits(NatToString(n)) == n
    decreases n
  {
    var s := NatToString(n);
    if n >= 10 {
      ParseNatToString(n / 10);
      assert s[..|s| - 1] == NatToString(n / 10);
    }
  }
}
