/** The string operations the views rely on: `toLowerCase` (over ASCII),
    `includes` and `trim`. */
module Text {

  /** Lower-casing of one character; letters outside ASCII are kept as they
      are. */
  function LowerChar(c: char): (d: char)
    ensures 'A' <= c <= 'Z' ==> d as int == c as int + 32
    ensures !('A' <= c <= 'Z') ==> d == c
    ensures !('A' <= d <= 'Z')
  {
    if 'A' <= c <= 'Z' then (c as int + 32) as char else c
  }

  /** Lower-casing a string, character by character. */
  function ToLower(s: string): (r: string)
    ensures |r| == |s|
    ensures forall i :: 0 <= i < |s| ==> r[i] == LowerChar(s[i])
    ensures forall i :: 0 <= i < |r| ==> !('A' <= r[i] <= 'Z')
  {
    seq(|s|, i requires 0 <= i < |s| => LowerChar(s[i]))
  }

  /** Lower-casing twice is lower-casing once. */
  lemma ToLowerIdempotent(s: string)
    ensures ToLower(ToLower(s)) == ToLower(s)
  {
  }

  /** `needle` occurs in `hay` at position `i`. */
  predicate OccursAt(hay: string, needle: string, i: nat)
  {
    i + |needle| <= |hay| && hay[i..i + |needle|] == needle
  }

  /** Whether `needle` occurs somewhere in `hay`, scanning from the left. */
  function Contains(hay: string, needle: string): (b: bool)
    ensures b <==> exists i: nat :: OccursAt(hay, needle, i)
    decreases |hay|
  {
    if OccursAt(hay, needle, 0) then true
    else if |hay| <= |needle| then
      NoRoomNoOccurrence(hay, needle);
      false
    else
      var b := Contains(hay[1..], needle);
      ShiftOccurrence(hay, needle);
      b
  }

  /** An occurrence past the first position is an occurrence in the tail. */
  lemma ShiftOccurrence(hay: string, needle: string)
    requires |hay| > 0 && !OccursAt(hay, needle, 0)
    ensures (exists i: nat :: OccursAt(hay, needle, i)) <==> (exists j: nat :: OccursAt(hay[1..], needle, j))
  {
    if exists i: nat :: OccursAt(hay, needle, i) {
      var i: nat :| OccursAt(hay, needle, i);
      assert i > 0;
      ShiftOne(hay, needle, i - 1);
    }
    if exists j: nat :: OccursAt(hay[1..], needle, j) {
      var j: nat :| OccursAt(hay[1..], needle, j);
      ShiftOne(hay, needle, j);
    }
  }

  lemma ShiftOne(hay: string, needle: string, j: nat)
    requires |hay| > 0
    ensures OccursAt(hay, needle, j + 1) <==> OccursAt(hay[1..], needle, j)
  {
    if j + 1 + |needle| <= |hay| {
      assert hay[1..][j..j + |needle|] == hay[j + 1..j + 1 + |needle|];
    }
  }

  /** A needle that fills or overflows the haystack can only occur at 0. */
  lemma NoRoomNoOccurrence(hay: string, needle: string)
    requires |hay| <= |needle| && !OccursAt(hay, needle, 0)
    ensures forall i: nat :: !OccursAt(hay, needle, i)
  {
  }

  /** The empty string occurs in every string. */
  lemma ContainsEmpty(hay: string)
    ensures Contains(hay, "")
  {
    assert OccursAt(hay, "", 0);
  }

  /** Every string contains itself. */
  lemma ContainsSelf(s: string)
    ensures Contains(s, s)
  {
    assert OccursAt(s, s, 0);
  }

  /** The whitespace trimming removes: the ASCII blanks, the
      no-break space, the Unicode space separators, the line and paragraph
      separators and the byte-order mark. */
  function IsSpace(c: char): (b: bool)
    ensures c == ' ' || c == '\t' || c == '\n' || c == '\r' ==> b
    ensures 'a' <= c <= 'z' || 'A' <= c <= 'Z' || '0' <= c <= '9' || c == '_' || c == '/' ==> !b
  {
    || c == '\t' || c == '\n' || c == '\U{000B}' || c == '\U{000C}' || c == '\r' || c == ' '
    || c == '\U{00A0}' || c == '\U{1680}' || ('\U{2000}' <= c <= '\U{200A}')
    || c == '\U{2028}' || c == '\U{2029}' || c == '\U{202F}' || c == '\U{205F}'
    || c == '\U{3000}' || c == '\U{FEFF}'
  }

  /** The number of whitespace characters `s` starts with. */
  function LeadingSpaces(s: string): (a: nat)
    ensures a <= |s|
    ensures forall i :: 0 <= i < a ==> IsSpace(s[i])
    ensures a < |s| ==> !IsSpace(s[a])
    decreases |s|
  {
    if |s| > 0 && IsSpace(s[0]) then
      var n := LeadingSpaces(s[1..]);
      assert forall i :: 1 <= i < n + 1 ==> s[i] == s[1..][i - 1];
      n + 1
    else 0
  }

  /** Where the kept part of `s` ends: walking left from `b`, the whitespace
      down to `a` is dropped. */
  function KeptEnd(s: string, a: nat, b: nat): (e: nat)
    requires a <= b <= |s|
    ensures a <= e <= b
    ensures forall i :: e <= i < b ==> IsSpace(s[i])
    ensures e > a ==> !IsSpace(s[e - 1])
    decreases b
  {
    if b > a && IsSpace(s[b - 1]) then KeptEnd(s, a, b - 1) else b
  }

  /** `r` is `s[a..b]` and everything of `s` outside that slice is
      whitespace. */
  predicate SpaceMargins(s: string, r: string, a: int, b: int)
  {
    0 <= a <= b <= |s| && r == s[a..b]
    && (forall i :: 0 <= i < a ==> IsSpace(s[i]))
    && (forall i :: b <= i < |s| ==> IsSpace(s[i]))
  }

  /** Trimming: whitespace stripped from both ends. */
  function Trim(s: string): (r: string)
    ensures |r| > 0 ==> !IsSpace(r[0]) && !IsSpace(r[|r| - 1])
    ensures exists a, b :: SpaceMargins(s, r, a, b)
  {
    var a := LeadingSpaces(s);
    var b := KeptEnd(s, a, |s|);
    assert SpaceMargins(s, s[a..b], a, b);
    s[a..b]
  }

  /** Trimming yields the empty string exactly when every character is
      whitespace. */
  lemma TrimEmptyIff(s: string)
    ensures Trim(s) == "" <==> forall i :: 0 <= i < |s| ==> IsSpace(s[i])
  {
  }
}
