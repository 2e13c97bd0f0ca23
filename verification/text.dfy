/** Text primitives of the chat responder: ASCII lower-casing and the
    substring test behind Python's `keyword in text`. */
module Text {

  predicate IsUpper(c: char) {
    'A' <= c <= 'Z'
  }

  /** ASCII lower-casing of one character; every other character is kept. */
  function LowerChar(c: char): (d: char)
    ensures !IsUpper(d)
    ensures !IsUpper(c) ==> d == c
    ensures IsUpper(c) ==> 'a' <= d <= 'z' && d as int - c as int == 32
  {
    if IsUpper(c) then (c as int + 32) as char else c
  }

  /** The lower-cased copy of `s`, character by character. */
  function Lower(s: string): (r: string)
    ensures |r| == |s|
    ensures forall i :: 0 <= i < |s| ==> r[i] == LowerChar(s[i])
  {
    if |s| == 0 then "" else [LowerChar(s[0])] + Lower(s[1..])
  }

  /** A string with no upper-case letter. */
  predicate IsLowerCase(s: string) {
    forall i :: 0 <= i < |s| ==> !IsUpper(s[i])
  }

  /** Lower-casing leaves a lower-case string alone. */
  lemma {:induction false} LowerOfLowerCase(s: string)
    requires IsLowerCase(s)
    ensures Lower(s) == s
  {
    if |s| > 0 {
      LowerOfLowerCase(s[1..]);
      assert [s[0]] + s[1..] == s;
    }
  }

  /** Lower-casing twice is lower-casing once. */
  lemma LowerIdempotent(s: string)
    ensures Lower(Lower(s)) == Lower(s)
  {
    LowerOfLowerCase(Lower(s));
  }

  /** `sub` occurs in `s` starting at position `i`. */
  predicate OccursAt(sub: string, s: string, i: nat)
    requires i <= |s|
  {
    sub <= s[i..]
  }

  /** The meaning of Python's `sub in s`: some position of `s` starts a copy of `sub`. */
  ghost predicate Occurs(sub: string, s: string) {
    exists i: nat :: i <= |s| && OccursAt(sub, s, i)
  }

  /** `sub` occurs in a non-empty `s` exactly when it starts at position 0
      or occurs in the tail. */
  lemma OccursSplit(sub: string, s: string)
    requires |s| > 0
    ensures Occurs(sub, s) <==> OccursAt(sub, s, 0) || Occurs(sub, s[1..])
  {
    if Occurs(sub, s[1..]) {
      var j: nat :| j <= |s[1..]| && OccursAt(sub, s[1..], j);
      assert s[1..][j..] == s[j + 1..];
      assert OccursAt(sub, s, j + 1);
    }
    if Occurs(sub, s) && !OccursAt(sub, s, 0) {
      var i: nat :| i <= |s| && OccursAt(sub, s, i);
      assert s[1..][i - 1..] == s[i..];
      assert OccursAt(sub, s[1..], i - 1);
    }
  }

  /** Executable substring test, scanning start positions left to right. */
  function Contains(s: string, sub: string): (b: bool)
    ensures b <==> Occurs(sub, s)
  {
    if sub <= s then
      assert OccursAt(sub, s, 0);
      true
    else if |s| == 0 then
      false
    else
      OccursSplit(sub, s);
      Contains(s[1..], sub)
  }

  /** Python's `any(k in s for k in keywords)`. */
  function ContainsAny(s: string, keywords: seq<string>): (b: bool)
    ensures b <==> exists k :: k in keywords && Occurs(k, s)
  {
    if |keywords| == 0 then false
    else Contains(s, keywords[0]) || ContainsAny(s, keywords[1..])
  }
}
