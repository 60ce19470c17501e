/**
 * The two string operations the inverter labels go through:
 * `toLowerCase` (on ASCII letters) and `includes`.
 */
module Text {

  function LowerChar(c: char): char {
    if 'A' <= c <= 'Z' then (c as int + 32) as char else c
  }

  /** `s.toLowerCase()` for ASCII text. */
  function ToLower(s: string): (r: string)
    ensures |r| == |s|
    ensures forall i :: 0 <= i < |s| ==> r[i] == LowerChar(s[i])
  {
    seq(|s|, i requires 0 <= i < |s| => LowerChar(s[i]))
  }

  /** `s.includes(t)`: `t` occurs in `s` at some position. */
  predicate Contains(s: string, t: string) {
    exists i :: 0 <= i <= |s| - |t| && OccursAt(s, t, i)
  }

  predicate OccursAt(s: string, t: string, i: int) {
    0 <= i <= |s| - |t| && s[i..i + |t|] == t
  }

  /** A witness position is enough to show that `t` occurs in `s`. */
  lemma ContainsAt(s: string, t: string, i: int)
    requires 0 <= i <= |s| - |t|
    requires forall k :: 0 <= k < |t| ==> s[i + k] == t[k]
    ensures Contains(s, t)
  {
    assert s[i..i + |t|] == t;
    assert OccursAt(s, t, i);
  }

  /** Whatever contains `t` also contains every tail of `t`. */
  lemma ContainsTail(s: string, t: string, n: nat)
    requires Contains(s, t) && n <= |t|
    ensures Contains(s, t[n..])
  {
    var i :| 0 <= i <= |s| - |t| && OccursAt(s, t, i);
    forall k | 0 <= k < |t| - n
      ensures s[i + n + k] == t[n..][k]
    {
      assert s[i..i + |t|][n + k] == t[n + k];
    }
    ContainsAt(s, t[n..], i + n);
  }

  /** A character of `t` that `s` lacks rules out an occurrence of `t`. */
  lemma MissingChar(s: string, t: string, k: int)
    requires 0 <= k < |t| && t[k] !in s
    ensures !Contains(s, t)
  {
    forall i | 0 <= i <= |s| - |t|
      ensures !OccursAt(s, t, i)
    {
      assert s[i..i + |t|][k] == s[i + k];
      assert s[i + k] in s;
    }
  }

  /** Lower-casing leaves characters other than upper-case letters in place. */
  lemma LowerKeepsNonLetter(s: string, c: char)
    requires !('A' <= c <= 'Z') && !('a' <= c <= 'z')
    ensures c in ToLower(s) <==> c in s
  {
    var l := ToLower(s);
    if c in l {
      var i :| 0 <= i < |l| && l[i] == c;
      assert s[i] == c;
    }
    if c in s {
      var i :| 0 <= i < |s| && s[i] == c;
      assert l[i] == c;
    }
  }
}
