/** Substring search over strings, as the shell classifier uses it: Java's
    `String.indexOf(String)` and the test `indexOf(p) != -1`. */
module Text {

  /** `p` occurs in `s` starting at position `i`. */
  predicate OccursAt(s: string, p: string, i: int)
  {
    0 <= i && i + |p| <= |s| && s[i..i + |p|] == p
  }

  /** Reference definition of containment: `p` occurs somewhere in `s`. */
  ghost predicate Contains(s: string, p: string)
  {
    exists i :: OccursAt(s, p, i)
  }

  /** Shifting the haystack by its first character shifts every occurrence by one. */
  lemma OccursAtTail(s: string, p: string, i: int)
    requires |s| > 0 && i >= 0
    ensures OccursAt(s[1..], p, i) <==> OccursAt(s, p, i + 1)
  {
    if i + |p| <= |s| - 1 {
      assert s[1..][i..i + |p|] == s[i + 1..i + 1 + |p|];
    }
  }

  /** Java's `s.indexOf(p)`: the index of the first occurrence of `p` in `s`,
      or -1 when there is none. The empty pattern occurs at 0. */
  function IndexOf(s: string, p: string): (r: int)
    ensures r >= -1
    ensures r == -1 <==> !Contains(s, p)
    ensures r != -1 ==> OccursAt(s, p, r)
    ensures forall i :: 0 <= i < r ==> !OccursAt(s, p, i)
    decreases |s|
  {
    if |p| > |s| then
      assert forall i :: !OccursAt(s, p, i);
      -1
    else if s[..|p|] == p then
      assert OccursAt(s, p, 0);
      0
    else
      var r := IndexOf(s[1..], p);
      assert forall i :: OccursAt(s[1..], p, i) <==> OccursAt(s, p, i + 1) by {
        forall i ensures OccursAt(s[1..], p, i) <==> OccursAt(s, p, i + 1) {
          if i >= 0 { OccursAtTail(s, p, i); }
        }
      }
      assert !OccursAt(s, p, 0);
      if r == -1 then
        assert forall i :: !OccursAt(s, p, i) by {
          forall i ensures !OccursAt(s, p, i) {
            if i > 0 { assert !OccursAt(s[1..], p, i - 1); }
          }
        }
        -1
      else
        assert forall i :: 0 <= i < r + 1 ==> !OccursAt(s, p, i) by {
          forall i | 0 <= i < r + 1 ensures !OccursAt(s, p, i) {
            if i > 0 { assert !OccursAt(s[1..], p, i - 1); }
          }
        }
        r + 1
  }

  /** Whether a literal pattern is found, written as the classifier writes it. */
  function Found(s: string, p: string): (b: bool)
    ensures b <==> Contains(s, p)
  {
    IndexOf(s, p) != -1
  }

  /** A pattern placed right after a prefix occurs at the prefix's length. */
  lemma OccursAfter(a: string, p: string, b: string)
    ensures OccursAt(a + p + b, p, |a|) && Contains(a + p + b, p)
  {
    assert (a + p + b)[|a|..|a| + |p|] == p;
    assert OccursAt(a + p + b, p, |a|);
  }

  /** A non-empty pattern whose first character never appears in `s` does not
      occur in `s`. */
  lemma AbsentFirstChar(s: string, p: string)
    requires |p| > 0 && p[0] !in s
    ensures !Contains(s, p)
  {
  }
}
