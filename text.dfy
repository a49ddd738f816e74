/** The two string operations the chain search uses: `toLowerCase` and
    `includes`. */
module Text {

  function LowerChar(c: char): char {
    if 'A' <= c <= 'Z' then (c as int + ('a' as int - 'A' as int)) as char else c
  }

  /** `s.toLowerCase()` for ASCII letters: each capital becomes the small
      letter at the same place in the alphabet, every other character is
      kept, and no capital is left. */
  function Lower(s: string): (r: string)
    ensures |r| == |s|
    ensures forall i :: 0 <= i < |s| ==>
              if 'A' <= s[i] <= 'Z'
              then 'a' <= r[i] <= 'z' && r[i] as int - 'a' as int == s[i] as int - 'A' as int
              else r[i] == s[i]
    ensures forall i :: 0 <= i < |r| ==> !('A' <= r[i] <= 'Z')
  {
    seq(|s|, i requires 0 <= i < |s| => LowerChar(s[i]))
  }

  /** `s.includes(t)`: `t` occurs in `s` as a contiguous piece. */
  predicate Contains(s: string, t: string)
    decreases |s|
  {
    t <= s || (|s| > 0 && Contains(s[1..], t))
  }

  /** `includes` means: some suffix of `s` starts with `t`. */
  lemma {:induction false} ContainsIffAt(s: string, t: string)
    ensures Contains(s, t) <==> exists i :: 0 <= i <= |s| && t <= s[i..]
    decreases |s|
  {
    assert s[0..] == s;
    if |s| > 0 {
      ContainsIffAt(s[1..], t);
      if exists i :: 0 <= i <= |s| - 1 && t <= s[1..][i..] {
        var i :| 0 <= i <= |s| - 1 && t <= s[1..][i..];
        assert s[1..][i..] == s[i + 1..];
      }
      if exists i :: 0 <= i <= |s| && t <= s[i..] {
        var i :| 0 <= i <= |s| && t <= s[i..];
        if i > 0 {
          assert s[1..][i - 1..] == s[i..];
        }
      }
    }
  }

  /** A piece whose first character does not occur in `s` is not in `s`. */
  lemma {:induction false} NotContainsMissingFirst(s: string, t: string)
    requires |t| > 0 && t[0] !in s
    ensures !Contains(s, t)
    decreases |s|
  {
    if |s| > 0 {
      NotContainsMissingFirst(s[1..], t);
    }
  }

  /** Lower-casing twice is lower-casing once, so the search term and the
      chain names are compared in one canonical case. */
  lemma LowerIdempotent(s: string)
    ensures Lower(Lower(s)) == Lower(s)
  {
  }
}
