/** String facts the classifier relies on: Python's `in` substring test and
    `str.lower()`, the latter restricted to ASCII letters. */
module Text {

  /** `p` is a prefix of `s` (Python's `s.startswith(p)`). */
  predicate IsPrefix(p: string, s: string) {
    |p| <= |s| && s[..|p|] == p
  }

  /** `w` occurs in `s` starting at index `i`. */
  ghost predicate OccursAt(s: string, w: string, i: int) {
    0 <= i && i + |w| <= |s| && s[i..i + |w|] == w
  }

  /** Python's `w in s` for strings: try every start position in turn. */
  predicate ContainsSubstring(s: string, w: string)
    decreases |s|
  {
    IsPrefix(w, s) || (|s| > 0 && ContainsSubstring(s[1..], w))
  }

  /** The scan finds `w` exactly when `w` occurs somewhere in `s`. */
  lemma {:induction false} ContainsSubstringIff(s: string, w: string)
    ensures ContainsSubstring(s, w) <==> exists i :: OccursAt(s, w, i)
    decreases |s|
  {
    if ContainsSubstring(s, w) {
      if IsPrefix(w, s) {
        assert OccursAt(s, w, 0);
      } else {
        ContainsSubstringIff(s[1..], w);
        var i :| OccursAt(s[1..], w, i);
        assert s[1..][i..i + |w|] == s[i + 1..i + 1 + |w|];
        assert OccursAt(s, w, i + 1);
      }
    }
    if exists i :: OccursAt(s, w, i) {
      var i :| OccursAt(s, w, i);
      if i == 0 {
        assert IsPrefix(w, s);
      } else {
        assert s[1..][i - 1..i - 1 + |w|] == s[i..i + |w|];
        assert OccursAt(s[1..], w, i - 1);
        ContainsSubstringIff(s[1..], w);
      }
    }
  }

  /** ASCII lower-casing of one character: `A`..`Z` to `a`..`z`, all else unchanged. */
  function LowerChar(c: char): (d: char)
    ensures !('A' <= d <= 'Z')
    ensures 'A' <= c <= 'Z' ==> 'a' <= d <= 'z'
    ensures !('A' <= c <= 'Z') ==> d == c
  {
    if 'A' <= c <= 'Z' then (c as int - 'A' as int + 'a' as int) as char else c
  }

  /** `str.lower()` over ASCII: same length, each character lower-cased in place. */
  function ToLower(s: string): (r: string)
    ensures |r| == |s|
    ensures forall i :: 0 <= i < |s| ==> r[i] == LowerChar(s[i])
  {
    if s == [] then [] else [LowerChar(s[0])] + ToLower(s[1..])
  }

  /** Lower-casing twice is lower-casing once. */
  lemma ToLowerIdempotent(s: string)
    ensures ToLower(ToLower(s)) == ToLower(s)
  {
    var once := ToLower(s);
    assert forall i :: 0 <= i < |s| ==> ToLower(once)[i] == LowerChar(once[i]) == once[i];
  }
}
