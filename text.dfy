/**
 * The string operations the command surface relies on: substring tests,
 * prefix tests and upper-casing, each with and without case folding.
 * Case folding is modelled for the ASCII letters only.
 */
module Text {

  /** Folds an ASCII capital to its lower-case letter; every other character is kept. */
  function LowerChar(c: char): (r: char)
    ensures !('A' <= r <= 'Z')
    ensures !('A' <= c <= 'Z') ==> r == c
  {
    if 'A' <= c <= 'Z' then (c as int + 32) as char else c
  }

  /** Folds an ASCII small letter to its capital; every other character is kept. */
  function UpperChar(c: char): (r: char)
    ensures !('a' <= r <= 'z')
    ensures LowerChar(r) == LowerChar(c)
  {
    if 'a' <= c <= 'z' then (c as int - 32) as char else c
  }

  /** Two characters are equal when case is ignored. */
  predicate SameLetter(a: char, b: char) {
    LowerChar(a) == LowerChar(b)
  }

  /** `s.toLowerCase()`, letter by letter. */
  function Lower(s: string): (r: string)
    ensures |r| == |s|
    ensures forall i :: 0 <= i < |s| ==> r[i] == LowerChar(s[i])
  {
    if s == [] then [] else [LowerChar(s[0])] + Lower(s[1..])
  }

  /** `s.toUpperCase()`: no small letter is left and each character matches the input when case is ignored. */
  function Upper(s: string): (r: string)
    ensures |r| == |s|
    ensures forall i :: 0 <= i < |r| ==> !('a' <= r[i] <= 'z') && SameLetter(r[i], s[i])
  {
    if s == [] then [] else [UpperChar(s[0])] + Upper(s[1..])
  }

  /** `t` occurs in `s` starting at offset `i`. */
  predicate OccursAt(s: string, t: string, i: int) {
    0 <= i <= |s| - |t| && s[i..i + |t|] == t
  }

  /** `s.contains(t)`: `t` occurs in `s` at some offset. */
  predicate Contains(s: string, t: string) {
    exists i | 0 <= i <= |s| :: OccursAt(s, t, i)
  }

  /** `s.contains(t, ignoreCase = true)`. */
  predicate ContainsIgnoreCase(s: string, t: string) {
    Contains(Lower(s), Lower(t))
  }

  /** `s.startsWith(p, ignoreCase = true)`. */
  predicate StartsWithIgnoreCase(s: string, p: string) {
    |p| <= |s| && forall i :: 0 <= i < |p| ==> SameLetter(s[i], p[i])
  }

  /** A string with no ASCII capital. */
  predicate NoCapitals(s: string) {
    forall i :: 0 <= i < |s| ==> !('A' <= s[i] <= 'Z')
  }

  /** A text always contains its own prefix, so a rewritten `key: value` line still contains `key`. */
  lemma ContainsPrefix(k: string, rest: string)
    ensures Contains(k + rest, k)
  {
    assert OccursAt(k + rest, k, 0);
  }

  /** Substring containment is transitive. */
  lemma {:induction false} ContainsTransitive(s: string, t: string, u: string)
    requires Contains(s, t) && Contains(t, u)
    ensures Contains(s, u)
  {
    var i :| 0 <= i <= |s| && OccursAt(s, t, i);
    var j :| 0 <= j <= |t| && OccursAt(t, u, j);
    var inS, inT := s[i + j..i + j + |u|], t[j..j + |u|];
    forall k | 0 <= k < |u|
      ensures inS[k] == inT[k]
    {
      assert s[i..i + |t|][j + k] == t[j + k];
    }
    assert inS == inT;
    assert OccursAt(s, u, i + j);
  }

  /** Lower-casing keeps a string that has no capitals. */
  lemma {:induction false} LowerOfNoCapitals(s: string)
    requires NoCapitals(s)
    ensures Lower(s) == s
  {
    if s != [] {
      LowerOfNoCapitals(s[1..]);
    }
  }

  /** For texts without capitals, the case-insensitive test is the plain one. */
  lemma ContainsIgnoreCaseOfNoCapitals(s: string, t: string)
    requires NoCapitals(s) && NoCapitals(t)
    ensures ContainsIgnoreCase(s, t) <==> Contains(s, t)
  {
    LowerOfNoCapitals(s);
    LowerOfNoCapitals(t);
  }

  /** Folded slices are the folds of the slices. */
  lemma LowerSlice(s: string, i: int, j: int)
    requires 0 <= i <= j <= |s|
    ensures Lower(s)[i..j] == Lower(s[i..j])
  {
    var folded, slice := Lower(s)[i..j], Lower(s[i..j]);
    forall k | 0 <= k < j - i
      ensures folded[k] == slice[k]
    {
      LowerSliceAt(s, i, j, k);
    }
  }

  /** One character of a folded slice. */
  lemma LowerSliceAt(s: string, i: int, j: int, k: int)
    requires 0 <= i <= j <= |s| && 0 <= k < j - i
    ensures Lower(s)[i..j][k] == Lower(s[i..j])[k]
  {
    assert s[i..j][k] == s[i + k];
  }

  /** A plain occurrence is also an occurrence when case is ignored. */
  lemma ContainsThenIgnoreCase(s: string, t: string)
    requires Contains(s, t)
    ensures ContainsIgnoreCase(s, t)
  {
    var i :| 0 <= i <= |s| && OccursAt(s, t, i);
    LowerSlice(s, i, i + |t|);
    assert OccursAt(Lower(s), Lower(t), i);
  }

  /** Upper-casing is idempotent. */
  lemma UpperIdempotent(s: string)
    ensures Upper(Upper(s)) == Upper(s)
  {
    var once := Upper(s);
    var twice := Upper(once);
    forall k | 0 <= k < |s|
      ensures twice[k] == once[k]
    {
      assert SameLetter(twice[k], once[k]);
    }
  }
}
