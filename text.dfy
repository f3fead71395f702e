/**
 * The two string operations the retry classifier relies on:
 * `String.prototype.toLowerCase` and `String.prototype.includes`.
 */
module Text {

  /** The Kelvin sign, the one non-ASCII character whose lower case is an ASCII letter ('k'). */
  const KelvinSign: char := '\U{212A}'

  /** Lower case of one character, for the characters that lower-case to ASCII letters. */
  function LowerChar(c: char): (d: char)
    ensures !('A' <= d <= 'Z')
    ensures 'a' <= d <= 'z' ==> c == d || 'A' <= c <= 'Z' || c == KelvinSign
  {
    if 'A' <= c <= 'Z' then (c as int + 32) as char
    else if c == KelvinSign then 'k'
    else c
  }

  /** `s.toLowerCase()`, character by character. */
  function ToLower(s: string): (r: string)
    ensures |r| == |s|
    ensures forall i :: 0 <= i < |s| ==> r[i] == LowerChar(s[i])
  {
    seq(|s|, i requires 0 <= i < |s| => LowerChar(s[i]))
  }

  /** Lower-casing twice is lower-casing once. */
  lemma LowerIdempotent(s: string)
    ensures ToLower(ToLower(s)) == ToLower(s)
  {
    var once := ToLower(s);
    forall i | 0 <= i < |s| ensures ToLower(once)[i] == once[i] {
      assert LowerChar(once[i]) == once[i];
    }
  }

  /** Lower-casing works on each part of a concatenation separately. */
  lemma LowerConcat(a: string, b: string)
    ensures ToLower(a + b) == ToLower(a) + ToLower(b)
  {
    assert forall i :: 0 <= i < |a| + |b| ==> ToLower(a + b)[i] == (ToLower(a) + ToLower(b))[i];
  }

  /** A string with no upper-case letter is its own lower case. */
  lemma LowerOfLower(s: string)
    requires forall i :: 0 <= i < |s| ==> !('A' <= s[i] <= 'Z') && s[i] != KelvinSign
    ensures ToLower(s) == s
  {
  }

  /** `t` occurs in `s` starting at index `i`. */
  ghost predicate OccursAt(s: string, t: string, i: int)
  {
    0 <= i && i + |t| <= |s| && s[i..i + |t|] == t
  }

  /** `s.includes(t)`: scans `s` from the left for an occurrence of `t`; the empty string is everywhere. */
  function Contains(s: string, t: string): bool
    decreases |s|
  {
    (|t| <= |s| && s[..|t|] == t) || (s != [] && Contains(s[1..], t))
  }

  /** The scan finds `t` exactly when `t` occurs somewhere in `s`. */
  lemma {:induction false} ContainsIff(s: string, t: string)
    ensures Contains(s, t) <==> exists i :: OccursAt(s, t, i)
    decreases |s|
  {
    if |t| <= |s| && s[..|t|] == t {
      assert s[0..|t|] == s[..|t|];
      assert OccursAt(s, t, 0);
    } else if s == [] {
      assert |t| > 0;
    } else {
      ContainsIff(s[1..], t);
      if Contains(s[1..], t) {
        var j :| OccursAt(s[1..], t, j);
        assert s[1..][j..j + |t|] == s[j + 1..j + 1 + |t|];
        assert OccursAt(s, t, j + 1);
      } else {
        forall i ensures !OccursAt(s, t, i) {
          if i == 0 && |t| <= |s| {
            assert s[0..|t|] == s[..|t|];
          } else if 1 <= i && i + |t| <= |s| {
            assert s[1..][i - 1..i - 1 + |t|] == s[i..i + |t|];
            assert !OccursAt(s[1..], t, i - 1);
          }
        }
      }
    }
  }

  /** Whatever occurs in `m` still occurs in any string that has `m` as an infix. */
  lemma ContainsInfix(p: string, m: string, q: string, t: string)
    requires Contains(m, t)
    ensures Contains(p + m + q, t)
  {
    ContainsIff(m, t);
    var i :| OccursAt(m, t, i);
    assert (p + m + q)[|p| + i..|p| + i + |t|] == m[i..i + |t|];
    assert OccursAt(p + m + q, t, |p| + i);
    ContainsIff(p + m + q, t);
  }

  /** If one character of `t` appears nowhere in `s`, then `t` does not occur in `s`. */
  lemma MissingChar(s: string, t: string, j: nat)
    requires j < |t| && t[j] !in s
    ensures !exists i :: OccursAt(s, t, i)
  {
    forall i ensures !OccursAt(s, t, i) {
      if 0 <= i && i + |t| <= |s| {
        assert s[i..i + |t|][j] == s[i + j];
      }
    }
  }
}
