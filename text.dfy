/**
 * String helpers used by the SQL `LIKE`/`ILIKE` filters and by the header
 * parsing: substring containment, ASCII lower-casing and Go's 32-bit
 * integer narrowing.
 */
module Text {

  /** `needle` occurs in `hay` at position `i`. */
  predicate OccursAt(hay: string, needle: string, i: int)
  {
    0 <= i && i + |needle| <= |hay| && hay[i..i + |needle|] == needle
  }

  /**
   * `hay LIKE '%' + needle + '%'`: plain substring containment (the wildcard
   * meaning of `%` and `_` inside `needle` is not modelled).
   */
  predicate Contains(hay: string, needle: string)
  {
    exists i :: 0 <= i <= |hay| - |needle| && OccursAt(hay, needle, i)
  }

  lemma {:induction false} EmptyContained(hay: string)
    ensures Contains(hay, "")
  {
    assert OccursAt(hay, "", 0);
  }

  lemma {:induction false} SelfContained(s: string)
    ensures Contains(s, s)
  {
    assert s[0..|s|] == s;
    assert OccursAt(s, s, 0);
  }

  /** ASCII lower-casing of one character. */
  function LowerChar(c: char): (r: char)
    ensures 'A' <= c <= 'Z' ==> 'a' <= r <= 'z'
    ensures !('A' <= c <= 'Z') ==> r == c
  {
    if 'A' <= c <= 'Z' then (c as int + 32) as char else c
  }

  /** ASCII lower-casing of a string, character by character. */
  function Lower(s: string): (r: string)
    ensures |r| == |s|
    ensures forall i :: 0 <= i < |s| ==> r[i] == LowerChar(s[i])
  {
    if s == [] then [] else [LowerChar(s[0])] + Lower(s[1..])
  }

  /** `hay ILIKE '%' + needle + '%'`: case-insensitive substring containment. */
  predicate IContains(hay: string, needle: string)
  {
    Contains(Lower(hay), Lower(needle))
  }

  /** Containment implies case-insensitive containment. */
  lemma {:induction false} ContainsImpliesIContains(hay: string, needle: string)
    requires Contains(hay, needle)
    ensures IContains(hay, needle)
  {
    var i :| 0 <= i <= |hay| - |needle| && OccursAt(hay, needle, i);
    var lh, ln := Lower(hay), Lower(needle);
    assert forall k :: 0 <= k < |needle| ==> lh[i + k] == LowerChar(hay[i + k]) == LowerChar(needle[k]) == ln[k] by {
      forall k | 0 <= k < |needle|
        ensures lh[i + k] == ln[k]
      {
        assert hay[i..i + |needle|][k] == needle[k];
      }
    }
    assert lh[i..i + |ln|] == ln;
    assert OccursAt(lh, ln, i);
  }

  const TwoTo31: int := 0x8000_0000
  const TwoTo32: int := 0x1_0000_0000

  predicate IsInt32(x: int)
  {
    -TwoTo31 <= x < TwoTo31
  }

  /** Go's `int32`. */
  type Int32 = x: int | -0x8000_0000 <= x < 0x8000_0000

  /** Go's `int32(x)`: keep the low 32 bits, read them as two's complement. */
  function ToInt32(x: int): (r: Int32)
    ensures (r - x) % TwoTo32 == 0
    ensures IsInt32(x) ==> r == x
  {
    (x + TwoTo31) % TwoTo32 - TwoTo31
  }
}
