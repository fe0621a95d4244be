/**
 * pkg/utils/random.go with the random source made explicit: every call to
 * `rand.Intn`, `rand.Int63n` or the index chosen by `rand.Shuffle` is an
 * input draw, constrained to the range that the `math/rand` call promises.
 */
module Random {

  /** The token alphabet, as written: 27 entries with 'z' listed twice. */
  const Alphabet: string := "abcdefghijklmnopqrstuvwzxyz"

  /** Every draw is an index that `rand.Intn(k)` can return. */
  predicate DrawsBelow(draws: seq<int>, k: int)
  {
    forall i :: 0 <= i < |draws| ==> 0 <= draws[i] < k
  }

  /** Only lower-case ASCII letters appear in `s`. */
  predicate LowerLetters(s: string)
  {
    forall i :: 0 <= i < |s| ==> 'a' <= s[i] <= 'z'
  }

  lemma AlphabetIsLowerCase()
    ensures |Alphabet| == 27
    ensures LowerLetters(Alphabet)
  {
  }

  /**
   * The alphabet covers all 26 letters, and its only repeated entry is 'z'
   * at indices 23 and 26: 26 distinct letters reach 27 slots.
   */
  lemma AlphabetLetters()
    ensures forall c :: 'a' <= c <= 'z' ==> c in Alphabet
    ensures Alphabet[23] == Alphabet[26] == 'z'
    ensures forall i, j :: 0 <= i < j < |Alphabet| && Alphabet[i] == Alphabet[j] ==> i == 23 && j == 26
  {
    // The first 23 entries are 'a'..'w' in order; the last four are "zxyz".
    assert forall i :: 0 <= i < 23 ==> Alphabet[i] as int == 'a' as int + i;
    assert Alphabet[23] == 'z' && Alphabet[24] == 'x' && Alphabet[25] == 'y' && Alphabet[26] == 'z';
    forall c | 'a' <= c <= 'z'
      ensures c in Alphabet
    {
      var k := if c <= 'w' then c as int - 'a' as int else if c == 'x' then 24 else if c == 'y' then 25 else 23;
      assert Alphabet[k] == c;
    }
  }

  /** `RandomInt(min, max)`: `min + rand.Int63n(max-min+1)`; `draw` is the `Int63n` result. */
  function RandomInt(min: int, max: int, draw: int): (r: int)
    requires 0 <= draw < max - min + 1
    ensures min <= r <= max
    ensures r - min == draw
  {
    min + draw
  }

  /**
   * `RandomString(n)`: appends `alphabet[rand.Intn(27)]` to a builder `n`
   * times; `draws[i]` is the `i`-th `Intn` result.
   */
  method RandomString(n: int, draws: seq<int>) returns (s: string)
    requires n <= |draws|
    requires DrawsBelow(draws, |Alphabet|)
    ensures |s| == if n <= 0 then 0 else n
    ensures forall i :: 0 <= i < |s| ==> s[i] == Alphabet[draws[i]]
    ensures LowerLetters(s)
  {
    var sb := "";
    var k := |Alphabet|;
    for i := 0 to if n <= 0 then 0 else n
      invariant |sb| == i
      invariant forall j :: 0 <= j < i ==> sb[j] == Alphabet[draws[j]]
      invariant LowerLetters(sb)
    {
      var c := Alphabet[draws[i]];
      sb := sb + [c];
    }
    s := sb;
  }

  /** `s` with the elements at `i` and `j` exchanged (the `Shuffle` callback). */
  function Swap(s: seq<int>, i: int, j: int): (r: seq<int>)
    requires 0 <= i < |s| && 0 <= j < |s|
    ensures |r| == |s| && r[i] == s[j] && r[j] == s[i]
    ensures forall k :: 0 <= k < |s| && k != i && k != j ==> r[k] == s[k]
  {
    s[i := s[j]][j := s[i]]
  }

  /**
   * The indices `rand.Shuffle(n, swap)` can pass: at step `k` it swaps
   * position `n-1-k` with some `js[k]` in `0..n-1-k`.
   */
  predicate ShuffleDraws(n: int, js: seq<int>)
  {
    |js| >= n - 1 && forall k :: 0 <= k < |js| && k < n - 1 ==> 0 <= js[k] <= n - 1 - k
  }

  /** The slice after the swaps of steps `k`, `k+1`, ... have been applied to `s`. */
  function ShuffleFrom(s: seq<int>, js: seq<int>, k: nat): seq<int>
    requires ShuffleDraws(|s|, js)
    decreases |s| - k
  {
    if k + 1 >= |s| then s else ShuffleFrom(Swap(s, |s| - 1 - k, js[k]), js, k + 1)
  }

  lemma SwapPermutes(s: seq<int>, i: int, j: int)
    requires 0 <= i < |s| && 0 <= j < |s|
    ensures multiset(Swap(s, i, j)) == multiset(s)
  {
  }

  /** Shuffling keeps the length and the multiset of elements. */
  lemma {:induction false} ShufflePermutes(s: seq<int>, js: seq<int>, k: nat)
    requires ShuffleDraws(|s|, js)
    ensures |ShuffleFrom(s, js, k)| == |s|
    ensures multiset(ShuffleFrom(s, js, k)) == multiset(s)
    decreases |s| - k
  {
    if k + 1 < |s| {
      var t := Swap(s, |s| - 1 - k, js[k]);
      SwapPermutes(s, |s| - 1 - k, js[k]);
      assert ShuffleDraws(|t|, js);
      ShufflePermutes(t, js, k + 1);
      assert ShuffleFrom(s, js, k) == ShuffleFrom(t, js, k + 1);
    }
  }

  /** `RandomizeSlice`: shuffles `slice` in place and returns the same slice. */
  method RandomizeSlice(slice: array<int>, js: seq<int>) returns (r: array<int>)
    requires ShuffleDraws(slice.Length, js)
    modifies slice
    ensures r == slice
    ensures slice[..] == ShuffleFrom(old(slice[..]), js, 0)
    ensures multiset(slice[..]) == multiset(old(slice[..]))
  {
    var n := slice.Length;
    var i := n - 1;
    while i > 0
      invariant -1 <= i < n && (n > 0 ==> 0 <= i)
      invariant ShuffleFrom(slice[..], js, n - 1 - i) == ShuffleFrom(old(slice[..]), js, 0)
    {
      var j := js[n - 1 - i];
      slice[i], slice[j] := slice[j], slice[i];
      i := i - 1;
    }
    ShufflePermutes(old(slice[..]), js, 0);
    r := slice;
  }
}
