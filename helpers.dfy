/**
 * The in-place Fisher-Yates shuffle of `src/helpers.ts`. The random index that
 * the loop draws at position `i` is an input here: `js[i]`, with `0 <= js[i] <= i`,
 * which is exactly the range `Math.floor(Math.random() * (i + 1))` covers.
 */
module Helpers {

  /** `js` supplies one swap partner per position of an array of length `n`. */
  predicate ValidSwaps(js: seq<int>, n: int)
  {
    |js| == n && forall i :: 0 <= i < n ==> 0 <= js[i] <= i
  }

  /** Exchanges positions `i` and `j` of `s`, as the destructuring assignment does. */
  function Swap<T>(s: seq<T>, i: int, j: int): (r: seq<T>)
    requires 0 <= i < |s| && 0 <= j < |s|
    ensures |r| == |s| && r[i] == s[j] && r[j] == s[i]
    ensures forall k :: 0 <= k < |s| && k != i && k != j ==> r[k] == s[k]
  {
    s[i := s[j]][j := s[i]]
  }

  /** A swap moves ids around and neither loses nor duplicates one. */
  lemma SwapPermutes<T>(s: seq<T>, i: int, j: int)
    requires 0 <= i < |s| && 0 <= j < |s|
    ensures multiset(Swap(s, i, j)) == multiset(s)
  {
  }

  /** What the loop still does to `s` when it is about to run step `i` (then `i - 1`, ..., 1). */
  function Shuffle<T>(s: seq<T>, js: seq<int>, i: int): (r: seq<T>)
    requires ValidSwaps(js, |s|) && i < |s|
    ensures |r| == |s|
    decreases i
  {
    if i <= 0 then s else Shuffle(Swap(s, i, js[i]), js, i - 1)
  }

  /** The whole shuffle: steps `|s| - 1` down to 1. */
  function Shuffled<T>(s: seq<T>, js: seq<int>): seq<T>
    requires ValidSwaps(js, |s|)
  {
    Shuffle(s, js, |s| - 1)
  }

  /** The result is a permutation of the input: every id survives, none is duplicated. */
  lemma {:induction false} ShufflePermutes<T>(s: seq<T>, js: seq<int>, i: int)
    requires ValidSwaps(js, |s|) && i < |s|
    ensures multiset(Shuffle(s, js, i)) == multiset(s)
    decreases i
  {
    if i > 0 {
      SwapPermutes(s, i, js[i]);
      ShufflePermutes(Swap(s, i, js[i]), js, i - 1);
    }
  }

  /** Once step `i` is reached, the steps left never write a position above `i`. */
  lemma {:induction false} ShuffleFixesSuffix<T>(s: seq<T>, js: seq<int>, i: int, k: int)
    requires ValidSwaps(js, |s|) && i < |s| && 0 <= k && i < k < |s|
    ensures Shuffle(s, js, i)[k] == s[k]
    decreases i
  {
    if i > 0 {
      ShuffleFixesSuffix(Swap(s, i, js[i]), js, i - 1, k);
    }
  }

  /** Arrays of length 0 or 1 come back unchanged. */
  lemma ShuffleShort<T>(s: seq<T>, js: seq<int>)
    requires ValidSwaps(js, |s|) && |s| <= 1
    ensures Shuffled(s, js) == s
  {
  }

  /** No element occurs twice. */
  predicate Distinct<T(==)>(s: seq<T>)
  {
    forall i, j :: 0 <= i < j < |s| ==> s[i] != s[j]
  }

  /** A swap keeps a sequence without repeats free of repeats. */
  lemma SwapKeepsDistinct<T>(s: seq<T>, i: int, j: int)
    requires 0 <= i < |s| && 0 <= j < |s| && Distinct(s)
    ensures Distinct(Swap(s, i, j))
  {
    var r := Swap(s, i, j);
    forall a, b | 0 <= a < b < |r| ensures r[a] != r[b] {
      var sa := if a == i then j else if a == j then i else a;
      var sb := if b == i then j else if b == j then i else b;
      assert r[a] == s[sa] && r[b] == s[sb] && sa != sb;
      if sa > sb {
        assert s[sb] != s[sa];
      }
    }
  }

  /** The steps of the shuffle keep a sequence without repeats free of repeats. */
  lemma {:induction false} ShuffleKeepsDistinct<T>(s: seq<T>, js: seq<int>, i: int)
    requires ValidSwaps(js, |s|) && i < |s| && Distinct(s)
    ensures Distinct(Shuffle(s, js, i))
    decreases i
  {
    if i > 0 {
      SwapKeepsDistinct(s, i, js[i]);
      ShuffleKeepsDistinct(Swap(s, i, js[i]), js, i - 1);
    }
  }

  /** The permutation fact for a whole shuffle, as the callers use it. */
  lemma ShuffledPermutes<T>(s: seq<T>, js: seq<int>)
    requires ValidSwaps(js, |s|)
    ensures |Shuffled(s, js)| == |s|
    ensures multiset(Shuffled(s, js)) == multiset(s)
  {
    ShufflePermutes(s, js, |s| - 1);
  }

  /**
   * `shuffleArray`: walks `i` from the last index down to 1, swapping `a[i]` with
   * `a[js[i]]`, and returns the same array it was given.
   */
  method ShuffleArray(a: array<string>, js: seq<int>) returns (r: array<string>)
    requires ValidSwaps(js, a.Length)
    modifies a
    ensures r == a
    ensures a[..] == Shuffled(old(a[..]), js)
  {
    ghost var goal := Shuffled(a[..], js);
    var i := a.Length - 1;
    while i > 0
      invariant -1 <= i < a.Length
      invariant Shuffle(a[..], js, i) == goal
      // positions above i already hold their final ids
      invariant forall k :: i < k < a.Length ==> a[k] == goal[k]
    {
      var j := js[i];
      ghost var before := a[..];
      var x, y := a[j], a[i];
      a[i] := x;
      a[j] := y;
      assert a[..] == Swap(before, i, j);
      ShuffleFixesSuffix(a[..], js, i - 1, i);
      i := i - 1;
    }
    r := a;
  }
}
