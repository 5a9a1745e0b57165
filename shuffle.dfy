/** The in-place Fisher-Yates shuffle both the scramble game and the memory game run over
    their freshly built letters. The random draws are a parameter: `draws[i]` is the value
    `Math.floor(Math.random() * (i + 1))` takes when the loop is at position `i`. */
module Shuffle {

  /** Draws a Fisher-Yates pass over `n` elements can make: the draw at `i` lies in `[0, i]`. */
  predicate ValidDraws(draws: seq<int>, n: nat)
  {
    |draws| == n && forall i :: 0 <= i < n ==> 0 <= draws[i] <= i
  }

  function Swap<T>(s: seq<T>, i: nat, j: nat): seq<T>
    requires i < |s| && j < |s|
  {
    s[i := s[j]][j := s[i]]
  }

  /** A swap exchanges two elements and keeps the rest. */
  lemma SwapPermutes<T>(s: seq<T>, i: nat, j: nat)
    requires i < |s| && j < |s|
    ensures |Swap(s, i, j)| == |s| && Swap(s, i, j)[i] == s[j] && Swap(s, i, j)[j] == s[i]
    ensures multiset(Swap(s, i, j)) == multiset(s)
  {
  }

  /** What the swaps at positions `i`, `i - 1`, ..., 1 make of `s`. */
  function ShuffledDown<T>(s: seq<T>, draws: seq<int>, i: int): seq<T>
    requires ValidDraws(draws, |s|) && i < |s|
    decreases i
  {
    if i <= 0 then s else ShuffledDown(Swap(s, i, draws[i]), draws, i - 1)
  }

  /** The whole pass, from the last position down to position 1. */
  function Shuffled<T>(s: seq<T>, draws: seq<int>): seq<T>
    requires ValidDraws(draws, |s|)
  {
    ShuffledDown(s, draws, |s| - 1)
  }

  lemma {:induction false} ShuffledDownIsPermutation<T>(s: seq<T>, draws: seq<int>, i: int)
    requires ValidDraws(draws, |s|) && i < |s|
    ensures |ShuffledDown(s, draws, i)| == |s|
    ensures multiset(ShuffledDown(s, draws, i)) == multiset(s)
    decreases i
  {
    if i > 0 {
      SwapPermutes(s, i, draws[i]);
      ShuffledDownIsPermutation(Swap(s, i, draws[i]), draws, i - 1);
    }
  }

  /** The shuffle only reorders: same length, same elements, same multiplicities. */
  lemma ShuffledIsPermutation<T>(s: seq<T>, draws: seq<int>)
    requires ValidDraws(draws, |s|)
    ensures |Shuffled(s, draws)| == |s|
    ensures multiset(Shuffled(s, draws)) == multiset(s)
  {
    ShuffledDownIsPermutation(s, draws, |s| - 1);
  }

  /** Drawing each position itself leaves the order alone. */
  lemma {:induction false} IdentityDraws<T>(s: seq<T>, draws: seq<int>, i: int)
    requires ValidDraws(draws, |s|) && i < |s|
    requires forall k :: 0 <= k < |s| ==> draws[k] == k
    ensures ShuffledDown(s, draws, i) == s
    decreases i
  {
    if i > 0 {
      assert Swap(s, i, draws[i]) == s;
      IdentityDraws(s, draws, i - 1);
    }
  }

  /** No two elements of `s` share a key. */
  predicate Apart<T, K(==)>(s: seq<T>, key: T -> K)
  {
    forall i, j :: 0 <= i < j < |s| ==> key(s[i]) != key(s[j])
  }

  lemma SwapKeepsApart<T, K>(s: seq<T>, i: nat, j: nat, key: T -> K)
    requires i < |s| && j < |s| && Apart(s, key)
    ensures Apart(Swap(s, i, j), key)
  {
    var r := Swap(s, i, j);
    forall x, y | 0 <= x < y < |r| ensures key(r[x]) != key(r[y]) {
      var x' := if x == i then j else if x == j then i else x;
      var y' := if y == i then j else if y == j then i else y;
      assert r[x] == s[x'] && r[y] == s[y'];
      if x' > y' {
        assert key(s[y']) != key(s[x']);
      }
    }
  }

  lemma {:induction false} ShuffledDownKeepsApart<T, K>(s: seq<T>, draws: seq<int>, i: int, key: T -> K)
    requires ValidDraws(draws, |s|) && i < |s| && Apart(s, key)
    ensures Apart(ShuffledDown(s, draws, i), key)
    decreases i
  {
    if i > 0 {
      SwapKeepsApart(s, i, draws[i], key);
      SwapPermutes(s, i, draws[i]);
      ShuffledDownKeepsApart(Swap(s, i, draws[i]), draws, i - 1, key);
    }
  }

  /** The shuffle never makes two elements share a key. */
  lemma ShuffledKeepsApart<T, K>(s: seq<T>, draws: seq<int>, key: T -> K)
    requires ValidDraws(draws, |s|) && Apart(s, key)
    ensures Apart(Shuffled(s, draws), key)
  {
    ShuffledDownKeepsApart(s, draws, |s| - 1, key);
  }

  /** The loop `for (i = a.length - 1; i > 0; i--) swap(a[i], a[j])`. */
  method FisherYates<T>(a: array<T>, draws: seq<int>)
    requires ValidDraws(draws, a.Length)
    modifies a
    ensures a[..] == Shuffled(old(a[..]), draws)
    ensures multiset(a[..]) == multiset(old(a[..]))
  {
    var i := a.Length - 1;
    while i > 0
      invariant -1 <= i < a.Length
      invariant ShuffledDown(a[..], draws, i) == Shuffled(old(a[..]), draws)
      decreases i
    {
      var j := draws[i];
      ghost var before := a[..];
      a[i], a[j] := a[j], a[i];
      assert a[..] == Swap(before, i, j);
      assert ShuffledDown(before, draws, i) == ShuffledDown(a[..], draws, i - 1);
      i := i - 1;
    }
    ShuffledIsPermutation(old(a[..]), draws);
  }
}
