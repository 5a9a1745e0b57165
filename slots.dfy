/** A row of answer slots, each empty or holding one letter, shared by the letter puzzles. */
module Slots {
  import opened Text

  /** The letters in the filled slots, left to right. */
  function Filled<T>(slots: seq<Option<T>>): (r: seq<T>)
    ensures |r| <= |slots|
    decreases |slots|
  {
    if slots == [] then []
    else (if slots[0].Some? then [slots[0].value] else []) + Filled(slots[1..])
  }

  /** Every slot holds a letter. */
  predicate Full<T>(slots: seq<Option<T>>)
  {
    forall i :: 0 <= i < |slots| ==> slots[i].Some?
  }

  /** A row of `n` empty slots. */
  function Empty<T>(n: nat): (r: seq<Option<T>>)
    ensures |r| == n && forall i :: 0 <= i < n ==> r[i] == None
  {
    seq(n, i => None)
  }

  /** `slots.indexOf(null)`: the first empty slot, if any. */
  function FirstEmpty<T>(slots: seq<Option<T>>): (r: Option<nat>)
    ensures r.Some? ==> r.value < |slots| && slots[r.value] == None
                        && forall i :: 0 <= i < r.value ==> slots[i].Some?
    ensures r.None? <==> Full(slots)
    decreases |slots|
  {
    if slots == [] then None
    else if slots[0] == None then Some(0)
    else match FirstEmpty(slots[1..])
      case None => None
      case Some(i) => Some(i + 1)
  }

  /** A full row holds exactly one letter per slot, in order. */
  lemma {:induction false} FilledOfFull<T>(slots: seq<Option<T>>)
    requires Full(slots)
    ensures |Filled(slots)| == |slots|
    ensures forall i :: 0 <= i < |slots| ==> Filled(slots)[i] == slots[i].value
    decreases |slots|
  {
    if slots != [] {
      FilledOfFull(slots[1..]);
    }
  }

  lemma {:induction false} FilledOfEmpty<T>(n: nat)
    ensures Filled(Empty<T>(n)) == []
  {
    if n > 0 {
      assert Empty<T>(n)[1..] == Empty<T>(n - 1);
      FilledOfEmpty<T>(n - 1);
    }
  }

  /** Putting a letter into an empty slot adds exactly that letter to the filled ones. */
  lemma {:induction false} FilledPut<T>(slots: seq<Option<T>>, i: nat, x: T)
    requires i < |slots| && slots[i] == None
    ensures multiset(Filled(slots[i := Some(x)])) == multiset(Filled(slots)) + multiset{x}
    decreases |slots|
  {
    if i > 0 {
      assert slots[i := Some(x)][1..] == slots[1..][i - 1 := Some(x)];
      FilledPut(slots[1..], i - 1, x);
    } else {
      assert slots[i := Some(x)][1..] == slots[1..];
    }
  }

  /** Emptying a filled slot removes exactly its letter from the filled ones. */
  lemma {:induction false} FilledClear<T>(slots: seq<Option<T>>, i: nat)
    requires i < |slots| && slots[i].Some?
    ensures multiset(Filled(slots[i := None])) + multiset{slots[i].value} == multiset(Filled(slots))
    decreases |slots|
  {
    if i > 0 {
      assert slots[i := None][1..] == slots[1..][i - 1 := None];
      FilledClear(slots[1..], i - 1);
    } else {
      assert slots[i := None][1..] == slots[1..];
    }
  }

  // ---------------------------------------------------------------- a pool of tiles

  /** `s.find(p)` (or `s.findIndex(p)`), as a position. */
  function FindFirst<T>(s: seq<T>, p: T -> bool): (r: Option<nat>)
    ensures r.Some? ==> r.value < |s| && p(s[r.value]) && forall j :: 0 <= j < r.value ==> !p(s[j])
    ensures r.None? <==> forall j :: 0 <= j < |s| ==> !p(s[j])
    decreases |s|
  {
    if s == [] then None
    else if p(s[0]) then Some(0)
    else match FindFirst(s[1..], p)
      case None => None
      case Some(k) => Some(k + 1)
  }

  /** `s.filter(p)` */
  function Filter<T>(s: seq<T>, p: T -> bool): (r: seq<T>)
    ensures |r| <= |s|
    decreases |s|
  {
    if s == [] then [] else (if p(s[0]) then [s[0]] else []) + Filter(s[1..], p)
  }

  lemma {:induction false} FilterKeepsAll<T>(s: seq<T>, p: T -> bool)
    requires forall j :: 0 <= j < |s| ==> p(s[j])
    ensures Filter(s, p) == s
    decreases |s|
  {
    if s != [] {
      FilterKeepsAll(s[1..], p);
    }
  }

  /** A filter that rejects exactly the element at `k` removes just that element. */
  lemma {:induction false} FilterDropsOne<T>(s: seq<T>, p: T -> bool, k: nat)
    requires k < |s|
    requires forall j :: 0 <= j < |s| ==> (p(s[j]) <==> j != k)
    ensures Filter(s, p) == s[..k] + s[k + 1..]
    decreases |s|
  {
    if k == 0 {
      FilterKeepsAll(s[1..], p);
      assert s[..0] + s[1..] == s[1..];
    } else {
      var tail := s[1..];
      FilterDropsOne(tail, p, k - 1);
      assert tail[..k - 1] + tail[k..] == s[1..k] + s[k + 1..];
      assert s[..k] + s[k + 1..] == [s[0]] + (s[1..k] + s[k + 1..]);
    }
  }

  /** Taking one element out of a sequence takes it out of its multiset. */
  lemma SpliceMultiset<T>(s: seq<T>, k: nat)
    requires k < |s|
    ensures multiset(s[..k] + s[k + 1..]) + multiset{s[k]} == multiset(s)
  {
    assert s == s[..k] + [s[k]] + s[k + 1..];
  }
}
