/**
 * Facts about sequences that the dashboard's counting loops rely on: the
 * distinct elements of a sequence in the order they are first met, the first
 * index of an element, and per-key occurrence counts.
 */
module Tally {

  predicate Distinct<T(==)>(s: seq<T>)
  {
    forall i, j :: 0 <= i < j < |s| ==> s[i] != s[j]
  }

  /** The distinct elements of `s`, each placed where it first occurs. */
  function FirstSeen<T(==)>(s: seq<T>): seq<T>
  {
    if s == [] then []
    else
      var earlier := FirstSeen(s[..|s| - 1]);
      if s[|s| - 1] in earlier then earlier else earlier + [s[|s| - 1]]
  }

  /** Meeting one more element extends `FirstSeen` only if the element is new. */
  lemma FirstSeenSnoc<T>(s: seq<T>, x: T)
    ensures FirstSeen(s + [x]) == if x in s then FirstSeen(s) else FirstSeen(s) + [x]
  {
    assert (s + [x])[..|s|] == s;
    FirstSeenSpec(s);
  }

  /** The first index at which `x` occurs in `s`. */
  function IndexOf<T(==)>(s: seq<T>, x: T): (k: nat)
    requires x in s
    ensures k < |s| && s[k] == x
    ensures forall j :: 0 <= j < k ==> s[j] != x
  {
    if s[0] == x then 0 else 1 + IndexOf(s[1..], x)
  }

  /** `FirstSeen(s)` lists every element of `s`, nothing else, and each once. */
  lemma {:induction false} FirstSeenSpec<T>(s: seq<T>)
    ensures Distinct(FirstSeen(s))
    ensures forall x :: x in FirstSeen(s) ==> x in s
    ensures forall x :: x in s ==> x in FirstSeen(s)
  {
    if s != [] {
      var init := s[..|s| - 1];
      FirstSeenSpec(init);
      assert s == init + [s[|s| - 1]];
    }
  }

  lemma {:induction false} IndexOfSnoc<T>(s: seq<T>, y: T, x: T)
    requires x in s
    ensures IndexOf(s + [y], x) == IndexOf(s, x)
  {
    if s[0] != x {
      assert (s + [y])[1..] == s[1..] + [y];
      IndexOfSnoc(s[1..], y, x);
    }
  }

  /** The elements of `FirstSeen(s)` appear in the order of their first occurrence in `s`. */
  lemma {:induction false} FirstSeenOrder<T>(s: seq<T>, i: nat, j: nat)
    requires i < j < |FirstSeen(s)|
    ensures FirstSeen(s)[i] in s && FirstSeen(s)[j] in s
    ensures IndexOf(s, FirstSeen(s)[i]) < IndexOf(s, FirstSeen(s)[j])
  {
    FirstSeenSpec(s);
    var init := s[..|s| - 1];
    var y := s[|s| - 1];
    assert s == init + [y];
    var fs := FirstSeen(init);
    FirstSeenSpec(init);
    if j < |fs| {
      FirstSeenOrder(init, i, j);
      IndexOfSnoc(init, y, fs[i]);
      IndexOfSnoc(init, y, fs[j]);
    } else {
      assert y !in fs && FirstSeen(s) == fs + [y];
      assert FirstSeen(s)[j] == y && y !in init;
      assert i < |fs| && FirstSeen(s)[i] == fs[i] && fs[i] in fs;
      IndexOfSnoc(init, y, fs[i]);
      assert IndexOf(s, y) == |init|;
    }
  }

  function Sum(xs: seq<nat>): nat
  {
    if xs == [] then 0 else xs[0] + Sum(xs[1..])
  }

  /** The number of occurrences in `s` of each key, in the order of `keys`. */
  function CountsOf<T(==)>(s: seq<T>, keys: seq<T>): (counts: seq<nat>)
    ensures |counts| == |keys|
    ensures forall i :: 0 <= i < |keys| ==> counts[i] == multiset(s)[keys[i]]
  {
    seq(|keys|, i requires 0 <= i < |keys| => multiset(s)[keys[i]])
  }

  lemma {:induction false} CountsSnoc<T>(s: seq<T>, y: T, keys: seq<T>)
    ensures Sum(CountsOf(s + [y], keys)) == Sum(CountsOf(s, keys)) + multiset(keys)[y]
  {
    if keys != [] {
      CountsSnoc(s, y, keys[1..]);
      assert CountsOf(s + [y], keys)[1..] == CountsOf(s + [y], keys[1..]);
      assert CountsOf(s, keys)[1..] == CountsOf(s, keys[1..]);
      assert multiset(s + [y]) == multiset(s) + multiset{y};
      assert keys == [keys[0]] + keys[1..];
    }
  }

  lemma {:induction false} CountsOfEmpty<T>(keys: seq<T>)
    ensures Sum(CountsOf([], keys)) == 0
  {
    if keys != [] {
      CountsOfEmpty(keys[1..]);
      assert CountsOf([], keys)[1..] == CountsOf([], keys[1..]);
    }
  }

  lemma {:induction false} DistinctOnce<T>(keys: seq<T>, y: T)
    requires Distinct(keys) && y in keys
    ensures multiset(keys)[y] == 1
  {
    assert keys == [keys[0]] + keys[1..];
    if keys[0] == y {
      assert y !in keys[1..];
    } else {
      DistinctOnce(keys[1..], y);
    }
  }

  /**
   * When `keys` lists every element of `s` exactly once, the per-key counts
   * add up to the length of `s`.
   */
  lemma {:induction false} CountsCoverLength<T>(s: seq<T>, keys: seq<T>)
    requires Distinct(keys)
    requires forall x :: x in s ==> x in keys
    ensures Sum(CountsOf(s, keys)) == |s|
  {
    if s == [] {
      CountsOfEmpty(keys);
    } else {
      var init := s[..|s| - 1];
      var y := s[|s| - 1];
      assert s == init + [y];
      CountsCoverLength(init, keys);
      CountsSnoc(init, y, keys);
      DistinctOnce(keys, y);
    }
  }
}
