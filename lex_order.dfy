/**
 * The order in which JavaScript's `Array.prototype.sort()` without a
 * comparator places strings: character by character, a proper prefix first.
 * `SortAscending` stands in for that library sort; on distinct keys every
 * correct sort gives the same result, which is all the dashboard depends on.
 */
module LexOrder {
  import opened Tally

  /** `a` sorts strictly before `b`. */
  predicate Below(a: string, b: string)
  {
    if a == [] then b != []
    else if b == [] then false
    else if a[0] != b[0] then a[0] < b[0]
    else Below(a[1..], b[1..])
  }

  lemma {:induction false} BelowIrreflexive(a: string)
    ensures !Below(a, a)
  {
    if a != [] {
      BelowIrreflexive(a[1..]);
    }
  }

  lemma {:induction false} BelowTransitive(a: string, b: string, c: string)
    requires Below(a, b) && Below(b, c)
    ensures Below(a, c)
  {
    if a != [] && b != [] && c != [] && a[0] == b[0] && b[0] == c[0] {
      BelowTransitive(a[1..], b[1..], c[1..]);
    }
  }

  lemma {:induction false} BelowTotal(a: string, b: string)
    requires a != b
    ensures Below(a, b) || Below(b, a)
  {
    if a != [] && b != [] && a[0] == b[0] {
      assert a == [a[0]] + a[1..] && b == [b[0]] + b[1..];
      BelowTotal(a[1..], b[1..]);
    }
  }

  predicate StrictlyAscending(s: seq<string>)
  {
    forall i, j :: 0 <= i < j < |s| ==> Below(s[i], s[j])
  }

  lemma AscendingIsDistinct(s: seq<string>)
    requires StrictlyAscending(s)
    ensures Distinct(s)
  {
    forall i, j | 0 <= i < j < |s|
      ensures s[i] != s[j]
    {
      BelowIrreflexive(s[i]);
    }
  }

  /** Insert `x` in front of the first element it sorts before. */
  function Insert(x: string, s: seq<string>): seq<string>
  {
    if s == [] then [x]
    else if Below(s[0], x) then [s[0]] + Insert(x, s[1..])
    else [x] + s
  }

  function SortAscending(s: seq<string>): seq<string>
  {
    if s == [] then [] else Insert(s[0], SortAscending(s[1..]))
  }

  lemma {:induction false} InsertSpec(x: string, s: seq<string>)
    requires StrictlyAscending(s) && x !in s
    ensures multiset(Insert(x, s)) == multiset(s) + multiset{x}
    ensures StrictlyAscending(Insert(x, s))
  {
    if s == [] {
    } else if Below(s[0], x) {
      assert s == [s[0]] + s[1..];
      var r := Insert(x, s[1..]);
      InsertSpec(x, s[1..]);
      forall k | 0 <= k < |r|
        ensures Below(s[0], r[k])
      {
        assert r[k] in multiset(r);
        if r[k] != x {
          assert r[k] in multiset(s[1..]);
          var m :| 0 <= m < |s[1..]| && s[1..][m] == r[k];
          assert s[m + 1] == r[k];
        }
      }
    } else {
      BelowTotal(x, s[0]);
      forall k | 0 <= k < |s|
        ensures Below(x, s[k])
      {
        if k > 0 {
          BelowTransitive(x, s[0], s[k]);
        }
      }
    }
  }

  /** The sort returns a rearrangement of its input; distinct input comes out strictly ascending. */
  lemma {:induction false} SortAscendingSpec(s: seq<string>)
    requires Distinct(s)
    ensures multiset(SortAscending(s)) == multiset(s)
    ensures StrictlyAscending(SortAscending(s))
  {
    if s != [] {
      assert s == [s[0]] + s[1..];
      SortAscendingSpec(s[1..]);
      var t := SortAscending(s[1..]);
      assert s[0] !in multiset(s[1..]);
      assert s[0] !in multiset(t);
      InsertSpec(s[0], t);
    }
  }
}
