/** Stable insertion by a key, highest first: the order of a ranking, and of a query's rows. */
module Ranking {

  predicate Ranked<T>(s: seq<T>, key: T -> int) {
    forall i, j :: 0 <= i < j < |s| ==> key(s[i]) >= key(s[j])
  }

  predicate NoRepeats<T(==)>(s: seq<T>) {
    forall i, j :: 0 <= i < j < |s| ==> s[i] != s[j]
  }

  predicate AtLeast<T>(s: seq<T>, key: T -> int, bound: int) {
    forall i :: 0 <= i < |s| ==> key(s[i]) >= bound
  }

  lemma FromMultiset<T>(r: seq<T>, s: seq<T>, x: T, key: T -> int, bound: int)
    requires multiset(r) == multiset(s) + multiset{x} && AtLeast(s, key, bound) && key(x) >= bound
    ensures AtLeast(r, key, bound)
  {
    forall i | 0 <= i < |r| ensures key(r[i]) >= bound {
      assert r[i] in multiset(r);
    }
  }

  /** Behind everything that ranks as high. */
  function Insert<T>(s: seq<T>, x: T, key: T -> int): (r: seq<T>)
    requires Ranked(s, key)
    ensures Ranked(r, key) && multiset(r) == multiset(s) + multiset{x}
  {
    if s == [] then [x]
    else if key(s[|s| - 1]) >= key(x) then s + [x]
    else
      var last := s[|s| - 1];
      assert s == s[..|s| - 1] + [last];
      var r := Insert(s[..|s| - 1], x, key);
      assert AtLeast(r, key, key(last)) by { FromMultiset(r, s[..|s| - 1], x, key, key(last)); }
      r + [last]
  }

  function SortStable<T>(s: seq<T>, key: T -> int): (r: seq<T>)
    ensures Ranked(r, key) && multiset(r) == multiset(s)
  {
    if s == [] then []
    else
      assert s == s[..|s| - 1] + [s[|s| - 1]];
      Insert(SortStable(s[..|s| - 1], key), s[|s| - 1], key)
  }

  lemma {:induction false} OnceEach<T>(s: seq<T>, x: T)
    requires NoRepeats(s)
    ensures multiset(s)[x] == if x in s then 1 else 0
  {
    if s != [] {
      assert s == s[..|s| - 1] + [s[|s| - 1]];
      OnceEach(s[..|s| - 1], x);
    }
  }

  lemma TwoAre<T>(s: seq<T>, i: nat, j: nat)
    requires i < j < |s| && s[i] == s[j]
    ensures multiset(s)[s[i]] >= 2
  {
    assert s == s[..i] + [s[i]] + s[i + 1..j] + [s[j]] + s[j + 1..];
  }

  lemma SameElements<T>(s: seq<T>, r: seq<T>)
    requires multiset(r) == multiset(s)
    ensures forall x :: x in r <==> x in s
  {
    forall x ensures x in r <==> x in s {
      assert x in r <==> x in multiset(r);
      assert x in s <==> x in multiset(s);
    }
  }

  /** Arranging elements that differ makes no two the same. */
  lemma StillNoRepeats<T>(s: seq<T>, r: seq<T>)
    requires NoRepeats(s) && multiset(r) == multiset(s)
    ensures NoRepeats(r)
  {
    forall i, j | 0 <= i < j < |r| ensures r[i] != r[j] {
      if r[i] == r[j] {
        TwoAre(r, i, j);
        OnceEach(s, r[i]);
      }
    }
  }
}
