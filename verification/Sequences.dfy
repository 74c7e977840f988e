/** Sequences: prefixes, repetition and rearrangement. */
module Sequences {

  /** The first `n` elements, or all of them. */
  function First<T>(n: nat, s: seq<T>): seq<T> { if n <= |s| then s[..n] else s }

  predicate Distinct<T(==)>(s: seq<T>) { forall a, b :: 0 <= a < b < |s| ==> s[a] != s[b] }

  lemma {:induction false} Assoc<T>(x: seq<T>, y: seq<T>, z: seq<T>)
    ensures x + (y + z) == (x + y) + z
  {
  }

  lemma {:induction false} Uncons<T>(a: seq<T>, b: seq<T>)
    requires a != []
    ensures a + b != [] && (a + b)[0] == a[0] && (a + b)[1..] == a[1..] + b
  {
  }

  lemma {:induction false} SameMembers<T>(a: seq<T>, b: seq<T>)
    requires multiset(a) == multiset(b)
    ensures forall x :: x in a <==> x in b
  {
    forall x ensures x in a <==> x in b {
      assert x in a <==> x in multiset(a);
      assert x in b <==> x in multiset(b);
    }
  }

  lemma {:induction false} CountOnce<T>(s: seq<T>, x: T)
    requires Distinct(s)
    ensures multiset(s)[x] == if x in s then 1 else 0
  {
    if s != [] {
      CountOnce(s[1..], x);
      assert s == [s[0]] + s[1..];
      if s[0] in s[1..] { var k :| 0 <= k < |s[1..]| && s[1..][k] == s[0]; assert s[k + 1] == s[0]; }
    }
  }

  lemma {:induction false} CountTwice<T>(s: seq<T>, a: nat, b: nat)
    requires a < b < |s| && s[a] == s[b]
    ensures multiset(s)[s[a]] >= 2
  {
    assert s == s[..b] + s[b..];
    assert s[a] == s[..b][a] && s[b] == s[b..][0];
    assert multiset(s[..b])[s[a]] >= 1 && multiset(s[b..])[s[a]] >= 1;
  }

  lemma {:induction false} DistinctBack<T>(s: seq<T>)
    requires forall x :: multiset(s)[x] <= 1
    ensures Distinct(s)
  {
    forall a, b | 0 <= a < b < |s| ensures s[a] != s[b] {
      if s[a] == s[b] { CountTwice(s, a, b); }
    }
  }

  /** Sequences without repetition are rearrangements of each other when they have the same members. */
  lemma {:induction false} Rearranged<T>(a: seq<T>, b: seq<T>)
    requires Distinct(a)
    ensures multiset(a) == multiset(b) <==> Distinct(b) && forall x :: x in a <==> x in b
  {
    if multiset(a) == multiset(b) {
      SameMembers(a, b);
      forall x ensures multiset(b)[x] <= 1 { CountOnce(a, x); }
      DistinctBack(b);
    } else if Distinct(b) && forall x :: x in a <==> x in b {
      forall x ensures multiset(a)[x] == multiset(b)[x] { CountOnce(a, x); CountOnce(b, x); }
    }
  }
}
