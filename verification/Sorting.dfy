/** Sorting strings by code point, as the signed body of a mandate needs it. */
module Sorting {

  /** The lexicographic order on strings. */
  predicate Leq(a: string, b: string) {
    a == "" || (b != "" && (a[0] < b[0] || (a[0] == b[0] && Leq(a[1..], b[1..]))))
  }

  /** The order looks at the first place where two strings differ; a string precedes
      what it is a prefix of. */
  lemma {:induction false} LeqAtFirstDifference(a: string, b: string, k: nat)
    requires k <= |a| && k <= |b| && a[..k] == b[..k]
    requires k < |a| && k < |b| ==> a[k] != b[k]
    ensures Leq(a, b) <==> k == |a| || (k < |b| && a[k] < b[k])
  {
    if k > 0 {
      assert a[0] == a[..k][0] && b[0] == b[..k][0];
      assert a[1..][..k - 1] == a[..k][1..] && b[1..][..k - 1] == b[..k][1..];
      LeqAtFirstDifference(a[1..], b[1..], k - 1);
    }
  }

  lemma {:induction false} LeqTotal(a: string, b: string)
    ensures Leq(a, b) || Leq(b, a)
  {
    if a != "" && b != "" && a[0] == b[0] {
      LeqTotal(a[1..], b[1..]);
    }
  }

  lemma {:induction false} LeqAntisymmetric(a: string, b: string)
    requires Leq(a, b) && Leq(b, a)
    ensures a == b
  {
    if a != "" {
      LeqAntisymmetric(a[1..], b[1..]);
      assert a == [a[0]] + a[1..] && b == [b[0]] + b[1..];
    }
  }

  lemma {:induction false} LeqTransitive(a: string, b: string, c: string)
    requires Leq(a, b) && Leq(b, c)
    ensures Leq(a, c)
  {
    if a != "" && a[0] == b[0] && b[0] == c[0] {
      LeqTransitive(a[1..], b[1..], c[1..]);
    }
  }

  function Insert(x: string, s: seq<string>): seq<string> {
    if s == [] || Leq(x, s[0]) then [x] + s else [s[0]] + Insert(x, s[1..])
  }

  function Sorted(s: seq<string>): seq<string> {
    if s == [] then [] else Insert(s[0], Sorted(s[1..]))
  }

  predicate IsSorted(s: seq<string>) {
    |s| <= 1 || (Leq(s[0], s[1]) && IsSorted(s[1..]))
  }

  lemma {:induction false} InsertKeeps(x: string, s: seq<string>)
    ensures multiset(Insert(x, s)) == multiset{x} + multiset(s)
    ensures IsSorted(s) ==> IsSorted(Insert(x, s))
  {
    if s == [] || Leq(x, s[0]) {
    } else {
      InsertKeeps(x, s[1..]);
      LeqTotal(x, s[0]);
      assert s == [s[0]] + s[1..];
    }
  }

  /** Sorting keeps every element, with its multiplicity, and puts them in order. */
  lemma {:induction false} SortedIsPermutation(s: seq<string>)
    ensures multiset(Sorted(s)) == multiset(s)
    ensures IsSorted(Sorted(s))
  {
    if s != [] {
      SortedIsPermutation(s[1..]);
      InsertKeeps(s[0], Sorted(s[1..]));
      assert s == [s[0]] + s[1..];
    }
  }

  lemma {:induction false} HeadIsLeast(s: seq<string>, x: string)
    requires IsSorted(s) && x in multiset(s)
    ensures Leq(s[0], x)
  {
    assert s == [s[0]] + s[1..];
    if x == s[0] {
      LeqTotal(x, x);
    } else {
      assert x in multiset(s[1..]);
      HeadIsLeast(s[1..], x);
      LeqTransitive(s[0], s[1], x);
    }
  }

  lemma WithoutHead(s: seq<string>)
    requires s != []
    ensures multiset(s[1..]) == multiset(s) - multiset{s[0]}
  {
    assert s == [s[0]] + s[1..];
  }

  lemma SortedHeadsAgree(s: seq<string>, t: seq<string>)
    requires IsSorted(s) && IsSorted(t) && multiset(s) == multiset(t) && s != []
    ensures t != [] && s[0] == t[0]
  {
    assert |multiset(t)| == |multiset(s)|;
    assert s[0] in multiset(t) && t[0] in multiset(s);
    HeadIsLeast(s, t[0]);
    HeadIsLeast(t, s[0]);
    LeqAntisymmetric(s[0], t[0]);
  }

  /** A multiset has one sorted arrangement only. */
  lemma {:induction false} SortedUnique(s: seq<string>, t: seq<string>)
    requires IsSorted(s) && IsSorted(t) && multiset(s) == multiset(t)
    ensures s == t
  {
    if s == [] {
      assert |multiset(t)| == 0;
    } else {
      SortedHeadsAgree(s, t);
      WithoutHead(s);
      WithoutHead(t);
      SortedUnique(s[1..], t[1..]);
      assert s == [s[0]] + s[1..] && t == [t[0]] + t[1..];
    }
  }

  /** Two lists have the same sorted form exactly when one is a reordering of the other. */
  lemma SortedIffPermutation(s: seq<string>, t: seq<string>)
    ensures Sorted(s) == Sorted(t) <==> multiset(s) == multiset(t)
  {
    SortedIsPermutation(s);
    SortedIsPermutation(t);
    if multiset(s) == multiset(t) {
      SortedUnique(Sorted(s), Sorted(t));
    }
  }

  lemma SortedSameMembers(s: seq<string>, x: string)
    ensures x in Sorted(s) <==> x in s
  {
    SortedIsPermutation(s);
    assert x in Sorted(s) <==> x in multiset(Sorted(s));
    assert x in s <==> x in multiset(s);
  }
}
