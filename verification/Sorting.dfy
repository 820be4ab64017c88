/** Sorting under a total order, and the fact every comparison of sorted lists rests on:
    two lists have the same sorted form exactly when they hold the same elements, each
    the same number of times. */
module Sorting {
  ghost predicate TotalOrder<T(!new)>(le: (T, T) -> bool) {
    && (forall a, b :: le(a, b) || le(b, a))
    && (forall a, b :: le(a, b) && le(b, a) ==> a == b)
    && (forall a, b, c :: le(a, b) && le(b, c) ==> le(a, c))
  }

  ghost predicate Ordered<T>(s: seq<T>, le: (T, T) -> bool) {
    forall i, j :: 0 <= i < j < |s| ==> le(s[i], s[j])
  }

  function Insert<T>(x: T, s: seq<T>, le: (T, T) -> bool): seq<T> {
    if s == [] || le(x, s[0]) then [x] + s else [s[0]] + Insert(x, s[1..], le)
  }

  function Sort<T>(s: seq<T>, le: (T, T) -> bool): seq<T> {
    if s == [] then [] else Insert(s[0], Sort(s[1..], le), le)
  }

  lemma {:induction false} InsertPermutes<T>(x: T, s: seq<T>, le: (T, T) -> bool)
    ensures multiset(Insert(x, s, le)) == multiset{x} + multiset(s)
  {
    if s == [] || le(x, s[0]) {
    } else {
      assert s == [s[0]] + s[1..];
      InsertPermutes(x, s[1..], le);
    }
  }

  lemma {:induction false} SortPermutes<T>(s: seq<T>, le: (T, T) -> bool)
    ensures multiset(Sort(s, le)) == multiset(s)
    ensures |Sort(s, le)| == |s|
  {
    if s == [] {
    } else {
      SortPermutes(s[1..], le);
      InsertPermutes(s[0], Sort(s[1..], le), le);
      assert s == [s[0]] + s[1..];
    }
    assert |multiset(Sort(s, le))| == |multiset(s)|;
  }

  lemma {:induction false} InsertKeepsOrder<T(!new)>(x: T, s: seq<T>, le: (T, T) -> bool)
    requires TotalOrder(le) && Ordered(s, le)
    ensures Ordered(Insert(x, s, le), le)
  {
    var r := Insert(x, s, le);
    if s == [] {
    } else if le(x, s[0]) {
      forall i, j | 0 <= i < j < |r| ensures le(r[i], r[j]) {
        if i == 0 {
          assert r[j] == s[j - 1];
          assert j - 1 == 0 || le(s[0], s[j - 1]);
        }
      }
    } else {
      var t := Insert(x, s[1..], le);
      InsertKeepsOrder(x, s[1..], le);
      InsertPermutes(x, s[1..], le);
      forall i, j | 0 <= i < j < |r| ensures le(r[i], r[j]) {
        if i == 0 {
          assert r[j] == t[j - 1] && t[j - 1] in multiset(t);
          assert r[j] == x || r[j] in s[1..];
        }
      }
    }
  }

  lemma {:induction false} SortIsOrdered<T(!new)>(s: seq<T>, le: (T, T) -> bool)
    requires TotalOrder(le)
    ensures Ordered(Sort(s, le), le)
  {
    if s != [] {
      SortIsOrdered(s[1..], le);
      InsertKeepsOrder(s[0], Sort(s[1..], le), le);
    }
  }

  lemma HeadIsLeast<T>(s: seq<T>, x: T, le: (T, T) -> bool)
    requires Ordered(s, le) && s != [] && x in s
    ensures x == s[0] || le(s[0], x)
  {
  }

  lemma TailIsOrdered<T>(s: seq<T>, le: (T, T) -> bool)
    requires Ordered(s, le) && s != []
    ensures Ordered(s[1..], le)
  {
  }

  /** Two ordered lists with the same elements are the same list. */
  lemma {:induction false} OrderedFormIsUnique<T(!new)>(a: seq<T>, b: seq<T>, le: (T, T) -> bool)
    requires TotalOrder(le) && Ordered(a, le) && Ordered(b, le)
    requires multiset(a) == multiset(b)
    ensures a == b
  {
    if a == [] {
      assert |multiset(b)| == 0;
    } else {
      assert |multiset(a)| == |multiset(b)|;
      assert a[0] in multiset(b) && b[0] in multiset(a);
      HeadIsLeast(a, b[0], le);
      HeadIsLeast(b, a[0], le);
      TailIsOrdered(a, le);
      TailIsOrdered(b, le);
      assert a[0] == b[0];
      hide TotalOrder, Ordered;
      assert a == [a[0]] + a[1..] && b == [b[0]] + b[1..];
      assert multiset(a[1..]) == multiset(a) - multiset{a[0]};
      assert multiset(b[1..]) == multiset(b) - multiset{b[0]};
      OrderedFormIsUnique(a[1..], b[1..], le);
    }
  }

  lemma {:induction false} SameSortedForm<T(!new)>(a: seq<T>, b: seq<T>, le: (T, T) -> bool)
    requires TotalOrder(le)
    ensures Sort(a, le) == Sort(b, le) <==> multiset(a) == multiset(b)
  {
    SortPermutes(a, le);
    SortPermutes(b, le);
    if multiset(a) == multiset(b) {
      SortIsOrdered(a, le);
      SortIsOrdered(b, le);
      OrderedFormIsUnique(Sort(a, le), Sort(b, le), le);
    }
  }

  /** What is computed from each element of a permutation is again a permutation. */
  lemma {:induction false} MapPermutes<T, U>(a: seq<T>, b: seq<T>, f: T -> U)
    requires multiset(a) == multiset(b)
    ensures multiset(Map(a, f)) == multiset(Map(b, f))
    decreases |a|
  {
    if a == [] {
      assert |multiset(b)| == 0;
    } else {
      assert a == [a[0]] + a[1..];
      assert a[0] in multiset(b);
      var i :| 0 <= i < |b| && b[i] == a[0];
      TakenOut(a, 0);
      TakenOut(b, i);
      MapPermutes(a[..0] + a[1..], b[..i] + b[i + 1..], f);
      MappedTakenOut(a, 0, f);
      MappedTakenOut(b, i, f);
    }
  }

  lemma TakenOut<T>(s: seq<T>, i: nat)
    requires i < |s|
    ensures multiset(s) == multiset{s[i]} + multiset(s[..i] + s[i + 1..])
    ensures multiset(s[..i] + s[i + 1..]) == multiset(s) - multiset{s[i]}
  {
    assert s == s[..i] + [s[i]] + s[i + 1..];
  }

  lemma MappedTakenOut<T, U>(s: seq<T>, i: nat, f: T -> U)
    requires i < |s|
    ensures multiset(Map(s, f)) == multiset{f(s[i])} + multiset(Map(s[..i] + s[i + 1..], f))
  {
    TakenOut(Map(s, f), i);
    assert Map(s, f)[..i] + Map(s, f)[i + 1..] == Map(s[..i] + s[i + 1..], f);
  }

  function Map<T, U>(s: seq<T>, f: T -> U): (r: seq<U>)
    ensures |r| == |s| && forall i :: 0 <= i < |s| ==> r[i] == f(s[i])
  {
    seq(|s|, i requires 0 <= i < |s| => f(s[i]))
  }

  ghost predicate Distinct<T>(s: seq<T>) {
    forall i, j :: 0 <= i < j < |s| ==> s[i] != s[j]
  }

  lemma PermutationKeepsDistinct<T(!new)>(a: seq<T>, b: seq<T>)
    requires multiset(a) == multiset(b) && Distinct(a)
    ensures Distinct(b)
  {
    NoDuplicatesIsAtMostOnce(a);
    forall i, j | 0 <= i < j < |b| ensures b[i] != b[j] {
      if b[i] == b[j] {
        RepeatCountsTwice(b, i, j);
      }
    }
  }

  // ------------------------------------------------------- lists of a set

  ghost predicate Lists<T(!new)>(s: set<T>, r: seq<T>) {
    && (forall x :: x in r <==> x in s)
    && Distinct(r)
  }

  /** `sorted(s)` of a set. */
  ghost function SortedSet<T(!new)>(s: set<T>, le: (T, T) -> bool): (r: seq<T>)
    requires TotalOrder(le)
    ensures Lists(s, r) && Ordered(r, le)
  {
    var r := Sort(AnyListing(s), le);
    SortPermutes(AnyListing(s), le);
    SortIsOrdered(AnyListing(s), le);
    SamePermutationLists(s, AnyListing(s), r);
    r
  }

  /** `sorted(s)` of a set of texts. */
  ghost function SortedTexts(s: set<string>): (r: seq<string>)
    ensures Lists(s, r) && Ordered(r, StringLe)
  {
    StringOrder();
    SortedSet(s, StringLe)
  }

  /** A set of texts has only one sorted listing. */
  lemma SortedListingIsUnique(s: set<string>, r: seq<string>)
    requires Lists(s, r) && Ordered(r, StringLe)
    ensures r == SortedTexts(s)
  {
    var q := SortedTexts(s);
    hide SortedTexts;
    StringOrder();
    NoDuplicatesIsAtMostOnce(r);
    NoDuplicatesIsAtMostOnce(q);
    forall x ensures multiset(r)[x] == multiset(q)[x] {
      assert x in multiset(r) <==> x in r;
      assert x in multiset(q) <==> x in q;
    }
    OrderedFormIsUnique(r, q, StringLe);
  }

  ghost function AnyListing<T(!new)>(s: set<T>): (r: seq<T>)
    ensures Lists(s, r)
  {
    if s == {} then [] else var x :| x in s; [x] + AnyListing(s - {x})
  }

  lemma SamePermutationLists<T(!new)>(s: set<T>, a: seq<T>, b: seq<T>)
    requires Lists(s, a) && multiset(a) == multiset(b)
    ensures Lists(s, b)
  {
    forall x ensures x in b <==> x in s {
      assert x in multiset(b) <==> x in multiset(a);
    }
    PermutationKeepsDistinct(a, b);
  }

  lemma RepeatCountsTwice<T>(b: seq<T>, i: nat, j: nat)
    requires i < j < |b| && b[i] == b[j]
    ensures multiset(b)[b[i]] >= 2
  {
    assert b == b[..j] + [b[j]] + b[j + 1..];
    assert b[i] in b[..j];
  }

  lemma {:induction false} NoDuplicatesIsAtMostOnce<T(!new)>(a: seq<T>)
    requires Distinct(a)
    ensures forall x :: multiset(a)[x] <= 1
  {
    if a != [] {
      NoDuplicatesIsAtMostOnce(a[1..]);
      assert a == [a[0]] + a[1..];
      assert a[0] !in a[1..];
    }
  }

  // ------------------------------------------------------- lexicographic order

  /** Python's order on sequences, given the order of the items. */
  predicate Lex<T(==)>(a: seq<T>, b: seq<T>, le: (T, T) -> bool) {
    if a == [] then true
    else if b == [] then false
    else if a[0] == b[0] then Lex(a[1..], b[1..], le)
    else le(a[0], b[0])
  }

  lemma {:induction false} LexTotal<T(!new)>(a: seq<T>, b: seq<T>, le: (T, T) -> bool)
    requires TotalOrder(le)
    ensures Lex(a, b, le) || Lex(b, a, le)
    ensures Lex(a, b, le) && Lex(b, a, le) ==> a == b
  {
    if a != [] && b != [] && a[0] == b[0] {
      LexTotal(a[1..], b[1..], le);
      assert a == [a[0]] + a[1..] && b == [b[0]] + b[1..];
    }
  }

  lemma {:induction false} LexTransitive<T(!new)>(a: seq<T>, b: seq<T>, c: seq<T>, le: (T, T) -> bool)
    requires TotalOrder(le) && Lex(a, b, le) && Lex(b, c, le)
    ensures Lex(a, c, le)
  {
    if a != [] && a[0] == b[0] == c[0] {
      LexTransitive(a[1..], b[1..], c[1..], le);
    }
  }

  predicate CharLe(a: char, b: char) { a <= b }

  /** Python's order on text. */
  predicate StringLe(a: string, b: string) { Lex(a, b, CharLe) }

  lemma StringOrder()
    ensures TotalOrder(StringLe)
  {
    forall a: string, b: string
      ensures StringLe(a, b) || StringLe(b, a)
      ensures StringLe(a, b) && StringLe(b, a) ==> a == b
    {
      LexTotal(a, b, CharLe);
    }
    forall a: string, b: string, c: string | StringLe(a, b) && StringLe(b, c)
      ensures StringLe(a, c)
    {
      LexTransitive(a, b, c, CharLe);
    }
  }
}
