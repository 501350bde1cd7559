/** Canonical orders.  The controller sorts the users of a desired-state document and its REALITY
    server names before signing; reconciliation then compares whole documents.  That comparison is
    only meaningful because a sorted arrangement is unique, which is what this module proves. */
module Ordering {

  ghost predicate TotalOrder<T(!new)>(leq: (T, T) -> bool) {
    && (forall x :: leq(x, x))
    && (forall x, y :: leq(x, y) && leq(y, x) ==> x == y)
    && (forall x, y, z :: leq(x, y) && leq(y, z) ==> leq(x, z))
    && (forall x, y :: leq(x, y) || leq(y, x))
  }

  ghost predicate Sorted<T>(leq: (T, T) -> bool, s: seq<T>) {
    forall i, j :: 0 <= i < j < |s| ==> leq(s[i], s[j])
  }

  lemma SortedHead<T(!new)>(leq: (T, T) -> bool, a: seq<T>, x: T)
    requires TotalOrder(leq) && Sorted(leq, a) && x in a
    ensures leq(a[0], x)
  {
  }

  lemma TailElements<T>(s: seq<T>)
    requires s != []
    ensures multiset(s[1..]) == multiset(s) - multiset{s[0]}
  {
    assert s == [s[0]] + s[1..];
  }

  /** Two sorted arrangements of the same elements are the same sequence. */
  lemma {:induction false} SortedArrangementIsUnique<T(!new)>(leq: (T, T) -> bool, a: seq<T>, b: seq<T>)
    requires TotalOrder(leq) && Sorted(leq, a) && Sorted(leq, b)
    requires multiset(a) == multiset(b)
    ensures a == b
  {
    assert |a| == |multiset(a)| == |b|;
    if a != [] {
      assert a[0] in multiset(b) && b[0] in multiset(a);
      SortedHead(leq, a, b[0]);
      SortedHead(leq, b, a[0]);
      assert a[0] == b[0];
      hide TotalOrder;
      TailElements(a);
      TailElements(b);
      SortedArrangementIsUnique(leq, a[1..], b[1..]);
      assert a == [a[0]] + a[1..] && b == [b[0]] + b[1..];
    }
  }

  function Insert<T>(leq: (T, T) -> bool, x: T, s: seq<T>): (r: seq<T>)
  {
    if s == [] || leq(x, s[0]) then [x] + s else [s[0]] + Insert(leq, x, s[1..])
  }

  function Sort<T>(leq: (T, T) -> bool, s: seq<T>): (r: seq<T>)
  {
    if s == [] then [] else Insert(leq, s[0], Sort(leq, s[1..]))
  }

  lemma {:induction false} InsertElements<T>(leq: (T, T) -> bool, x: T, s: seq<T>)
    ensures multiset(Insert(leq, x, s)) == multiset(s) + multiset{x}
  {
    if s != [] && !leq(x, s[0]) {
      InsertElements(leq, x, s[1..]);
      assert s == [s[0]] + s[1..];
    }
  }

  lemma {:induction false} InsertKeepsSorted<T(!new)>(leq: (T, T) -> bool, x: T, s: seq<T>)
    requires TotalOrder(leq) && Sorted(leq, s)
    ensures Sorted(leq, Insert(leq, x, s))
    ensures multiset(Insert(leq, x, s)) == multiset(s) + multiset{x}
  {
    InsertElements(leq, x, s);
    if s != [] {
      if leq(x, s[0]) {
        PrependKeepsSorted(leq, x, s);
      } else {
        var rest := Insert(leq, x, s[1..]);
        InsertKeepsSorted(leq, x, s[1..]);
        assert leq(s[0], x);
        AfterHead(leq, x, s, rest);
        hide TotalOrder;
        assert Sorted(leq, [s[0]] + rest);
      }
    }
  }

  /** Everything in the tail after an insertion comes after the head. */
  lemma AfterHead<T(!new)>(leq: (T, T) -> bool, x: T, s: seq<T>, rest: seq<T>)
    requires TotalOrder(leq) && Sorted(leq, s) && s != [] && leq(s[0], x)
             && multiset(rest) == multiset(s[1..]) + multiset{x}
    ensures forall y :: y in rest ==> leq(s[0], y)
  {
    forall y | y in rest ensures leq(s[0], y) {
      assert y in multiset(rest);
      if y != x {
        assert y in multiset(s[1..]);
        SortedHead(leq, s, y);
      }
    }
  }

  lemma PrependKeepsSorted<T(!new)>(leq: (T, T) -> bool, x: T, s: seq<T>)
    requires TotalOrder(leq) && Sorted(leq, s) && s != [] && leq(x, s[0])
    ensures Sorted(leq, [x] + s)
  {
  }

  lemma {:induction false} SortSorts<T(!new)>(leq: (T, T) -> bool, s: seq<T>)
    requires TotalOrder(leq)
    ensures Sorted(leq, Sort(leq, s)) && multiset(Sort(leq, s)) == multiset(s)
  {
    if s != [] {
      SortSorts(leq, s[1..]);
      InsertKeepsSorted(leq, s[0], Sort(leq, s[1..]));
      assert s == [s[0]] + s[1..];
    }
  }

  /** The sorted result depends only on which elements are given, never on the order in which the
      database returned them. */
  lemma SortIgnoresOrder<T(!new)>(leq: (T, T) -> bool, a: seq<T>, b: seq<T>)
    requires TotalOrder(leq) && multiset(a) == multiset(b)
    ensures Sort(leq, a) == Sort(leq, b)
  {
    SortSorts(leq, a);
    SortSorts(leq, b);
    SortedArrangementIsUnique(leq, Sort(leq, a), Sort(leq, b));
  }

  /** Sorting again changes nothing. */
  lemma SortOfSorted<T(!new)>(leq: (T, T) -> bool, s: seq<T>)
    requires TotalOrder(leq) && Sorted(leq, s)
    ensures Sort(leq, s) == s
  {
  }

  /** The sort of a vector held in a variable: a loop that inserts the elements one by one. */
  method SortVector<T(!new)>(leq: (T, T) -> bool, s: seq<T>) returns (r: seq<T>)
    requires TotalOrder(leq)
    ensures r == Sort(leq, s)
  {
    r := [];
    for n := 0 to |s|
      invariant Sorted(leq, r) && multiset(r) == multiset(s[..n])
    {
      InsertKeepsSorted(leq, s[n], r);
      r := Insert(leq, s[n], r);
      assert s[..n + 1] == s[..n] + [s[n]];
    }
    assert s[..|s|] == s;
    SortSorts(leq, s);
    SortedArrangementIsUnique(leq, r, Sort(leq, s));
  }

  /** Some enumeration of a finite set, each element once. */
  ghost function Enumerate<T>(s: set<T>): (r: seq<T>)
    ensures multiset(r) == multiset(s)
  {
    if s == {} then [] else
      var x :| x in s;
      assert s == (s - {x}) + {x};
      Enumerate(s - {x}) + [x]
  }

  /** Lexicographic order of strings, as in a byte-wise comparison of ASCII text. */
  predicate StringLeq(a: string, b: string)
  {
    a == [] || (b != [] && (a[0] < b[0] || (a[0] == b[0] && StringLeq(a[1..], b[1..]))))
  }

  lemma {:induction false} StringLeqAntisymmetric(a: string, b: string)
    requires StringLeq(a, b) && StringLeq(b, a)
    ensures a == b
  {
    if a != [] {
      StringLeqAntisymmetric(a[1..], b[1..]);
      assert a == [a[0]] + a[1..] && b == [b[0]] + b[1..];
    }
  }

  lemma {:induction false} StringLeqTransitive(a: string, b: string, c: string)
    requires StringLeq(a, b) && StringLeq(b, c)
    ensures StringLeq(a, c)
  {
    if a != [] && a[0] == b[0] && b[0] == c[0] {
      StringLeqTransitive(a[1..], b[1..], c[1..]);
    }
  }

  lemma {:induction false} StringLeqConnected(a: string, b: string)
    ensures StringLeq(a, b) || StringLeq(b, a)
  {
    if a != [] && b != [] {
      StringLeqConnected(a[1..], b[1..]);
    }
  }

  lemma StringOrder()
    ensures TotalOrder(StringLeq)
  {
    forall x: string ensures StringLeq(x, x) {
      StringLeqConnected(x, x);
    }
    forall x, y | StringLeq(x, y) && StringLeq(y, x) ensures x == y {
      StringLeqAntisymmetric(x, y);
    }
    forall x, y, z | StringLeq(x, y) && StringLeq(y, z) ensures StringLeq(x, z) {
      StringLeqTransitive(x, y, z);
    }
    forall x, y ensures StringLeq(x, y) || StringLeq(y, x) {
      StringLeqConnected(x, y);
    }
  }
}
