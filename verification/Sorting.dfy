/** Python's `sorted`: a stable sort by a total preorder, and the order on strings used as a tie-breaker. */
module Sorting {
  import opened Seqs

  ghost predicate TotalPreorder<T(!new)>(le: (T, T) -> bool) {
    && (forall x, y :: le(x, y) || le(y, x))
    && (forall x, y, z :: le(x, y) && le(y, z) ==> le(x, z))
  }

  ghost predicate SortedBy<T>(le: (T, T) -> bool, xs: seq<T>) {
    forall i, j :: 0 <= i < j < |xs| ==> le(xs[i], xs[j])
  }

  function Insert<T>(le: (T, T) -> bool, x: T, xs: seq<T>): (r: seq<T>)
    ensures multiset(r) == multiset(xs) + multiset{x}
  {
    if xs == [] then [x]
    else if le(x, xs[0]) then [x] + xs
    else
      assert xs == [xs[0]] + xs[1..];
      [xs[0]] + Insert(le, x, xs[1..])
  }

  /** The stable sort: an element goes in front of the later elements it is not greater than. */
  function Sort<T>(le: (T, T) -> bool, xs: seq<T>): (r: seq<T>)
    ensures multiset(r) == multiset(xs)
    ensures |r| == |xs|
    ensures forall x :: x in r ==> x in xs
    ensures forall x :: x in xs ==> x in r
  {
    if xs == [] then []
    else
      assert xs == [xs[0]] + xs[1..];
      var r := Insert(le, xs[0], Sort(le, xs[1..]));
      assert |multiset(r)| == |r| && |multiset(xs)| == |xs|;
      assert forall x :: x in r ==> x in multiset(r);
      assert forall x :: x in xs ==> x in multiset(xs);
      r
  }

  lemma {:induction false} InsertSorted<T(!new)>(le: (T, T) -> bool, x: T, xs: seq<T>)
    requires TotalPreorder(le) && SortedBy(le, xs)
    ensures SortedBy(le, Insert(le, x, xs))
  {
    if xs != [] && !le(x, xs[0]) {
      assert SortedBy(le, xs[1..]);
      InsertSorted(le, x, xs[1..]);
      var t := Insert(le, x, xs[1..]);
      forall y | y in t ensures le(xs[0], y) {
        assert y in multiset(t);
      }
    }
  }

  lemma {:induction false} SortSorted<T(!new)>(le: (T, T) -> bool, xs: seq<T>)
    requires TotalPreorder(le)
    ensures SortedBy(le, Sort(le, xs))
  {
    if xs != [] {
      SortSorted(le, xs[1..]);
      InsertSorted(le, xs[0], Sort(le, xs[1..]));
    }
  }

  ghost predicate Separates<T(!new)>(le: (T, T) -> bool, xs: seq<T>) {
    forall x, y :: x in xs && y in xs && le(x, y) && le(y, x) ==> x == y
  }

  lemma SameMembers<T>(xs: seq<T>, ys: seq<T>)
    requires multiset(xs) == multiset(ys)
    ensures |xs| == |ys|
    ensures forall x :: x in xs ==> x in ys
    ensures forall y :: y in ys ==> y in xs
  {
    assert |multiset(xs)| == |xs| && |multiset(ys)| == |ys|;
    assert forall x :: x in xs ==> x in multiset(xs);
    assert forall y :: y in ys ==> y in multiset(ys);
  }

  lemma TailMultiset<T>(xs: seq<T>)
    requires xs != []
    ensures multiset(xs[1..]) == multiset(xs) - multiset{xs[0]}
  {
    assert xs == [xs[0]] + xs[1..];
  }

  /** Two sorted arrangements of the same elements agree when the order tells distinct elements apart. */
  lemma {:induction false} SortedUnique<T(!new)>(le: (T, T) -> bool, xs: seq<T>, ys: seq<T>)
    requires SortedBy(le, xs) && SortedBy(le, ys) && multiset(xs) == multiset(ys)
    requires Separates(le, xs)
    ensures xs == ys
  {
    SameMembers(xs, ys);
    if xs != [] {
      assert xs[0] == ys[0] by {
        assert xs[0] in ys && ys[0] in xs;
        var i :| 0 <= i < |ys| && ys[i] == xs[0];
        var j :| 0 <= j < |xs| && xs[j] == ys[0];
      }
      TailMultiset(xs);
      TailMultiset(ys);
      assert forall x :: x in xs[1..] ==> x in xs;
      SortedUnique(le, xs[1..], ys[1..]);
      assert xs == [xs[0]] + xs[1..] && ys == [ys[0]] + ys[1..];
    }
  }

  lemma {:induction false} InsertKeys<T, K>(le: (T, T) -> bool, key: T -> K, x: T, xs: seq<T>)
    ensures multiset(Map(key, Insert(le, x, xs))) == multiset(Map(key, xs)) + multiset{key(x)}
  {
    if xs == [] {
      assert Map(key, [x]) == [key(x)];
    } else if le(x, xs[0]) {
      MapCons(key, x, xs);
    } else {
      InsertKeys(le, key, x, xs[1..]);
      var t := Insert(le, x, xs[1..]);
      MapCons(key, xs[0], t);
      MapTail(key, xs);
    }
  }

  /** Sorting rearranges the keys of the elements. */
  lemma {:induction false} SortKeys<T, K>(le: (T, T) -> bool, key: T -> K, xs: seq<T>)
    ensures multiset(Map(key, Sort(le, xs))) == multiset(Map(key, xs))
  {
    if xs != [] {
      SortKeys(le, key, xs[1..]);
      InsertKeys(le, key, xs[0], Sort(le, xs[1..]));
      MapTail(key, xs);
    }
  }

  lemma SortDistinct<T, K>(le: (T, T) -> bool, key: T -> K, xs: seq<T>)
    requires Distinct(Map(key, xs))
    ensures Distinct(Map(key, Sort(le, xs)))
  {
    SortKeys(le, key, xs);
    DistinctPerm(Map(key, xs), Map(key, Sort(le, xs)));
  }

  /** Code-point order on strings, as Python compares them. */
  predicate StringLe(a: string, b: string) {
    a == "" || (b != "" && (a[0] < b[0] || (a[0] == b[0] && StringLe(a[1..], b[1..]))))
  }

  lemma {:induction false} StringLeTotal(a: string, b: string)
    ensures StringLe(a, b) || StringLe(b, a)
    ensures StringLe(a, b) && StringLe(b, a) ==> a == b
  {
    if a != "" && b != "" && a[0] == b[0] {
      StringLeTotal(a[1..], b[1..]);
      assert a == [a[0]] + a[1..] && b == [b[0]] + b[1..];
    }
  }

  lemma {:induction false} StringLeTransitive(a: string, b: string, c: string)
    requires StringLe(a, b) && StringLe(b, c)
    ensures StringLe(a, c)
  {
    if a != "" && a[0] == b[0] && b[0] == c[0] {
      StringLeTransitive(a[1..], b[1..], c[1..]);
    }
  }

  lemma StringLeOrder()
    ensures TotalPreorder(StringLe)
    ensures forall a, b :: StringLe(a, b) && StringLe(b, a) ==> a == b
  {
    forall a: string, b: string
      ensures StringLe(a, b) || StringLe(b, a)
      ensures StringLe(a, b) && StringLe(b, a) ==> a == b
    {
      StringLeTotal(a, b);
    }
    forall a: string, b: string, c: string | StringLe(a, b) && StringLe(b, c) ensures StringLe(a, c) {
      StringLeTransitive(a, b, c);
    }
  }
}
