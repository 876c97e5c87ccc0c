/** Sequence vocabulary shared by the models: options, distinctness, filters, Python slices. */
module Seqs {

  datatype Option<+T> = None | Some(value: T)

  ghost predicate Distinct<T>(xs: seq<T>) {
    forall i, j :: 0 <= i < j < |xs| ==> xs[i] != xs[j]
  }

  function Map<T, U>(f: T -> U, xs: seq<T>): (r: seq<U>)
    ensures |r| == |xs|
    ensures forall i :: 0 <= i < |xs| ==> r[i] == f(xs[i])
  {
    seq(|xs|, i requires 0 <= i < |xs| => f(xs[i]))
  }

  lemma MapCons<T, U>(f: T -> U, x: T, xs: seq<T>)
    ensures Map(f, [x] + xs) == [f(x)] + Map(f, xs)
  {}

  lemma MapTail<T, U>(f: T -> U, xs: seq<T>)
    requires xs != []
    ensures Map(f, xs) == [f(xs[0])] + Map(f, xs[1..])
  {}

  /** The list comprehension `[x for x in xs if p(x)]`. */
  function Filter<T>(p: T -> bool, xs: seq<T>): (r: seq<T>)
    ensures |r| <= |xs|
    ensures forall x :: x in r ==> x in xs && p(x)
    ensures forall x :: x in xs && p(x) ==> x in r
  {
    if xs == [] then []
    else if p(xs[0]) then [xs[0]] + Filter(p, xs[1..])
    else Filter(p, xs[1..])
  }

  lemma {:induction false} FilterAppend<T>(p: T -> bool, xs: seq<T>, ys: seq<T>)
    ensures Filter(p, xs + ys) == Filter(p, xs) + Filter(p, ys)
  {
    if xs == [] {
      assert xs + ys == ys;
    } else {
      assert (xs + ys)[1..] == xs[1..] + ys && (xs + ys)[0] == xs[0];
      FilterAppend(p, xs[1..], ys);
      ConsAppend(xs[0], Filter(p, xs[1..]), Filter(p, ys));
    }
  }

  lemma SnocByElements<T>(r: seq<T>, xs: seq<T>, x: T)
    requires |r| == |xs| + 1 && r[|xs|] == x && forall i :: 0 <= i < |xs| ==> r[i] == xs[i]
    ensures r == xs + [x]
  {}

  lemma FilterSnoc<T>(p: T -> bool, xs: seq<T>, x: T)
    ensures Filter(p, xs + [x]) == if p(x) then Filter(p, xs) + [x] else Filter(p, xs)
  {
    FilterAppend(p, xs, [x]);
  }

  /** One more element of the input of a mapped and filtered list. */
  lemma FilterMapSnoc<T, U>(p: U -> bool, f: T -> U, xs: seq<T>, i: nat)
    requires i < |xs|
    ensures Filter(p, Map(f, xs[..i + 1])) == Filter(p, Map(f, xs[..i])) + if p(f(xs[i])) then [f(xs[i])] else []
  {
    assert Map(f, xs[..i + 1]) == Map(f, xs[..i]) + [f(xs[i])];
    FilterSnoc(p, Map(f, xs[..i]), f(xs[i]));
  }

  lemma {:induction false} FilterDistinct<T>(p: T -> bool, xs: seq<T>)
    requires Distinct(xs)
    ensures Distinct(Filter(p, xs))
  {
    if xs != [] {
      assert Distinct(xs[1..]) && xs[0] !in xs[1..];
      FilterDistinct(p, xs[1..]);
    }
  }

  lemma FilterAll<T>(p: T -> bool, xs: seq<T>)
    requires forall x :: x in xs ==> p(x)
    ensures Filter(p, xs) == xs
  {
    if xs != [] {
      FilterAll(p, xs[1..]);
    }
  }

  lemma {:induction false} FilterNone<T>(p: T -> bool, xs: seq<T>)
    requires forall x :: x in xs ==> !p(x)
    ensures Filter(p, xs) == []
  {
    if xs != [] {
      assert xs[0] in xs;
      FilterNone(p, xs[1..]);
    }
  }

  lemma DistinctAppend<T>(xs: seq<T>, ys: seq<T>)
    ensures Distinct(xs + ys) <==> Distinct(xs) && Distinct(ys) && (forall x :: x in xs ==> x !in ys)
  {
    var zs := xs + ys;
    if Distinct(zs) {
      forall i, j | 0 <= i < j < |xs| ensures xs[i] != xs[j] {
        assert zs[i] != zs[j];
      }
      forall i, j | 0 <= i < j < |ys| ensures ys[i] != ys[j] {
        assert zs[|xs| + i] != zs[|xs| + j];
      }
      forall i, j | 0 <= i < |xs| && 0 <= j < |ys| ensures xs[i] != ys[j] {
        assert zs[i] != zs[|xs| + j];
      }
    } else {
      var i, j :| 0 <= i < j < |zs| && zs[i] == zs[j];
      if i < |xs| <= j {
        assert xs[i] == ys[j - |xs|] && xs[i] in xs && xs[i] in ys;
      } else if j < |xs| {
        assert xs[i] == xs[j];
      } else {
        assert ys[i - |xs|] == ys[j - |xs|];
      }
    }
  }

  /** Distinct elements are no more than the list they come from. */
  lemma {:induction false} DistinctFewer<T>(xs: seq<T>, ys: seq<T>)
    requires Distinct(xs) && forall x :: x in xs ==> x in ys
    ensures |xs| <= |ys|
  {
    if xs != [] {
      var init, last := xs[..|xs| - 1], xs[|xs| - 1];
      assert last in ys;
      var k :| 0 <= k < |ys| && ys[k] == last;
      var rest := ys[..k] + ys[k + 1..];
      forall x | x in init ensures x in rest {
        var i :| 0 <= i < |init| && init[i] == x;
        assert xs[i] == x && xs[i] in xs && x != last;
        var m :| 0 <= m < |ys| && ys[m] == x;
        assert if m < k then rest[m] == x else rest[m - 1] == x;
      }
      DistinctFewer(init, rest);
    }
  }

  lemma DistinctPerm<T>(xs: seq<T>, ys: seq<T>)
    requires multiset(xs) == multiset(ys)
    ensures Distinct(xs) ==> Distinct(ys)
  {
    if Distinct(xs) && !Distinct(ys) {
      var i, j :| 0 <= i < j < |ys| && ys[i] == ys[j];
      TwicePresent(ys, i, j);
      OnceWhenDistinct(xs, ys[i]);
    }
  }

  lemma {:induction false} OnceWhenDistinct<T>(xs: seq<T>, x: T)
    requires Distinct(xs)
    ensures multiset(xs)[x] <= 1
  {
    if xs != [] {
      assert xs == [xs[0]] + xs[1..];
      assert Distinct(xs[1..]);
      OnceWhenDistinct(xs[1..], x);
      if xs[0] == x {
        assert x !in xs[1..];
      }
    }
  }

  lemma TwicePresent<T>(xs: seq<T>, i: nat, j: nat)
    requires i < j < |xs| && xs[i] == xs[j]
    ensures multiset(xs)[xs[i]] >= 2
  {
    assert xs == xs[..j] + [xs[j]] + xs[j + 1..];
    assert xs[i] in xs[..j] by { assert xs[..j][i] == xs[i]; }
    assert multiset(xs) == multiset(xs[..j]) + multiset{xs[j]} + multiset(xs[j + 1..]);
  }

  /** `xs[:n]` of Python, where a negative bound counts from the end. */
  function Head<T>(xs: seq<T>, n: int): (r: seq<T>)
    ensures r <= xs
    ensures n >= 0 ==> |r| == if n <= |xs| then n else |xs|
  {
    if n >= 0 then
      if n <= |xs| then xs[..n] else xs
    else if -n <= |xs| then xs[..|xs| + n] else []
  }

  /** The positions of the elements with the property. */
  ghost function Places<T>(p: T -> bool, xs: seq<T>): set<int> { set i | 0 <= i < |xs| && p(xs[i]) }

  lemma PlacesSnoc<T>(p: T -> bool, xs: seq<T>, x: T)
    ensures Places(p, xs + [x]) == Places(p, xs) + if p(x) then {|xs|} else {}
  {}

  lemma {:induction false} FilterCounts<T>(p: T -> bool, xs: seq<T>)
    ensures |Filter(p, xs)| == |Places(p, xs)|
  {
    if xs != [] {
      var init, last := xs[..|xs| - 1], xs[|xs| - 1];
      FilterCounts(p, init);
      assert xs == init + [last];
      FilterSnoc(p, init, last);
      PlacesSnoc(p, init, last);
      assert |init| !in Places(p, init);
    }
  }

  /** `xs` is obtained from `ys` by deleting elements, keeping the order. */
  ghost predicate Subsequence<T>(xs: seq<T>, ys: seq<T>) {
    xs == [] || (ys != [] && ((xs[0] == ys[0] && Subsequence(xs[1..], ys[1..])) || Subsequence(xs, ys[1..])))
  }

  lemma {:induction false} SubsequenceCons<T>(xs: seq<T>, y: T, ys: seq<T>)
    requires Subsequence(xs, ys)
    ensures Subsequence([y] + xs, [y] + ys) && Subsequence(xs, [y] + ys)
  {
    assert ([y] + ys)[1..] == ys && ([y] + xs)[1..] == xs;
  }

  /** The comprehension that keeps the defined results of `f`. */
  function Collect<T, U>(f: T -> Option<U>, xs: seq<T>): (r: seq<U>)
    ensures forall y :: y in r ==> exists x :: x in xs && f(x) == Some(y)
    ensures forall x :: x in xs && f(x).Some? ==> f(x).value in r
  {
    if xs == [] then []
    else
      var rest := Collect(f, xs[1..]);
      match f(xs[0])
      case Some(y) => [y] + rest
      case None => rest
  }

  /** The nested comprehension `[y for x in xs for y in f(x)]`. */
  function FlatMap<T, U>(f: T -> seq<U>, xs: seq<T>): seq<U> {
    if xs == [] then [] else f(xs[0]) + FlatMap(f, xs[1..])
  }

  lemma {:induction false} FlatMapMember<T, U>(f: T -> seq<U>, xs: seq<T>, y: U)
    ensures y in FlatMap(f, xs) <==> exists x :: x in xs && y in f(x)
  {
    if xs != [] {
      FlatMapMember(f, xs[1..], y);
      assert xs == [xs[0]] + xs[1..];
    }
  }

  lemma FlatMapOne<T, U>(f: T -> seq<U>, x: T)
    ensures FlatMap(f, [x]) == f(x)
  {
    assert [x][1..] == [];
  }

  lemma {:induction false} FlatMapSnoc<T, U>(f: T -> seq<U>, xs: seq<T>, i: nat)
    requires i < |xs|
    ensures FlatMap(f, xs[..i + 1]) == FlatMap(f, xs[..i]) + f(xs[i])
  {
    if i == 0 {
      assert xs[..1][1..] == [] && xs[..1][0] == xs[0];
    } else {
      assert xs[..i + 1][1..] == xs[1..][..i] && xs[..i][1..] == xs[1..][..i - 1];
      FlatMapSnoc(f, xs[1..], i - 1);
    }
  }

  lemma {:induction false} CollectSnoc<T, U>(f: T -> Option<U>, xs: seq<T>, i: nat)
    requires i < |xs|
    ensures Collect(f, xs[..i + 1]) == Collect(f, xs[..i]) + if f(xs[i]).Some? then [f(xs[i]).value] else []
  {
    if i == 0 {
      assert xs[..1][1..] == [] && xs[..1][0] == xs[0];
    } else {
      assert xs[..i + 1][1..] == xs[1..][..i] && xs[..i][1..] == xs[1..][..i - 1];
      CollectSnoc(f, xs[1..], i - 1);
      var before, last := Collect(f, xs[1..][..i - 1]), if f(xs[i]).Some? then [f(xs[i]).value] else [];
      AppendAssoc(if f(xs[0]).Some? then [f(xs[0]).value] else [], before, last);
    }
  }

  lemma {:induction false} CollectDistinct<T, U, K>(f: T -> Option<U>, keyT: T -> K, keyU: U -> K, xs: seq<T>)
    requires forall x :: x in xs && f(x).Some? ==> keyU(f(x).value) == keyT(x)
    requires Distinct(Map(keyT, xs))
    ensures Distinct(Map(keyU, Collect(f, xs)))
  {
    if xs != [] {
      var keys, rest := Map(keyT, xs), Collect(f, xs[1..]);
      assert Map(keyT, xs[1..]) == keys[1..];
      CollectDistinct(f, keyT, keyU, xs[1..]);
      if f(xs[0]).Some? {
        var y := f(xs[0]).value;
        assert Map(keyU, [y] + rest) == [keyU(y)] + Map(keyU, rest);
        forall k | k in Map(keyU, rest) ensures k != keyU(y) {
          var j :| 0 <= j < |rest| && keyU(rest[j]) == k;
          assert rest[j] in rest;
          var x :| x in xs[1..] && f(x) == Some(rest[j]);
          var i :| 0 <= i < |xs[1..]| && xs[1..][i] == x;
          assert keys[i + 1] == k && keys[0] == keyU(y) && keys[0] != keys[i + 1];
        }
        DistinctAppend([keyU(y)], Map(keyU, rest));
      }
    }
  }

  lemma {:induction false} FilterIsCollect<T>(p: T -> bool, f: T -> Option<T>, xs: seq<T>)
    requires forall x :: f(x) == if p(x) then Some(x) else None
    ensures Filter(p, xs) == Collect(f, xs)
  {
    if xs != [] {
      FilterIsCollect(p, f, xs[1..]);
    }
  }

  lemma FilterKeepsKeys<T, K>(key: T -> K, p: T -> bool, xs: seq<T>)
    requires Distinct(Map(key, xs))
    ensures Distinct(Map(key, Filter(p, xs)))
  {
    var f := (x: T) => if p(x) then Some(x) else None;
    CollectDistinct(f, key, key, xs);
    FilterIsCollect(p, f, xs);
  }

  /** Distinct keys: an element is determined by its key. */
  lemma KeyDetermines<T, K>(key: T -> K, xs: seq<T>, x: T, y: T)
    requires Distinct(Map(key, xs)) && x in xs && y in xs && key(x) == key(y)
    ensures x == y
  {
    var i :| 0 <= i < |xs| && xs[i] == x;
    var j :| 0 <= j < |xs| && xs[j] == y;
    var keys := Map(key, xs);
    assert keys[i] == keys[j];
  }

  // Bringing elements to the front

  function Without<T>(xs: seq<T>, k: nat): (r: seq<T>)
    requires k < |xs|
    ensures forall x :: x in r ==> x in xs
    ensures forall x :: x in xs ==> x == xs[k] || x in r
  {
    xs[..k] + xs[k + 1..]
  }

  lemma WithoutSplit<T>(front: seq<T>, tail: seq<T>, k: nat)
    requires k < |tail|
    ensures Without(front + tail, |front| + k) == front + Without(tail, k)
    ensures (front + tail)[|front| + k] == tail[k]
  {
    assert (front + tail)[..|front| + k] == front + tail[..k];
    assert (front + tail)[|front| + k + 1..] == tail[k + 1..];
  }

  lemma WithoutCons<T>(x: T, xs: seq<T>, k: nat)
    requires k < |xs|
    ensures Without([x] + xs, k + 1) == [x] + Without(xs, k)
    ensures Without([x] + xs, 0) == xs
  {
    WithoutSplit([x], xs, k);
  }

  lemma AppendAssoc<T>(xs: seq<T>, ys: seq<T>, zs: seq<T>)
    ensures xs + (ys + zs) == (xs + ys) + zs
  {}

  lemma AppendSnoc<T>(xs: seq<T>, ys: seq<T>, y: T)
    ensures xs + (ys + [y]) == (xs + ys) + [y]
  {}

  lemma ConsAppend<T>(x: T, xs: seq<T>, ys: seq<T>)
    ensures [x] + (xs + ys) == ([x] + xs) + ys
  {}

  /** The elements whose keys are not listed, in their order. */
  function Excluding<T, K(==)>(key: T -> K, xs: seq<T>, keys: seq<K>): (r: seq<T>)
    ensures forall x :: x in r ==> x in xs && key(x) !in keys
    ensures forall x :: x in xs && key(x) !in keys ==> x in r
  {
    if xs == [] then []
    else if key(xs[0]) in keys then Excluding(key, xs[1..], keys)
    else [xs[0]] + Excluding(key, xs[1..], keys)
  }

  lemma ExcludingNone<T, K>(key: T -> K, xs: seq<T>)
    ensures Excluding(key, xs, []) == xs
  {}

  lemma {:induction false} ExcludingIrrelevant<T, K>(key: T -> K, xs: seq<T>, keys: seq<K>, k: K)
    requires forall x :: x in xs && key(x) == k ==> k in keys
    ensures Excluding(key, xs, [k] + keys) == Excluding(key, xs, keys)
  {
    if xs != [] {
      assert xs[0] in xs;
      ExcludingIrrelevant(key, xs[1..], keys, k);
    }
  }

  lemma FirstKeyUnique<T, K>(key: T -> K, xs: seq<T>)
    requires xs != [] && Distinct(Map(key, xs))
    ensures Distinct(Map(key, xs[1..])) && forall x :: x in xs[1..] ==> key(x) != key(xs[0])
  {
    var keys := Map(key, xs);
    assert Map(key, xs[1..]) == keys[1..];
    forall x | x in xs[1..] ensures key(x) != key(xs[0]) {
      var i :| 0 <= i < |xs[1..]| && xs[1..][i] == x;
      assert keys[i + 1] == key(x) && keys[0] == key(xs[0]);
    }
  }

  lemma {:induction false} ExcludingOneMore<T, K>(key: T -> K, xs: seq<T>, keys: seq<K>, k: nat)
    requires Distinct(Map(key, xs)) && k < |Excluding(key, xs, keys)|
    ensures Excluding(key, xs, [key(Excluding(key, xs, keys)[k])] + keys) == Without(Excluding(key, xs, keys), k)
  {
    var rest := Excluding(key, xs[1..], keys);
    FirstKeyUnique(key, xs);
    if key(xs[0]) in keys {
      ExcludingOneMore(key, xs[1..], keys, k);
    } else if k == 0 {
      ExcludingIrrelevant(key, xs[1..], keys, key(xs[0]));
      assert Without([xs[0]] + rest, 0) == rest;
    } else {
      assert rest[k - 1] in rest;
      ExcludingOneMore(key, xs[1..], keys, k - 1);
      WithoutCons(xs[0], rest, k - 1);
    }
  }

  /** `front` was brought forward; `tail` holds the elements of `xs` with other keys, and no key repeats. */
  ghost predicate Fronted<T, K>(key: T -> K, xs: seq<T>, front: seq<T>, tail: seq<T>) {
    Distinct(Map(key, front) + Map(key, tail)) && tail == Excluding(key, xs, Map(key, front))
  }

  lemma MoveDistinct<T>(front: seq<T>, tail: seq<T>, k: nat)
    requires Distinct(front + tail) && k < |tail|
    ensures Distinct([tail[k]] + front + Without(tail, k))
  {
    var all, out := front + tail, [tail[k]] + front + Without(tail, k);
    var back := (i: int) => if i == 0 then |front| + k else if i <= |front| + k then i - 1 else i;
    assert forall i :: 0 <= i < |out| ==> out[i] == all[back(i)];
  }

  lemma FrontMove<T, K>(key: T -> K, xs: seq<T>, front: seq<T>, tail: seq<T>, k: nat, moved: T)
    requires Fronted(key, xs, front, tail) && Distinct(Map(key, xs))
    requires k < |tail| && key(moved) == key(tail[k])
    ensures Fronted(key, xs, [moved] + front, Without(tail, k))
  {
    var keys := Map(key, front);
    assert Map(key, [moved] + front) == [key(moved)] + keys;
    ExcludingOneMore(key, xs, keys, k);
    MoveDistinct(keys, Map(key, tail), k);
    assert Map(key, Without(tail, k)) == Without(Map(key, tail), k);
  }

  lemma FrontInsert<T, K>(key: T -> K, xs: seq<T>, front: seq<T>, tail: seq<T>, added: T)
    requires Fronted(key, xs, front, tail)
    requires forall x :: x in front ==> key(x) != key(added)
    requires forall x :: x in tail ==> key(x) != key(added)
    ensures Fronted(key, xs, [added] + front, tail)
  {
    var keys, all := Map(key, front), Map(key, front) + Map(key, tail);
    assert Map(key, [added] + front) == [key(added)] + keys;
    forall k | k in all ensures k != key(added) {
      var i :| 0 <= i < |all| && all[i] == k;
      var x := if i < |front| then front[i] else tail[i - |front|];
      assert k == key(x) && (x in front || x in tail);
    }
    DistinctAppend([key(added)], all);
    assert [key(added)] + keys + Map(key, tail) == [key(added)] + all;
    assert forall x :: x in xs ==> x in tail || key(x) in keys;
    ExcludingIrrelevant(key, xs, keys, key(added));
  }

  // One element per key

  /** The elements whose key no earlier element has. */
  function FirstPerKey<T, K(==)>(key: T -> K, xs: seq<T>): (r: seq<T>)
    ensures forall x :: x in r ==> x in xs
  {
    if xs == [] then []
    else
      var r := FirstPerKey(key, xs[..|xs| - 1]);
      if key(xs[|xs| - 1]) in Map(key, r) then r else r + [xs[|xs| - 1]]
  }

  lemma FirstPerKeySnoc<T, K>(key: T -> K, xs: seq<T>, i: nat)
    requires i < |xs|
    ensures FirstPerKey(key, xs[..i + 1])
            == FirstPerKey(key, xs[..i]) + if key(xs[i]) in Map(key, FirstPerKey(key, xs[..i])) then [] else [xs[i]]
  {
    assert xs[..i + 1][..i] == xs[..i];
  }

  /** Every key is kept, and none twice. */
  lemma {:induction false} FirstPerKeyKeys<T, K>(key: T -> K, xs: seq<T>)
    ensures Distinct(Map(key, FirstPerKey(key, xs)))
    ensures forall x :: x in xs ==> key(x) in Map(key, FirstPerKey(key, xs))
  {
    if xs != [] {
      var init, last := xs[..|xs| - 1], xs[|xs| - 1];
      FirstPerKeyKeys(key, init);
      assert xs == init + [last];
      var r := FirstPerKey(key, init);
      assert Map(key, r + [last]) == Map(key, r) + [key(last)];
      DistinctAppend(Map(key, r), [key(last)]);
    }
  }

  /** The first element with its key is kept. */
  lemma {:induction false} FirstPerKeyKeepsFirst<T, K>(key: T -> K, xs: seq<T>, i: nat)
    requires i < |xs| && forall j :: 0 <= j < i ==> key(xs[j]) != key(xs[i])
    ensures xs[i] in FirstPerKey(key, xs)
  {
    var init := xs[..|xs| - 1];
    if i < |xs| - 1 {
      FirstPerKeyKeepsFirst(key, init, i);
    } else {
      forall g | g in FirstPerKey(key, init) ensures key(g) != key(xs[i]) {
        var j :| 0 <= j < |init| && init[j] == g;
      }
    }
  }

  /** The first occurrences of the elements. */
  function Unique<T(==)>(xs: seq<T>): (r: seq<T>)
    ensures Distinct(r) && (forall x :: x in r ==> x in xs) && (forall x :: x in xs ==> x in r)
  {
    var same := (x: T) => x;
    FirstPerKeyKeys(same, xs);
    assert Map(same, FirstPerKey(same, xs)) == FirstPerKey(same, xs);
    FirstPerKey(same, xs)
  }

  // Numbers

  function Max(a: real, b: real): real { if a >= b then a else b }

  function Min(a: real, b: real): real { if a <= b then a else b }
}
