/** Which trades of a backtest are indexed, and under which bucket. */
module TradeSelection {
  import opened Seqs
  import opened Sorting

  datatype Trade = Trade(pnl: Option<real>, payload: string)

  datatype Bucket = TopLoser | TopWinner | Sample

  datatype Entry = Entry(index: nat, trade: Trade)

  datatype Selected = Selected(index: nat, bucket: Bucket, trade: Trade)

  /** `trade.get("pnl_cost") or 0` */
  function Pnl(trade: Trade): real { if trade.pnl.Some? then trade.pnl.value else 0.0 }

  predicate PnlLe(a: Entry, b: Entry) { Pnl(a.trade) <= Pnl(b.trade) }

  function Enumerate(trades: seq<Trade>): (r: seq<Entry>)
    ensures |r| == |trades| && forall i :: 0 <= i < |r| ==> r[i] == Entry(i, trades[i])
  {
    seq(|trades|, i requires 0 <= i < |trades| => Entry(i, trades[i]))
  }

  function Index(e: Entry): nat { e.index }

  ghost predicate Ascending<T>(index: T -> nat, xs: seq<T>) {
    forall i, j :: 0 <= i < j < |xs| ==> index(xs[i]) < index(xs[j])
  }

  function Ranked(trades: seq<Trade>): seq<Entry> { Sort(PnlLe, Enumerate(trades)) }

  // The ranking is the unique one by P&L and then by position

  predicate PnlIndexLe(a: Entry, b: Entry) {
    Pnl(a.trade) < Pnl(b.trade) || (Pnl(a.trade) == Pnl(b.trade) && a.index <= b.index)
  }

  lemma {:induction false} InsertStable(x: Entry, xs: seq<Entry>)
    requires SortedBy(PnlIndexLe, xs) && forall y :: y in xs ==> x.index < y.index
    ensures SortedBy(PnlIndexLe, Insert(PnlLe, x, xs))
  {
    if xs != [] && !PnlLe(x, xs[0]) {
      InsertStable(x, xs[1..]);
      var t := Insert(PnlLe, x, xs[1..]);
      forall y | y in t ensures PnlIndexLe(xs[0], y) {
        assert y in multiset(t);
      }
    }
  }

  lemma {:induction false} SortStable(xs: seq<Entry>)
    requires Ascending(Index, xs)
    ensures SortedBy(PnlIndexLe, Sort(PnlLe, xs))
  {
    if xs != [] {
      SortStable(xs[1..]);
      InsertStable(xs[0], Sort(PnlLe, xs[1..]));
    }
  }

  function Place(s: Selected): nat { s.index }

  /** A list that has each trade once, with its own index. */
  ghost predicate Lists(r: seq<Entry>, trades: seq<Trade>) {
    && |r| == |trades| && Distinct(Map(Index, r))
    && (forall e :: e in r ==> e.index < |trades| && e.trade == trades[e.index])
    && (forall i :: 0 <= i < |trades| ==> Entry(i, trades[i]) in r)
  }

  lemma RankedLists(trades: seq<Trade>)
    ensures Lists(Ranked(trades), trades) && multiset(Ranked(trades)) == multiset(Enumerate(trades))
  {
    var all := Enumerate(trades);
    SortDistinct(PnlLe, Index, all);
    forall i | 0 <= i < |trades| ensures Entry(i, trades[i]) in Ranked(trades) {
      assert all[i] in all;
    }
  }

  /** The ranking is by P&L, and by position among equals. */
  lemma RankedOrder(trades: seq<Trade>)
    ensures SortedBy(PnlIndexLe, Ranked(trades))
  {
    SortStable(Enumerate(trades));
  }

  lemma RankedPair(trades: seq<Trade>, p: nat, q: nat)
    requires p < q < |Ranked(trades)|
    ensures Pnl(Ranked(trades)[p].trade) <= Pnl(Ranked(trades)[q].trade)
  {
    RankedOrder(trades);
    assert PnlIndexLe(Ranked(trades)[p], Ranked(trades)[q]);
  }

  /** No other arrangement of the trades is in that order. */
  lemma RankedIsTheOrder(trades: seq<Trade>, other: seq<Entry>)
    requires multiset(other) == multiset(Enumerate(trades)) && SortedBy(PnlIndexLe, other)
    ensures other == Ranked(trades)
  {
    var r := Ranked(trades);
    RankedLists(trades);
    RankedOrder(trades);
    assert Separates(PnlIndexLe, r) by {
      forall x, y | x in r && y in r && PnlIndexLe(x, y) && PnlIndexLe(y, x) ensures x == y {
        assert x.trade == trades[x.index] && y.trade == trades[y.index];
      }
    }
    SortedUnique(PnlIndexLe, r, other);
  }

  // The three buckets, by position in the ranking

  function BucketAt(r: seq<Entry>, p: nat): Option<Bucket>
    requires p < |r|
  {
    if p >= |r| - 25 then Some(TopWinner)
    else if p < 25 then Some(TopLoser)
    else if r[p].index < 50 then Some(Sample)
    else None
  }

  function Get(m: map<nat, Selected>, i: nat): Option<Selected> { if i in m then Some(m[i]) else None }

  ghost predicate Covers(m: map<nat, Selected>, r: seq<Entry>) {
    forall i :: i in m ==> exists p :: 0 <= p < |r| && r[p].index == i
  }

  function Put(bucket: Option<Bucket>, e: Entry): Option<Selected> {
    if bucket.None? then None else Some(Selected(e.index, bucket.value, e.trade))
  }

  /** The entry of the q-th ranked trade after p losers, the winners from w on, and the samples below index s. */
  function StageAt(r: seq<Entry>, q: nat, p: nat, w: nat, s: nat): Option<Selected>
    requires q < |r|
  {
    Put(if q >= w then Some(TopWinner) else if q < p then Some(TopLoser)
        else if r[q].index < s then Some(Sample) else None, r[q])
  }

  ghost predicate Stage(m: map<nat, Selected>, r: seq<Entry>, p: nat, w: nat, s: nat) {
    Covers(m, r) && forall q :: 0 <= q < |r| ==> Get(m, r[q].index) == StageAt(r, q, p, w, s)
  }

  lemma OnlyThatIndex(r: seq<Entry>, p: nat)
    requires p < |r| && Distinct(Map(Index, r))
    ensures forall q :: 0 <= q < |r| && r[q].index == r[p].index ==> q == p
  {
    forall q | 0 <= q < |r| && r[q].index == r[p].index ensures q == p {
      assert Map(Index, r)[q] == Map(Index, r)[p];
    }
  }

  /** `sorted(selected)` */
  method SortedKeys(keys: set<nat>) returns (r: seq<nat>)
    ensures forall i, j :: 0 <= i < j < |r| ==> r[i] < r[j]
    ensures forall k :: k in r <==> k in keys
  {
    var rest := keys;
    r := [];
    while rest != {}
      invariant rest <= keys && SortedBy(NatLe, r) && Distinct(r)
      invariant forall k :: k in r <==> k in keys && k !in rest
      decreases rest
    {
      var k :| k in rest;
      ghost var before := r;
      InsertSorted(NatLe, k, r);
      assert Distinct([k] + r);
      r := Insert(NatLe, k, r);
      DistinctPerm([k] + before, r);
      SameMembers([k] + before, r);
      assert forall x :: x in [k] + before <==> x == k || x in before;
      rest := rest - {k};
    }
  }

  predicate NatLe(a: nat, b: nat) { a <= b }

  method MarkLosers(ranked: seq<Entry>) returns (m: map<nat, Selected>, losers: nat)
    requires Distinct(Map(Index, ranked))
    ensures losers == Least(25, |ranked|) && Stage(m, ranked, losers, |ranked|, 0)
  {
    m := map[];
    losers := Least(25, |ranked|);
    for p := 0 to losers
      invariant Stage(m, ranked, p, |ranked|, 0)
    {
      OnlyThatIndex(ranked, p);
      m := m[ranked[p].index := Selected(ranked[p].index, TopLoser, ranked[p].trade)];
    }
  }

  /** The winners override the losers. */
  method MarkWinners(ranked: seq<Entry>, m: map<nat, Selected>, losers: nat) returns (m': map<nat, Selected>, from: nat)
    requires Distinct(Map(Index, ranked)) && Stage(m, ranked, losers, |ranked|, 0)
    ensures from == |ranked| - Least(25, |ranked|) && Stage(m', ranked, losers, from, 0)
  {
    m' := m;
    from := |ranked| - Least(25, |ranked|);
    for p := |ranked| downto from
      invariant Stage(m', ranked, losers, p, 0)
    {
      OnlyThatIndex(ranked, p);
      m' := m'[ranked[p].index := Selected(ranked[p].index, TopWinner, ranked[p].trade)];
    }
  }

  lemma SampleStep(trades: seq<Trade>, ranked: seq<Entry>, m: map<nat, Selected>, losers: nat, from: nat, i: nat)
    requires Lists(ranked, trades) && Stage(m, ranked, losers, from, i) && i < |trades|
    ensures Stage(if i in m then m else m[i := Selected(i, Sample, trades[i])], ranked, losers, from, i + 1)
  {
    assert Entry(i, trades[i]) in ranked;
    var p :| 0 <= p < |ranked| && ranked[p] == Entry(i, trades[i]);
    OnlyThatIndex(ranked, p);
    assert Get(m, ranked[p].index) == StageAt(ranked, p, losers, from, i);
  }

  /** The samples override nothing. */
  method MarkSamples(trades: seq<Trade>, ghost ranked: seq<Entry>, m: map<nat, Selected>, ghost losers: nat,
                     ghost from: nat)
    returns (m': map<nat, Selected>)
    requires Lists(ranked, trades) && Stage(m, ranked, losers, from, 0)
    ensures Stage(m', ranked, losers, from, Least(50, |trades|))
  {
    m' := m;
    for i := 0 to Least(50, |trades|)
      invariant Stage(m', ranked, losers, from, i)
    {
      SampleStep(trades, ranked, m', losers, from, i);
      if i !in m' {
        m' := m'[i := Selected(i, Sample, trades[i])];
      }
    }
  }

  /** _indexed_trades */
  method IndexedTrades(trades: seq<Trade>) returns (selected: seq<Selected>)
    ensures selected == Selection(trades)
  {
    var ranked := Ranked(trades);
    RankedLists(trades);
    var chosen, losers := MarkLosers(ranked);
    var from;
    chosen, from := MarkWinners(ranked, chosen, losers);
    chosen := MarkSamples(trades, ranked, chosen, losers, from);
    var keys := SortedKeys(chosen.Keys);
    selected := seq(|keys|, i requires 0 <= i < |keys| => chosen[keys[i]]);
    ChosenIsSelection(ranked, trades, chosen, keys, selected);
  }

  // The selection as a function of the trades

  /** Where the trade with this index stands in the ranking; its length when it is not there. */
  function Position(r: seq<Entry>, i: nat): (p: nat)
    ensures p <= |r| && (p < |r| ==> r[p].index == i)
  {
    if r == [] then 0
    else if r[0].index == i then 0
    else 1 + Position(r[1..], i)
  }

  lemma {:induction false} PositionIs(r: seq<Entry>, p: nat)
    requires p < |r| && Distinct(Map(Index, r))
    ensures Position(r, r[p].index) == p
  {
    var keys := Map(Index, r);
    if p > 0 {
      assert keys[0] != keys[p];
      assert Map(Index, r[1..]) == keys[1..];
      PositionIs(r[1..], p - 1);
    }
  }

  function BucketOf(r: seq<Entry>, e: Entry): Option<Bucket> {
    var p := Position(r, e.index);
    if p < |r| then BucketAt(r, p) else None
  }

  function Choice(r: seq<Entry>): Entry -> Option<Selected> { (e: Entry) => Put(BucketOf(r, e), e) }

  /** The trades that have a bucket, in their own order. */
  function Selection(trades: seq<Trade>): seq<Selected> { Collect(Choice(Ranked(trades)), Enumerate(trades)) }

  /** An ascending list of selected trades with the right members is the selection. */
  lemma {:induction false} SelectionByMembers(f: Entry -> Option<Selected>, xs: seq<Entry>, s: seq<Selected>)
    requires Ascending(Index, xs)
    requires forall e :: f(e).Some? ==> f(e).value.index == e.index
    requires Ascending(Place, s)
    requires forall e :: e in xs && f(e).Some? ==> f(e).value in s
    requires forall x :: x in s ==> exists e :: e in xs && f(e) == Some(x)
    ensures s == Collect(f, xs)
  {
    assert |s| > 0 ==> s[0] in s && exists e :: e in xs && f(e) == Some(s[0]);
    if xs == [] {
      assert |s| == 0;
    } else {
      AscendingTail(Index, xs);
      if f(xs[0]).Some? {
        FirstSelected(f, xs, s);
        AscendingTail(Place, s);
        RestSelected(f, xs, s, s[1..]);
        SelectionByMembers(f, xs[1..], s[1..]);
      } else {
        RestSelected(f, xs, s, s);
        SelectionByMembers(f, xs[1..], s);
      }
    }
  }

  lemma AscendingTail<T>(index: T -> nat, xs: seq<T>)
    requires xs != []
    ensures xs == [xs[0]] + xs[1..] && xs[0] in xs && (Ascending(index, xs) ==> Ascending(index, xs[1..]))
  {}

  /** The first element's result is in an ascending list only at its head. */
  lemma FirstSelected(f: Entry -> Option<Selected>, xs: seq<Entry>, s: seq<Selected>)
    requires xs != [] && f(xs[0]).Some? && Ascending(Index, xs) && Ascending(Place, s)
    requires forall e :: f(e).Some? ==> f(e).value.index == e.index
    requires f(xs[0]).value in s
    requires forall x :: x in s ==> exists e :: e in xs && f(e) == Some(x)
    ensures s != [] && s[0] == f(xs[0]).value
    ensures forall x :: x in s[1..] ==> x != s[0]
    ensures (forall e :: e in xs && f(e).Some? ==> f(e).value in s)
            ==> forall e :: e in xs[1..] && f(e).Some? ==> f(e).value in s[1..]
  {
    var k :| 0 <= k < |s| && s[k] == f(xs[0]).value;
    var e :| e in xs && f(e) == Some(s[0]);
    assert k == 0;
    assert s == [s[0]] + s[1..];
  }

  lemma RestSelected(f: Entry -> Option<Selected>, xs: seq<Entry>, s: seq<Selected>, rest: seq<Selected>)
    requires xs != [] && forall x :: x in s ==> exists e :: e in xs && f(e) == Some(x)
    requires forall x :: x in rest ==> x in s && f(xs[0]) != Some(x)
    ensures forall x :: x in rest ==> exists e :: e in xs[1..] && f(e) == Some(x)
  {
    forall x | x in rest ensures exists e :: e in xs[1..] && f(e) == Some(x) {
      var e :| e in xs && f(e) == Some(x);
    }
  }

  lemma ChosenIsSelection(r: seq<Entry>, trades: seq<Trade>, m: map<nat, Selected>, keys: seq<nat>, s: seq<Selected>)
    requires Lists(r, trades) && Stage(m, r, Least(25, |r|), |r| - Least(25, |r|), Least(50, |r|))
    requires (forall i, j :: 0 <= i < j < |keys| ==> keys[i] < keys[j]) && (forall k :: k in keys <==> k in m)
    requires |s| == |keys| && forall i :: 0 <= i < |s| ==> keys[i] in m && s[i] == m[keys[i]]
    ensures s == Collect(Choice(r), Enumerate(trades))
  {
    forall i | i in m ensures 0 <= i < |trades| && m[i].index == i && Choice(r)(Entry(i, trades[i])) == Some(m[i]) {
      var q :| 0 <= q < |r| && r[q].index == i;
      StageIsChoice(r, trades, m, q);
    }
    var xs := Enumerate(trades);
    forall e | e in xs && Choice(r)(e).Some? ensures Choice(r)(e).value in s {
      assert Entry(e.index, trades[e.index]) in r;
      var q :| 0 <= q < |r| && r[q] == e;
      StageIsChoice(r, trades, m, q);
      assert e.index in keys;
    }
    forall x | x in s ensures exists e :: e in xs && Choice(r)(e) == Some(x) {
      var k :| 0 <= k < |s| && s[k] == x;
      assert xs[keys[k]] in xs;
    }
    SelectionByMembers(Choice(r), xs, s);
  }

  lemma StageIsChoice(r: seq<Entry>, trades: seq<Trade>, m: map<nat, Selected>, q: nat)
    requires Lists(r, trades) && Stage(m, r, Least(25, |r|), |r| - Least(25, |r|), Least(50, |r|)) && q < |r|
    ensures r[q].index < |trades| && r[q] == Entry(r[q].index, trades[r[q].index])
    ensures Get(m, r[q].index) == Choice(r)(r[q])
  {
    assert r[q] in r;
    PositionIs(r, q);
    assert Get(m, r[q].index) == StageAt(r, q, Least(25, |r|), |r| - Least(25, |r|), Least(50, |r|));
  }

  // What the selection promises

  lemma EnumerateAscending(trades: seq<Trade>)
    ensures Ascending(Index, Enumerate(trades))
  {}

  lemma {:induction false} ChosenAscending(r: seq<Entry>, xs: seq<Entry>)
    requires Ascending(Index, xs)
    ensures Ascending(Place, Collect(Choice(r), xs))
  {
    if xs != [] {
      ChosenAscending(r, xs[1..]);
      var rest := Collect(Choice(r), xs[1..]);
      forall y | y in rest ensures xs[0].index < y.index {
        var x :| x in xs[1..] && Choice(r)(x) == Some(y);
      }
      if Choice(r)(xs[0]).Some? {
        AscendingCons(Choice(r)(xs[0]).value, rest);
      }
    }
  }

  lemma AscendingCons(x: Selected, rest: seq<Selected>)
    requires Ascending(Place, rest)
    requires forall y :: y in rest ==> x.index < y.index
    ensures Ascending(Place, [x] + rest)
  {
    var s := [x] + rest;
    forall i, j | 0 <= i < j < |s| ensures s[i].index < s[j].index {
      assert s[j] == rest[j - 1] && rest[j - 1] in rest;
      assert i > 0 ==> s[i] == rest[i - 1];
    }
  }

  /** Numbering the selected trades from one follows their own order, so no rank or trade is repeated. */
  lemma RanksAscend(trades: seq<Trade>)
    ensures Ascending(Place, Selection(trades))
  {
    EnumerateAscending(trades);
    ChosenAscending(Ranked(trades), Enumerate(trades));
  }

  function Has(b: Bucket): Selected -> bool { (s: Selected) => s.bucket == b }

  function InBucket(r: seq<Entry>, b: Bucket): Entry -> bool { (e: Entry) => BucketOf(r, e) == Some(b) }

  lemma {:induction false} CountCollected(r: seq<Entry>, b: Bucket, xs: seq<Entry>)
    ensures |Filter(Has(b), Collect(Choice(r), xs))| == |Filter(InBucket(r, b), xs)|
  {
    if xs != [] {
      CountCollected(r, b, xs[1..]);
      var f, rest := Choice(r), Collect(Choice(r), xs[1..]);
      if f(xs[0]).Some? {
        assert ([f(xs[0]).value] + rest)[1..] == rest;
      }
    }
  }

  lemma {:induction false} FilterMultiplicity<T>(p: T -> bool, xs: seq<T>, x: T)
    ensures multiset(Filter(p, xs))[x] == if p(x) then multiset(xs)[x] else 0
  {
    if xs != [] {
      FilterMultiplicity(p, xs[1..], x);
      assert xs == [xs[0]] + xs[1..];
    }
  }

  lemma SameMultiset<T>(a: multiset<T>, b: multiset<T>)
    requires forall x: T :: a[x] == b[x]
    ensures a == b
  {}

  lemma CountPermuted<T>(p: T -> bool, xs: seq<T>, ys: seq<T>)
    requires multiset(xs) == multiset(ys)
    ensures |Filter(p, xs)| == |Filter(p, ys)|
  {
    var a, b := multiset(Filter(p, xs)), multiset(Filter(p, ys));
    forall x: T ensures a[x] == b[x] {
      FilterMultiplicity(p, xs, x);
      FilterMultiplicity(p, ys, x);
    }
    SameMultiset(a, b);
    assert |a| == |Filter(p, xs)| && |b| == |Filter(p, ys)|;
  }

  /** A filter that holds of a whole segment and of nothing outside it counts the segment. */
  lemma CountSegment<T>(p: T -> bool, xs: seq<T>, lo: nat, hi: nat)
    requires lo <= hi <= |xs|
    requires forall i :: 0 <= i < |xs| ==> (p(xs[i]) <==> lo <= i < hi)
    ensures |Filter(p, xs)| == hi - lo
  {
    var a, b, c := xs[..lo], xs[lo..hi], xs[hi..];
    assert xs == (a + b) + c;
    FilterAppend(p, a + b, c);
    FilterAppend(p, a, b);
    FilterNone(p, a);
    FilterAll(p, b);
    FilterNone(p, c);
  }

  function CountOf(b: Bucket, trades: seq<Trade>): nat { |Filter(Has(b), Selection(trades))| }

  function Least(a: int, b: int): int { if a <= b then a else b }

  /** Exactly min(n, 25) winners and min(25, max(0, n - 25)) losers, whatever the ties. */
  lemma WinnersAndLosers(trades: seq<Trade>)
    ensures CountOf(TopWinner, trades) == Least(|trades|, 25)
    ensures CountOf(TopLoser, trades) == if |trades| <= 25 then 0 else Least(25, |trades| - 25)
  {
    RankedLists(trades);
    CountBuckets(Ranked(trades), Enumerate(trades));
  }

  lemma CountBuckets(r: seq<Entry>, xs: seq<Entry>)
    requires Distinct(Map(Index, r)) && multiset(r) == multiset(xs) && |r| == |xs|
    ensures |Filter(Has(TopWinner), Collect(Choice(r), xs))| == Least(|xs|, 25)
    ensures |Filter(Has(TopLoser), Collect(Choice(r), xs))| == if |xs| <= 25 then 0 else Least(25, |xs| - 25)
  {
    forall q | 0 <= q < |r| ensures BucketOf(r, r[q]) == BucketAt(r, q) {
      PositionIs(r, q);
    }
    var from := |r| - Least(|r|, 25);
    CountBucket(r, xs, TopWinner, from, |r|);
    CountBucket(r, xs, TopLoser, 0, Least(from, 25));
  }

  lemma CountBucket(r: seq<Entry>, xs: seq<Entry>, b: Bucket, lo: nat, hi: nat)
    requires multiset(r) == multiset(xs) && lo <= hi <= |r|
    requires forall q :: 0 <= q < |r| ==> (BucketOf(r, r[q]) == Some(b) <==> lo <= q < hi)
    ensures |Filter(Has(b), Collect(Choice(r), xs))| == hi - lo
  {
    CountCollected(r, b, xs);
    CountPermuted(InBucket(r, b), xs, r);
    CountSegment(InBucket(r, b), r, lo, hi);
  }

  lemma {:induction false} BucketsAddUp(s: seq<Selected>)
    ensures |s| == |Filter(Has(TopWinner), s)| + |Filter(Has(TopLoser), s)| + |Filter(Has(Sample), s)|
  {
    if s != [] {
      BucketsAddUp(s[1..]);
    }
  }

  lemma {:induction false} FewAscending(s: seq<Selected>, lo: nat, bound: nat)
    requires Ascending(Place, s)
    requires forall x :: x in s && x.bucket == Sample ==> x.index < bound
    requires forall x :: x in s ==> lo <= x.index
    ensures |Filter(Has(Sample), s)| <= if lo <= bound then bound - lo else 0
  {
    if s != [] {
      assert s[0] in s;
      FewAscending(s[1..], s[0].index + 1, bound);
    }
  }

  /** At most a hundred trades are selected, and all of them when there are at most fifty. */
  lemma SelectionSize(trades: seq<Trade>)
    ensures |Selection(trades)| <= 100
    ensures |trades| <= 50 ==> |Selection(trades)| == |trades|
  {
    var s := Selection(trades);
    RanksAscend(trades);
    WinnersAndLosers(trades);
    BucketsAddUp(s);
    SamplesEarly(Ranked(trades), trades);
    FewAscending(s, 0, 50);
    if |trades| <= 50 {
      RankedLists(trades);
      KeepsAll(Choice(Ranked(trades)), Enumerate(trades), Ranked(trades));
    }
  }

  lemma SamplesEarly(r: seq<Entry>, trades: seq<Trade>)
    ensures forall x :: x in Collect(Choice(r), Enumerate(trades)) && x.bucket == Sample ==> x.index < 50
  {
    forall x | x in Collect(Choice(r), Enumerate(trades)) && x.bucket == Sample ensures x.index < 50 {
      var e :| e in Enumerate(trades) && Choice(r)(e) == Some(x);
    }
  }

  lemma {:induction false} KeepsAll(f: Entry -> Option<Selected>, xs: seq<Entry>, r: seq<Entry>)
    requires f == Choice(r) && Distinct(Map(Index, r)) && |r| <= 50
    requires forall e :: e in xs ==> e in r && e.index < 50
    ensures |Collect(f, xs)| == |xs|
  {
    if xs != [] {
      assert xs[0] in xs;
      var q :| 0 <= q < |r| && r[q] == xs[0];
      PositionIs(r, q);
      KeepsAll(f, xs[1..], r);
    }
  }

  /** No loser earns more than a sample, and no sample more than a winner. */
  lemma BucketsOrdered(trades: seq<Trade>, a: Selected, b: Selected)
    requires a in Selection(trades) && b in Selection(trades)
    requires (a.bucket == TopLoser && b.bucket != TopLoser) || (a.bucket != TopWinner && b.bucket == TopWinner)
    ensures Pnl(a.trade) <= Pnl(b.trade)
  {
    var r := Ranked(trades);
    RankedLists(trades);
    var p := SelectedAt(r, trades, a);
    var q := SelectedAt(r, trades, b);
    BucketPositions(r, p, q);
    RankedPair(trades, p, q);
  }

  lemma BucketPositions(r: seq<Entry>, p: nat, q: nat)
    requires p < |r| && q < |r|
    ensures BucketAt(r, p) == Some(TopLoser) && BucketAt(r, q).Some? && BucketAt(r, q) != Some(TopLoser) ==> p < q
    ensures BucketAt(r, p).Some? && BucketAt(r, p) != Some(TopWinner) && BucketAt(r, q) == Some(TopWinner) ==> p < q
  {}

  lemma SelectedAt(r: seq<Entry>, trades: seq<Trade>, x: Selected) returns (p: nat)
    requires Lists(r, trades) && x in Collect(Choice(r), Enumerate(trades))
    ensures p < |r| && r[p] == Entry(x.index, x.trade) && BucketAt(r, p) == Some(x.bucket)
  {
    var e :| e in Enumerate(trades) && Choice(r)(e) == Some(x);
    assert Entry(e.index, trades[e.index]) in r;
    p :| 0 <= p < |r| && r[p] == e;
    PositionIs(r, p);
  }

  /** In terms of the recorded profits, where a trade without one counts as zero. */
  lemma BucketsByRecord(trades: seq<Trade>, a: Selected, b: Selected, x: real, y: real)
    requires a in Selection(trades) && b in Selection(trades)
    requires (a.bucket == TopLoser && b.bucket != TopLoser) || (a.bucket != TopWinner && b.bucket == TopWinner)
    requires a.trade.pnl == Some(x) || (a.trade.pnl == None && x == 0.0)
    requires b.trade.pnl == Some(y) || (b.trade.pnl == None && y == 0.0)
    ensures x <= y
  {
    BucketsOrdered(trades, a, b);
  }

  /** The ranking ascends in the recorded profits, earlier trades first among equal ones. */
  lemma RankedByRecord(trades: seq<Trade>, p: nat, q: nat, x: real, y: real)
    requires p < q < |Ranked(trades)|
    requires Ranked(trades)[p].trade.pnl == Some(x) || (Ranked(trades)[p].trade.pnl == None && x == 0.0)
    requires Ranked(trades)[q].trade.pnl == Some(y) || (Ranked(trades)[q].trade.pnl == None && y == 0.0)
    ensures x < y || (x == y && Ranked(trades)[p].index < Ranked(trades)[q].index)
  {
    RankedOrder(trades);
    RankedLists(trades);
    var r := Ranked(trades);
    assert PnlIndexLe(r[p], r[q]) && Map(Index, r)[p] != Map(Index, r)[q];
  }

  /** Each of the first fifty trades is selected, under its own position. */
  lemma EarlySelected(trades: seq<Trade>, i: nat)
    requires i < |trades| && i < 50
    ensures exists x :: x in Selection(trades) && x.index == i && x.trade == trades[i]
  {
    var r, e := Ranked(trades), Entry(i, trades[i]);
    RankedLists(trades);
    var q :| 0 <= q < |r| && r[q] == e;
    PositionIs(r, q);
    assert Enumerate(trades)[i] in Enumerate(trades);
    assert Choice(r)(e).Some? && Choice(r)(e).value in Selection(trades);
  }
}
