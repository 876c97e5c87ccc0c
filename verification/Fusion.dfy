/** Reciprocal-rank fusion of two rankings, and the rerank that follows it. */
module Fusion {
  import opened Seqs
  import opened Sorting
  import opened Text
  import opened QuerySignals
  import opened Ranking

  // _rrf_merge

  const RRF_K := 60

  /** The share of a chunk at 1-based position `rank`. */
  function Share(rank: nat): real
    requires rank > 0
  {
    1.0 / (RRF_K + rank) as real
  }

  /** What a ranking contributes to an id: the sum of the shares of its positions. */
  function Contribution(hits: seq<Hit>, id: string): real {
    if hits == [] then 0.0
    else
      Contribution(hits[..|hits| - 1], id)
      + (if HitId(hits[|hits| - 1]) == id then Share(|hits|) else 0.0)
  }

  /** Position of an id, or the length when it is absent. */
  function Find(hits: seq<Hit>, id: string): (i: nat)
    ensures i <= |hits|
    ensures i < |hits| ==> HitId(hits[i]) == id
    ensures forall j :: 0 <= j < i ==> HitId(hits[j]) != id
  {
    if hits == [] then 0 else if HitId(hits[0]) == id then 0 else 1 + Find(hits[1..], id)
  }

  /** Adding a hit at `rank` to an entry of the fused table; `lexical` says which ranking it comes from. */
  function Fuse(current: Hit, h: Hit, rank: nat, lexical: bool): Hit
    requires rank > 0
  {
    var summed := current.(rrf := current.rrf + Share(rank));
    if lexical then summed.(lexical := Max(current.lexical, h.lexical))
    else summed.(vector := Max(current.vector, h.vector))
  }

  /** The fused table as a list in insertion order. */
  function FuseInto(table: seq<Hit>, h: Hit, rank: nat, lexical: bool): seq<Hit>
    requires rank > 0
  {
    var i := Find(table, HitId(h));
    if i < |table| then table[i := Fuse(table[i], h, rank, lexical)]
    else table + [Fuse(h.(rrf := 0.0), h, rank, lexical)]
  }

  function FuseAll(table: seq<Hit>, hits: seq<Hit>, lexical: bool): seq<Hit> {
    if hits == [] then table
    else FuseInto(FuseAll(table, hits[..|hits| - 1], lexical), hits[|hits| - 1], |hits|, lexical)
  }

  function RrfMerge(lexicalRanked: seq<Hit>, vectorRanked: seq<Hit>): seq<Hit> {
    SortHits(RrfOf, FuseAll(FuseAll([], lexicalRanked, true), vectorRanked, false))
  }

  /** rrf value stored for an id, 0 when absent. */
  function Stored(table: seq<Hit>, id: string): real {
    var i := Find(table, id);
    if i < |table| then table[i].rrf else 0.0
  }

  predicate HasId(hits: seq<Hit>, id: string) { exists h :: h in hits && HitId(h) == id }

  lemma FindIff(hits: seq<Hit>, id: string)
    ensures HasId(hits, id) <==> Find(hits, id) < |hits|
  {
    if Find(hits, id) < |hits| {
      assert hits[Find(hits, id)] in hits;
    }
  }

  lemma FindUnique(hits: seq<Hit>, i: nat)
    requires DistinctIds(hits) && i < |hits|
    ensures Find(hits, HitId(hits[i])) == i
  {
    var ids := Map(HitId, hits);
    var j := Find(hits, HitId(hits[i]));
    assert ids[i] == HitId(hits[i]) && (j < |hits| ==> ids[j] == ids[i]);
  }

  /** One insertion: ids stay distinct, one share is added to one id, the fused table grows by at most that id. */
  lemma FuseIntoFacts(table: seq<Hit>, h: Hit, rank: nat, lexical: bool)
    requires DistinctIds(table) && rank > 0
    ensures var t := FuseInto(table, h, rank, lexical);
            && DistinctIds(t)
            && (forall id :: Stored(t, id) == Stored(table, id) + if HitId(h) == id then Share(rank) else 0.0)
            && (forall id :: HasId(t, id) <==> HasId(table, id) || id == HitId(h))
  {
    var t, k := FuseInto(table, h, rank, lexical), Find(table, HitId(h));
    var ids, was := Map(HitId, t), Map(HitId, table);
    FindIff(table, HitId(h));
    if k < |table| {
      assert ids == was;
    } else {
      assert ids == was + [HitId(h)];
      assert forall i :: 0 <= i < |was| ==> was[i] == HitId(table[i]);
      DistinctAppend(was, [HitId(h)]);
    }
    forall id
      ensures Stored(t, id) == Stored(table, id) + if HitId(h) == id then Share(rank) else 0.0
      ensures HasId(t, id) <==> HasId(table, id) || id == HitId(h)
    {
      FuseIntoAt(table, h, rank, lexical, id);
    }
  }

  lemma FuseIntoAt(table: seq<Hit>, h: Hit, rank: nat, lexical: bool, id: string)
    requires DistinctIds(table) && rank > 0 && DistinctIds(FuseInto(table, h, rank, lexical))
    ensures var t := FuseInto(table, h, rank, lexical);
            && Stored(t, id) == Stored(table, id) + (if HitId(h) == id then Share(rank) else 0.0)
            && (HasId(t, id) <==> HasId(table, id) || id == HitId(h))
  {
    var t := FuseInto(table, h, rank, lexical);
    FindIff(t, id);
    FindIff(table, id);
    var i, j := Find(t, id), Find(table, id);
    assert j < |table| ==> HitId(t[j]) == id;
    if j < |table| {
      FindUnique(t, j);
    } else if id == HitId(h) {
      FindUnique(t, |table|);
    }
  }

  lemma {:induction false} FuseAllFacts(table: seq<Hit>, hits: seq<Hit>, lexical: bool)
    requires DistinctIds(table)
    ensures var t := FuseAll(table, hits, lexical);
            && DistinctIds(t)
            && (forall id :: Stored(t, id) == Stored(table, id) + Contribution(hits, id))
            && (forall id :: HasId(t, id) <==> HasId(table, id) || HasId(hits, id))
  {
    if hits != [] {
      var init, last := hits[..|hits| - 1], hits[|hits| - 1];
      FuseAllFacts(table, init, lexical);
      FuseIntoFacts(FuseAll(table, init, lexical), last, |hits|, lexical);
      assert hits == init + [last];
    }
  }

  /** Fusion lists every id of either ranking exactly once, with the exact sum of its shares, best first. */
  lemma RrfMergeFacts(lexicalRanked: seq<Hit>, vectorRanked: seq<Hit>)
    ensures var r := RrfMerge(lexicalRanked, vectorRanked);
            && DistinctIds(r)
            && (forall h :: h in r ==>
                            h.rrf == Contribution(lexicalRanked, HitId(h)) + Contribution(vectorRanked, HitId(h)))
            && (forall id :: HasId(r, id) <==> HasId(lexicalRanked, id) || HasId(vectorRanked, id))
            && (forall i, j :: 0 <= i < j < |r| ==> BestFirst(RrfOf, r[i], r[j]))
  {
    var first := FuseAll([], lexicalRanked, true);
    var table := FuseAll(first, vectorRanked, false);
    FuseAllFacts([], lexicalRanked, true);
    FuseAllFacts(first, vectorRanked, false);
    SortedHits(RrfOf, table);
    var r := RrfMerge(lexicalRanked, vectorRanked);
    forall h | h in r
      ensures h.rrf == Contribution(lexicalRanked, HitId(h)) + Contribution(vectorRanked, HitId(h))
    {
      assert h in table;
      var i :| 0 <= i < |table| && table[i] == h;
      FindUnique(table, i);
      assert Stored(table, HitId(h)) == h.rrf;
    }
    forall id ensures HasId(r, id) <==> HasId(lexicalRanked, id) || HasId(vectorRanked, id) {
      assert HasId(r, id) <==> HasId(table, id);
      assert !HasId([], id);
    }
  }

  // Bounds, symmetry and dominance

  lemma FindSnoc(init: seq<Hit>, last: Hit, id: string)
    ensures Find(init + [last], id)
            == if Find(init, id) < |init| then Find(init, id) else if HitId(last) == id then |init| else |init| + 1
  {
    var hits, k, m := init + [last], Find(init + [last], id), Find(init, id);
    assert forall i :: 0 <= i < |init| ==> hits[i] == init[i];
    assert hits[|init|] == last;
  }

  lemma {:induction false} ContributionIs(hits: seq<Hit>, id: string)
    requires DistinctIds(hits)
    ensures Contribution(hits, id) == if Find(hits, id) < |hits| then Share(Find(hits, id) + 1) else 0.0
  {
    if hits != [] {
      var init, last := hits[..|hits| - 1], hits[|hits| - 1];
      LastIsNew(hits);
      ContributionIs(init, id);
      FindSnoc(init, last, id);
    }
  }

  lemma LastIsNew(hits: seq<Hit>)
    requires DistinctIds(hits) && hits != []
    ensures var init, last := hits[..|hits| - 1], hits[|hits| - 1];
            hits == init + [last] && DistinctIds(init) && Find(init, HitId(last)) == |init|
  {
    var init, ids := hits[..|hits| - 1], Map(HitId, hits);
    assert Map(HitId, init) == ids[..|init|];
    assert forall i :: 0 <= i < |init| ==> ids[i] == HitId(init[i]) && ids[i] != ids[|init|];
  }

  lemma ShareBounds(rank: nat)
    requires rank > 0
    ensures 0.0 < Share(rank) <= 1.0 / 61.0
    ensures forall other :: 0 < other < rank ==> Share(rank) < Share(other)
  {
    SmallerShare(1, rank);
    forall other | 0 < other < rank ensures Share(rank) < Share(other) {
      SmallerShare(other, rank);
    }
  }

  lemma SmallerShare(a: nat, b: nat)
    requires 0 < a <= b
    ensures 0.0 < Share(b) <= Share(a) && (a < b ==> Share(b) < Share(a))
  {
    Reciprocals((RRF_K + a) as real, (RRF_K + b) as real);
  }

  lemma Reciprocals(x: real, y: real)
    requires 0.0 < x <= y
    ensures 0.0 < 1.0 / y <= 1.0 / x && (x < y ==> 1.0 / y < 1.0 / x)
  {}

  /** Every fused score lies in (0, 2/61]. */
  lemma RrfScoreBounds(lexicalRanked: seq<Hit>, vectorRanked: seq<Hit>, h: Hit)
    requires DistinctIds(lexicalRanked) && DistinctIds(vectorRanked) && h in RrfMerge(lexicalRanked, vectorRanked)
    ensures 0.0 < h.rrf <= 2.0 / 61.0
  {
    FusedScore(lexicalRanked, vectorRanked, h);
    ContributionBounds(lexicalRanked, HitId(h));
    ContributionBounds(vectorRanked, HitId(h));
  }

  lemma FusedScore(lexicalRanked: seq<Hit>, vectorRanked: seq<Hit>, h: Hit)
    requires h in RrfMerge(lexicalRanked, vectorRanked)
    ensures h.rrf == Contribution(lexicalRanked, HitId(h)) + Contribution(vectorRanked, HitId(h))
    ensures HasId(lexicalRanked, HitId(h)) || HasId(vectorRanked, HitId(h))
  {
    RrfMergeFacts(lexicalRanked, vectorRanked);
    assert HasId(RrfMerge(lexicalRanked, vectorRanked), HitId(h));
  }

  lemma ContributionBounds(hits: seq<Hit>, id: string)
    requires DistinctIds(hits)
    ensures if HasId(hits, id) then 0.0 < Contribution(hits, id) <= 1.0 / 61.0 else Contribution(hits, id) == 0.0
  {
    ContributionIs(hits, id);
    FindIff(hits, id);
    ShareBounds(Find(hits, id) + 1);
  }

  /** x stands before y in a ranking; an absent id stands behind every listed one. */
  predicate Ahead(hits: seq<Hit>, x: string, y: string) { Find(hits, x) < Find(hits, y) }

  /** A chunk listed ahead in both rankings is ahead in the fusion. */
  lemma RrfDominance(lexicalRanked: seq<Hit>, vectorRanked: seq<Hit>, i: nat, j: nat)
    requires DistinctIds(lexicalRanked) && DistinctIds(vectorRanked)
    requires i < |RrfMerge(lexicalRanked, vectorRanked)| && j < |RrfMerge(lexicalRanked, vectorRanked)|
    requires var r := RrfMerge(lexicalRanked, vectorRanked);
             Ahead(lexicalRanked, HitId(r[i]), HitId(r[j])) && Ahead(vectorRanked, HitId(r[i]), HitId(r[j]))
    ensures i < j
  {
    var r := RrfMerge(lexicalRanked, vectorRanked);
    FusedAhead(lexicalRanked, vectorRanked, r[i], r[j]);
    FusedPair(lexicalRanked, vectorRanked, i, j);
  }

  lemma FusedAhead(lexicalRanked: seq<Hit>, vectorRanked: seq<Hit>, g: Hit, h: Hit)
    requires DistinctIds(lexicalRanked) && DistinctIds(vectorRanked)
    requires g in RrfMerge(lexicalRanked, vectorRanked) && h in RrfMerge(lexicalRanked, vectorRanked)
    requires Ahead(lexicalRanked, HitId(g), HitId(h)) && Ahead(vectorRanked, HitId(g), HitId(h))
    ensures g.rrf > h.rrf
  {
    FusedScore(lexicalRanked, vectorRanked, g);
    FusedScore(lexicalRanked, vectorRanked, h);
    HigherContribution(lexicalRanked, HitId(g), HitId(h));
    HigherContribution(vectorRanked, HitId(g), HitId(h));
  }

  lemma FusedPair(lexicalRanked: seq<Hit>, vectorRanked: seq<Hit>, i: nat, j: nat)
    requires var r := RrfMerge(lexicalRanked, vectorRanked); i < |r| && j < |r| && r[i].rrf > r[j].rrf
    ensures i < j
  {
    FusedOrder(lexicalRanked, vectorRanked);
  }

  lemma FusedOrder(lexicalRanked: seq<Hit>, vectorRanked: seq<Hit>)
    ensures var r := RrfMerge(lexicalRanked, vectorRanked); forall i, j :: 0 <= i < j < |r| ==> r[i].rrf >= r[j].rrf
  {
    RrfMergeFacts(lexicalRanked, vectorRanked);
    var r := RrfMerge(lexicalRanked, vectorRanked);
    forall i, j | 0 <= i < j < |r| ensures r[i].rrf >= r[j].rrf {
      assert BestFirst(RrfOf, r[i], r[j]);
    }
  }

  lemma HigherContribution(hits: seq<Hit>, x: string, y: string)
    requires DistinctIds(hits) && Ahead(hits, x, y)
    ensures Contribution(hits, x) > Contribution(hits, y)
  {
    ContributionIs(hits, x);
    ContributionIs(hits, y);
    ShareBounds(Find(hits, x) + 1);
    ShareBounds(Find(hits, y) + 1);
  }

  /** Every id of `a` has the same score in `b`. */
  ghost predicate Matched(a: seq<Hit>, b: seq<Hit>) {
    forall h :: h in a ==> exists g :: g in b && HitId(g) == HitId(h) && g.rrf == h.rrf
  }

  ghost predicate Ordered(a: seq<Hit>) {
    forall i, j :: 0 <= i < j < |a| ==> BestFirst(RrfOf, a[i], a[j])
  }

  lemma HeadOrder(a: seq<Hit>, b: seq<Hit>)
    requires a != [] && Ordered(b) && Matched(a, b)
    ensures b != [] && (BestFirst(RrfOf, b[0], a[0]) || HitId(b[0]) == HitId(a[0]))
  {
    assert a[0] in a;
    var g :| g in b && HitId(g) == HitId(a[0]) && g.rrf == a[0].rrf;
    var i :| 0 <= i < |b| && b[i] == g;
    assert i > 0 ==> BestFirst(RrfOf, b[0], b[i]);
  }

  lemma SameHead(a: seq<Hit>, b: seq<Hit>)
    requires a != [] && Ordered(a) && Ordered(b) && Matched(a, b) && Matched(b, a)
    ensures b != [] && HitId(a[0]) == HitId(b[0])
  {
    HeadOrder(a, b);
    HeadOrder(b, a);
    StringLeTotal(HitId(a[0]), HitId(b[0]));
  }

  /** Two orderings of the same ids with the same scores list the ids alike. */
  lemma {:induction false} SameOrder(a: seq<Hit>, b: seq<Hit>)
    requires Ordered(a) && Ordered(b) && DistinctIds(a) && DistinctIds(b) && Matched(a, b) && Matched(b, a)
    ensures Map(HitId, a) == Map(HitId, b)
  {
    if a != [] {
      SameHead(a, b);
      TailOrder(a, b);
      TailOrder(b, a);
      SameOrder(a[1..], b[1..]);
      MapTail(HitId, a);
      MapTail(HitId, b);
    } else if b != [] {
      HeadOrder(b, a);
    }
  }

  lemma TailOrder(a: seq<Hit>, b: seq<Hit>)
    requires a != [] && b != [] && HitId(a[0]) == HitId(b[0]) && DistinctIds(a) && Ordered(a) && Matched(a, b)
    ensures DistinctIds(a[1..]) && Ordered(a[1..]) && Matched(a[1..], b[1..])
  {
    var ids := Map(HitId, a);
    assert Map(HitId, a[1..]) == ids[1..];
    forall h | h in a[1..] ensures exists g :: g in b[1..] && HitId(g) == HitId(h) && g.rrf == h.rrf {
      var i :| 0 <= i < |a[1..]| && a[1..][i] == h;
      assert ids[i + 1] == HitId(h) && ids[0] != ids[i + 1];
      var g :| g in b && HitId(g) == HitId(h) && g.rrf == h.rrf;
      assert g != b[0];
      assert g in b[1..];
    }
  }

  /** The fused order does not depend on which ranking comes first. */
  lemma RrfSymmetric(xs: seq<Hit>, ys: seq<Hit>)
    ensures Map(HitId, RrfMerge(xs, ys)) == Map(HitId, RrfMerge(ys, xs))
  {
    RrfMergeFacts(xs, ys);
    RrfMergeFacts(ys, xs);
    MatchingHits(xs, ys);
    MatchingHits(ys, xs);
    SameOrder(RrfMerge(xs, ys), RrfMerge(ys, xs));
  }

  lemma MatchingHits(xs: seq<Hit>, ys: seq<Hit>)
    ensures Matched(RrfMerge(xs, ys), RrfMerge(ys, xs))
  {
    RrfMergeFacts(xs, ys);
    RrfMergeFacts(ys, xs);
    forall h | h in RrfMerge(xs, ys)
      ensures exists g :: g in RrfMerge(ys, xs) && HitId(g) == HitId(h) && g.rrf == h.rrf
    {
      assert HasId(RrfMerge(xs, ys), HitId(h));
      assert HasId(RrfMerge(ys, xs), HitId(h));
      var g :| g in RrfMerge(ys, xs) && HitId(g) == HitId(h);
    }
  }

  // The dictionary of _rrf_merge refines the list

  /** The dictionary `table`, with its keys in insertion order, holds the entries of `list`. */
  ghost predicate Represents(order: seq<string>, table: map<string, Hit>, list: seq<Hit>) {
    && order == Map(HitId, list) && Distinct(order)
    && (forall i :: 0 <= i < |order| ==> order[i] in table && table[order[i]] == list[i])
    && (forall id :: id in table ==> id in order)
  }

  lemma RepresentsFind(order: seq<string>, table: map<string, Hit>, list: seq<Hit>, id: string)
    requires Represents(order, table, list)
    ensures id in table <==> Find(list, id) < |list|
    ensures id in table ==> table[id] == list[Find(list, id)]
  {
    var k := Find(list, id);
    if k < |list| {
      assert order[k] == id;
    }
  }

  lemma RepresentsUpdate(order: seq<string>, table: map<string, Hit>, list: seq<Hit>, k: nat, g: Hit)
    requires Represents(order, table, list) && k < |list| && HitId(g) == order[k]
    ensures Represents(order, table[order[k] := g], list[k := g])
  {
    assert Map(HitId, list[k := g]) == order;
  }

  lemma RepresentsAdd(order: seq<string>, table: map<string, Hit>, list: seq<Hit>, g: Hit)
    requires Represents(order, table, list) && HitId(g) !in table
    ensures Represents(order + [HitId(g)], table[HitId(g) := g], list + [g])
  {
    assert Map(HitId, list + [g]) == order + [HitId(g)];
    assert forall i :: 0 <= i < |order| ==> order[i] in table;
  }

  /** One of the two loops of _rrf_merge. */
  method FuseRanking(order0: seq<string>, table0: map<string, Hit>, hits: seq<Hit>, lexical: bool,
                     ghost list0: seq<Hit>)
    returns (order: seq<string>, table: map<string, Hit>)
    requires Represents(order0, table0, list0)
    ensures Represents(order, table, FuseAll(list0, hits, lexical))
  {
    order, table := order0, table0;
    for i := 0 to |hits|
      invariant Represents(order, table, FuseAll(list0, hits[..i], lexical))
    {
      var h, id := hits[i], HitId(hits[i]);
      ghost var list := FuseAll(list0, hits[..i], lexical);
      assert hits[..i + 1] == hits[..i] + [h] && hits[..i + 1][..i] == hits[..i];
      RepresentsFind(order, table, list, id);
      if id in table {
        RepresentsUpdate(order, table, list, Find(list, id), Fuse(table[id], h, i + 1, lexical));
        table := table[id := Fuse(table[id], h, i + 1, lexical)];
      } else {
        var entry := Fuse(h.(rrf := 0.0), h, i + 1, lexical);
        RepresentsAdd(order, table, list, entry);
        order, table := order + [id], table[id := entry];
      }
    }
    assert hits[..|hits|] == hits;
  }

  /** _rrf_merge */
  method RrfMergeTables(lexicalRanked: seq<Hit>, vectorRanked: seq<Hit>) returns (r: seq<Hit>)
    ensures r == RrfMerge(lexicalRanked, vectorRanked)
  {
    var order, table := FuseRanking([], map[], lexicalRanked, true, []);
    order, table := FuseRanking(order, table, vectorRanked, false, FuseAll([], lexicalRanked, true));
    var values := seq(|order|, i requires 0 <= i < |order| && order[i] in table => table[order[i]]);
    assert values == FuseAll(FuseAll([], lexicalRanked, true), vectorRanked, false);
    r := SortHits(RrfOf, values);
  }

  // _rerank

  function Overlap(tags: set<string>, listed: seq<string>): real {
    |tags * (set t | t in listed)| as real
  }

  /** The bonuses and penalties of one chunk. */
  function RerankFeatures(h: Hit, intent: Intent, expandedTerms: seq<string>, query: string): Features {
    var expanded := Lower(Join(expandedTerms, " "));
    var text := Lower(h.chunk.text);
    Reranked(
      Overlap(intent.tags, h.chunk.domainTags) * 0.02,
      Overlap(intent.tags, h.chunk.marketTags) * 0.04,
      if expanded != "" && ContainsAny(text, Map(Lower, expandedTerms)) then 0.03 else 0.0,
      if Contains(expanded, "risk policy") && h.chunk.sourceId == RISK_POLICY then 0.1 else 0.0,
      if h.chunk.sourceType in {"external_ref", "official"} && !AsksForSources(query) then 0.06 else 0.0,
      if h.chunk.trustLevel == "low" then 0.03 else 0.0,
      Min(h.lexical, 10.0) * 0.01)
  }

  function RerankHit(h: Hit, intent: Intent, expandedTerms: seq<string>, query: string): Hit {
    var f := RerankFeatures(h, intent, expandedTerms, query);
    h.(score := h.rrf + f.domainOverlap + f.marketOverlap + f.expansionBonus + f.riskPolicyBonus
                + f.lexicalStrength - f.metadataPenalty - f.trustPenalty,
       features := f)
  }

  function Reranker(intent: Intent, expandedTerms: seq<string>, query: string): Hit -> Hit {
    (h: Hit) => RerankHit(h, intent, expandedTerms, query)
  }

  function Rerank(hits: seq<Hit>, intent: Intent, expandedTerms: seq<string>, query: string): seq<Hit> {
    SortHits(ScoreOf, Map(Reranker(intent, expandedTerms, query), hits))
  }

  /** The same chunk with the same lexical and vector score. */
  predicate SameEvidence(g: Hit, h: Hit) {
    g.chunk == h.chunk && g.lexical == h.lexical && g.vector == h.vector
  }

  ghost predicate CoveredBy(hits: seq<Hit>, others: seq<Hit>) {
    forall h :: h in hits ==> exists g :: g in others && SameEvidence(g, h)
  }

  lemma RescoreFacts(f: Hit -> Hit, hits: seq<Hit>)
    requires forall h :: SameEvidence(f(h), h)
    ensures var r := SortHits(ScoreOf, Map(f, hits));
            |r| == |hits| && CoveredBy(hits, r) && CoveredBy(r, hits) && (DistinctIds(hits) ==> DistinctIds(r))
  {
    var scored := Map(f, hits);
    SortedHits(ScoreOf, scored);
    assert Map(HitId, scored) == Map(HitId, hits);
    forall h | h in hits ensures exists g :: g in SortHits(ScoreOf, scored) && SameEvidence(g, h) {
      var i :| 0 <= i < |hits| && hits[i] == h;
      assert scored[i] == f(h) && scored[i] in scored;
    }
    forall g | g in SortHits(ScoreOf, scored) ensures exists h :: h in hits && SameEvidence(h, g) {
      assert g in scored;
      var i :| 0 <= i < |scored| && scored[i] == g;
      assert hits[i] in hits;
    }
  }

  /** Reranking only rescores and reorders. */
  lemma RerankFacts(hits: seq<Hit>, intent: Intent, expandedTerms: seq<string>, query: string)
    ensures var r := Rerank(hits, intent, expandedTerms, query);
            |r| == |hits| && CoveredBy(hits, r) && CoveredBy(r, hits) && (DistinctIds(hits) ==> DistinctIds(r))
  {
    RescoreFacts(Reranker(intent, expandedTerms, query), hits);
  }

  /** Reranked chunks stand in the order of their new scores, ids breaking ties. */
  lemma RerankOrder(hits: seq<Hit>, intent: Intent, expandedTerms: seq<string>, query: string)
    ensures var r := Rerank(hits, intent, expandedTerms, query);
            forall i, j :: 0 <= i < j < |r| ==> BestFirst(ScoreOf, r[i], r[j])
  {
    SortedHits(ScoreOf, Map(Reranker(intent, expandedTerms, query), hits));
  }

  lemma OverlapBounds(tags: set<string>, listed: seq<string>)
    ensures 0.0 <= Overlap(tags, listed) <= |tags| as real
  {
    var common := tags * (set t | t in listed);
    var rest := tags - common;
    assert tags == common + rest && |tags| == |common| + |rest|;
  }

  /**
   * Reranking takes at most 0.09 from a fused score and adds at most 0.23 and 0.06 for each tag of the query, so
   * chunks whose fused scores differ by more keep their order.
   */
  lemma RerankBounds(h: Hit, intent: Intent, expandedTerms: seq<string>, query: string)
    requires h.lexical >= 0.0
    ensures -0.09 <= RerankHit(h, intent, expandedTerms, query).score - h.rrf <= 0.23 + 0.06 * |intent.tags| as real
  {
    OverlapBounds(intent.tags, h.chunk.domainTags);
    OverlapBounds(intent.tags, h.chunk.marketTags);
  }
}
