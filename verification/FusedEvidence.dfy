/** What fusion keeps of the two scores: each fused chunk has the exact score of every ranking that lists it. */
module FusedEvidence {
  import opened Seqs
  import opened Ranking
  import opened Fusion
  import opened Selection

  type Scoring = Chunk -> real

  /** A score that is not zero is the chunk's own, and the chunk is listed in the ranking. */
  ghost predicate FairHit(h: Hit, a: seq<Hit>, b: seq<Hit>, f: Scoring, g: Scoring) {
    && (h.lexical == 0.0 || (h.lexical == f(h.chunk) && HasId(a, HitId(h))))
    && (h.vector == 0.0 || (h.vector == g(h.chunk) && HasId(b, HitId(h))))
  }

  ghost predicate AllFair(hits: seq<Hit>, a: seq<Hit>, b: seq<Hit>, f: Scoring, g: Scoring) {
    forall h :: h in hits ==> FairHit(h, a, b, f, g)
  }

  ghost predicate Positive(f: Scoring) { forall c :: f(c) >= 0.0 }

  lemma FuseIntoFair(table: seq<Hit>, h: Hit, rank: nat, lexical: bool, a: seq<Hit>, b: seq<Hit>, f: Scoring,
                     g: Scoring, pool: seq<Chunk>)
    requires rank > 0 && DistinctChunkIds(pool)
    requires HitsFrom(table, pool) && h.chunk in pool && Positive(f) && Positive(g)
    requires AllFair(table, a, b, f, g) && FairHit(h, a, b, f, g)
    ensures AllFair(FuseInto(table, h, rank, lexical), a, b, f, g)
  {
    var k := Find(table, HitId(h));
    if k < |table| {
      assert table[k] in table;
      KeyDetermines(IdOf, pool, table[k].chunk, h.chunk);
    }
  }

  lemma {:induction false} FuseAllFair(table: seq<Hit>, hits: seq<Hit>, lexical: bool, a: seq<Hit>, b: seq<Hit>,
                                       f: Scoring, g: Scoring, pool: seq<Chunk>)
    requires DistinctChunkIds(pool) && HitsFrom(table, pool) && HitsFrom(hits, pool) && Positive(f) && Positive(g)
    requires AllFair(table, a, b, f, g) && AllFair(hits, a, b, f, g)
    ensures AllFair(FuseAll(table, hits, lexical), a, b, f, g)
  {
    if hits != [] {
      var init, last := hits[..|hits| - 1], hits[|hits| - 1];
      assert last in hits;
      FuseAllFair(table, init, lexical, a, b, f, g, pool);
      FuseAllFrom(table, init, lexical, pool);
      FuseIntoFair(FuseAll(table, init, lexical), last, |hits|, lexical, a, b, f, g, pool);
    }
  }

  lemma MergeFair(a: seq<Hit>, b: seq<Hit>, f: Scoring, g: Scoring, pool: seq<Chunk>)
    requires DistinctChunkIds(pool) && HitsFrom(a, pool) && HitsFrom(b, pool) && Positive(f) && Positive(g)
    requires AllFair(a, a, b, f, g) && AllFair(b, a, b, f, g)
    ensures AllFair(RrfMerge(a, b), a, b, f, g)
  {
    FuseAllFair([], a, true, a, b, f, g, pool);
    FuseAllFrom([], a, true, pool);
    FuseAllFair(FuseAll([], a, true), b, false, a, b, f, g, pool);
  }

  /** Every entry of a ranking keeps at least its own score in the fused table. */
  lemma {:induction false} FuseAllEach(table: seq<Hit>, hits: seq<Hit>, lexical: bool, i: nat)
    requires i < |hits| && NonNegative(table) && NonNegative(hits)
    ensures Holds(FuseAll(table, hits, lexical), HitId(hits[i]),
                  if lexical then hits[i].lexical else 0.0, if lexical then 0.0 else hits[i].vector)
  {
    var init, last := hits[..|hits| - 1], hits[|hits| - 1];
    var l, v := if lexical then hits[i].lexical else 0.0, if lexical then 0.0 else hits[i].vector;
    var before := FuseAll(table, init, lexical);
    if i < |hits| - 1 {
      FuseAllEach(table, init, lexical, i);
      FuseIntoHolds(before, last, |hits|, lexical, HitId(hits[i]), l, v);
    } else {
      FuseAllNonNegative(table, init, lexical);
      assert last in hits;
      AddedHolds(before, last, |hits|, lexical);
    }
  }

  lemma AddedHolds(table: seq<Hit>, h: Hit, rank: nat, lexical: bool)
    requires rank > 0 && NonNegative(table) && h.lexical >= 0.0 && h.vector >= 0.0
    ensures Holds(FuseInto(table, h, rank, lexical), HitId(h), if lexical then h.lexical else 0.0,
                  if lexical then 0.0 else h.vector)
  {
    var t, k := FuseInto(table, h, rank, lexical), Find(table, HitId(h));
    assert k < |table| ==> table[k] in table;
    assert t[k] in t;
  }

  lemma MergeKeepsEach(a: seq<Hit>, b: seq<Hit>, i: nat)
    requires NonNegative(a) && NonNegative(b)
    ensures i < |a| ==> Holds(RrfMerge(a, b), HitId(a[i]), a[i].lexical, 0.0)
    ensures i < |b| ==> Holds(RrfMerge(a, b), HitId(b[i]), 0.0, b[i].vector)
  {
    var first := FuseAll([], a, true);
    FuseAllNonNegative([], a, true);
    if i < |a| {
      FuseAllEach([], a, true, i);
      FuseAllHolds(first, b, false, HitId(a[i]), a[i].lexical, 0.0);
      HoldsSorted(FuseAll(first, b, false), HitId(a[i]), a[i].lexical, 0.0);
    }
    if i < |b| {
      FuseAllEach(first, b, false, i);
      HoldsSorted(FuseAll(first, b, false), HitId(b[i]), 0.0, b[i].vector);
    }
  }

  /** The hit with an id is the one that holds the scores. */
  lemma TheHolder(hits: seq<Hit>, h: Hit, l: real, v: real)
    requires DistinctIds(hits) && h in hits && Holds(hits, HitId(h), l, v)
    ensures h.lexical >= l && h.vector >= v
  {
    var g :| g in hits && HitId(g) == HitId(h) && g.lexical >= l && g.vector >= v;
    KeyDetermines(HitId, hits, g, h);
  }

  function LexicalPart(queryText: string): Scoring { (c: Chunk) => LexicalScore(c, queryText) as real }

  function VectorPart(queryEmbedding: seq<real>): Scoring {
    (c: Chunk) => if Cosine(queryEmbedding, c.embedding) > 0.0 then Cosine(queryEmbedding, c.embedding) else 0.0
  }

  lemma ScoreOfListed(a: seq<Hit>, b: seq<Hit>, f: Scoring, g: Scoring, pool: seq<Chunk>, h: Hit)
    requires DistinctChunkIds(pool) && HitsFrom(a, pool) && HitsFrom(b, pool) && NonNegative(a) && NonNegative(b)
    requires forall x :: x in a ==> x.lexical == f(x.chunk) > 0.0
    requires forall x :: x in b ==> x.vector == g(x.chunk) > 0.0
    requires h in RrfMerge(a, b) && h.chunk in pool
    requires DistinctIds(RrfMerge(a, b)) && AllFair(RrfMerge(a, b), a, b, f, g)
    ensures h.lexical == if HasId(a, HitId(h)) then f(h.chunk) else 0.0
    ensures h.vector == if HasId(b, HitId(h)) then g(h.chunk) else 0.0
    ensures HasId(b, HitId(h)) ==> g(h.chunk) > 0.0
  {
    if HasId(a, HitId(h)) {
      var x :| x in a && HitId(x) == HitId(h);
      var i :| 0 <= i < |a| && a[i] == x;
      KeyDetermines(IdOf, pool, x.chunk, h.chunk);
      MergeKeepsEach(a, b, i);
      TheHolder(RrfMerge(a, b), h, x.lexical, 0.0);
    }
    if HasId(b, HitId(h)) {
      var x :| x in b && HitId(x) == HitId(h);
      var i :| 0 <= i < |b| && b[i] == x;
      KeyDetermines(IdOf, pool, x.chunk, h.chunk);
      MergeKeepsEach(a, b, i);
      TheHolder(RrfMerge(a, b), h, 0.0, x.vector);
    }
  }

  /** Hits of a lexical ranking by f. */
  ghost predicate LexicalList(a: seq<Hit>, pool: seq<Chunk>, f: Scoring) {
    forall x :: x in a ==> x.chunk in pool && x.lexical == f(x.chunk) > 0.0 && x.vector == 0.0
  }

  ghost predicate VectorList(b: seq<Hit>, pool: seq<Chunk>, g: Scoring) {
    forall x :: x in b ==> x.chunk in pool && x.vector == g(x.chunk) > 0.0 && x.lexical == 0.0
  }

  /** Whatever the two scores are. */
  lemma ListsFused(a: seq<Hit>, b: seq<Hit>, f: Scoring, g: Scoring, pool: seq<Chunk>, h: Hit)
    requires DistinctChunkIds(pool) && LexicalList(a, pool, f) && VectorList(b, pool, g) && Positive(f) && Positive(g)
    requires h in RrfMerge(a, b)
    ensures h.lexical == if HasId(a, HitId(h)) then f(h.chunk) else 0.0
    ensures h.vector == if HasId(b, HitId(h)) then g(h.chunk) else 0.0
    ensures HasId(b, HitId(h)) ==> g(h.chunk) > 0.0
  {
    MergeFair(a, b, f, g, pool);
    FusedFrom(a, b, pool);
    RrfMergeFacts(a, b);
    ScoreOfListed(a, b, f, g, pool, h);
  }

  lemma CutLexical(pool: seq<Chunk>, queryText: string, m: int)
    ensures LexicalList(Head(RankLexical(pool, queryText), m), pool, LexicalPart(queryText))
  {
    RankByFacts(LexicalOf, LexicalScorer(queryText), pool);
    var r := RankLexical(pool, queryText);
    assert forall x :: x in Head(r, m) ==> x in r;
  }

  lemma CutVector(pool: seq<Chunk>, queryEmbedding: seq<real>, n: int)
    ensures VectorList(Head(RankVector(pool, queryEmbedding), n), pool, VectorPart(queryEmbedding))
  {
    RankByFacts(VectorOf, VectorScorer(queryEmbedding), pool);
    var r := RankVector(pool, queryEmbedding);
    assert forall x :: x in Head(r, n) ==> x in r;
  }

  lemma PartsPositive(queryText: string, queryEmbedding: seq<real>)
    ensures Positive(LexicalPart(queryText)) && Positive(VectorPart(queryEmbedding))
  {}

  /** A fused chunk has its lexical score if the cut lexical ranking lists it, else zero; its vector score likewise. */
  lemma FusedScores(pool: seq<Chunk>, queryText: string, queryEmbedding: seq<real>, m: int, n: int, h: Hit)
    requires DistinctChunkIds(pool)
    requires h in RrfMerge(Head(RankLexical(pool, queryText), m), Head(RankVector(pool, queryEmbedding), n))
    ensures var a, b := Head(RankLexical(pool, queryText), m), Head(RankVector(pool, queryEmbedding), n);
            && h.lexical == (if HasId(a, HitId(h)) then LexicalScore(h.chunk, queryText) as real else 0.0)
            && h.vector == if HasId(b, HitId(h)) then Cosine(queryEmbedding, h.chunk.embedding) else 0.0
  {
    CutLexical(pool, queryText, m);
    CutVector(pool, queryEmbedding, n);
    PartsPositive(queryText, queryEmbedding);
    ListsFused(Head(RankLexical(pool, queryText), m), Head(RankVector(pool, queryEmbedding), n),
               LexicalPart(queryText), VectorPart(queryEmbedding), pool, h);
  }
}
