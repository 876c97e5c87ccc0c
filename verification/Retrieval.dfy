/** The retrieval pipeline of search_knowledge, from the index's chunks and the query embedding to the result. */
module Retrieval {
  import opened Seqs
  import opened Sorting
  import opened Text
  import opened QuerySignals
  import opened CacheKeys
  import opened Ranking
  import opened Fusion
  import opened Selection

  // The pool: active chunks of the stage, prefiltered for the intent

  predicate Active(c: Chunk) { c.status in {"active", "approved", "auto_approved"} }

  /** An absent stage is the empty one; a chunk without stages serves every stage. */
  predicate InStage(c: Chunk, stage: string) { stage == "" || stage in c.stages || c.stages == [] }

  function Members(values: seq<string>): set<string> { set v | v in values }

  function MarketTags(intent: Intent): set<string> { intent.tags * {"crypto", "forex"} }

  function PlatformTags(intent: Intent): set<string> {
    (if "pine" in intent.tags then {"pine_v6"} else {}) + (intent.tags * {"mql5"})
  }

  /** No demand, no tags, a general tag or a common tag. */
  predicate Compatible(demanded: set<string>, offered: set<string>) {
    demanded == {} || offered == {} || "general" in offered || demanded * offered != {}
  }

  predicate Relevant(c: Chunk, intent: Intent) {
    && Compatible(MarketTags(intent), Members(c.marketTags))
    && Compatible(PlatformTags(intent), Members(c.platformTags))
  }

  /** The first component of _prefilter_priority. */
  function PriorityScore(c: Chunk, intent: Intent): int {
    (if MarketTags(intent) * Members(c.marketTags) != {} then 8 else if "general" in c.marketTags then 2 else 0)
    + (if PlatformTags(intent) * Members(c.platformTags) != {} then 4 else if "general" in c.platformTags then 1 else 0)
    + (if c.sourceType in {"internal_curated", "approved_candidate", "approved_source_summary"} then 3 else 0)
    - (if c.kind == "metadata_only" then 4 else 0)
  }

  /** Descending in (score, -chunk_index, chunk_id). */
  predicate HigherPriority(intent: Intent, a: Chunk, b: Chunk) {
    var p, q := PriorityScore(a, intent), PriorityScore(b, intent);
    p > q || (p == q && (a.chunkIndex < b.chunkIndex
                         || (a.chunkIndex == b.chunkIndex && StringLe(b.chunkId, a.chunkId))))
  }

  function PriorityOrder(intent: Intent): (Chunk, Chunk) -> bool { (a, b) => HigherPriority(intent, a, b) }

  /** Active, of the stage and relevant for the intent. */
  predicate Fits(c: Chunk, intent: Intent, stage: string) { Active(c) && InStage(c, stage) && Relevant(c, intent) }

  function Fitting(chunks: seq<Chunk>, intent: Intent, stage: string): (r: seq<Chunk>)
    ensures forall c :: c in r <==> c in chunks && Fits(c, intent, stage)
  {
    Filter((c: Chunk) => Relevant(c, intent), Filter((c: Chunk) => InStage(c, stage), Filter(Active, chunks)))
  }

  /** The cut of _prefilter_chunks. */
  function Prefilter(filtered: seq<Chunk>, intent: Intent, limit: int): seq<Chunk> {
    if |filtered| > limit then Head(Sort(PriorityOrder(intent), filtered), limit) else filtered
  }

  /** The filters of search_knowledge and of _prefilter_chunks, then the cut. */
  function Pool(chunks: seq<Chunk>, intent: Intent, stage: string, options: RetrievalOptions): seq<Chunk> {
    Prefilter(Fitting(chunks, intent, stage), intent, options.prefilterLimit)
  }

  lemma HeadKeys(chunks: seq<Chunk>, limit: int)
    requires DistinctChunkIds(chunks)
    ensures DistinctChunkIds(Head(chunks, limit))
    ensures forall c :: c in Head(chunks, limit) ==> c in chunks
  {
    assert Map(IdOf, Head(chunks, limit)) <= Map(IdOf, chunks);
  }

  lemma FittingDistinct(chunks: seq<Chunk>, intent: Intent, stage: string)
    requires DistinctChunkIds(chunks)
    ensures DistinctChunkIds(Fitting(chunks, intent, stage))
  {
    var staged := Filter((c: Chunk) => InStage(c, stage), Filter(Active, chunks));
    FilterKeepsKeys(IdOf, Active, chunks);
    FilterKeepsKeys(IdOf, (c: Chunk) => InStage(c, stage), Filter(Active, chunks));
    FilterKeepsKeys(IdOf, (c: Chunk) => Relevant(c, intent), staged);
  }

  /** The pool holds fitting chunks of the index, each id once. */
  lemma PoolFacts(chunks: seq<Chunk>, intent: Intent, stage: string, options: RetrievalOptions)
    requires DistinctChunkIds(chunks)
    ensures var pool := Pool(chunks, intent, stage, options);
            DistinctChunkIds(pool) && forall c :: c in pool ==> c in chunks && Fits(c, intent, stage)
  {
    var fitting := Fitting(chunks, intent, stage);
    FittingDistinct(chunks, intent, stage);
    SortDistinct(PriorityOrder(intent), IdOf, fitting);
    HeadKeys(Sort(PriorityOrder(intent), fitting), options.prefilterLimit);
  }

  lemma PriorityTotal(intent: Intent)
    ensures TotalPreorder(PriorityOrder(intent))
  {
    StringLeOrder();
    forall a: Chunk, b: Chunk, c: Chunk | HigherPriority(intent, a, b) && HigherPriority(intent, b, c)
      ensures HigherPriority(intent, a, c)
    {
      PriorityTransitive(intent, a, b, c);
    }
  }

  lemma PriorityTransitive(intent: Intent, a: Chunk, b: Chunk, c: Chunk)
    requires HigherPriority(intent, a, b) && HigherPriority(intent, b, c)
    ensures HigherPriority(intent, a, c)
  {
    StringLeOrder();
  }

  /**
   * Which fitting chunks the pool keeps: all of them up to the prefilter limit; beyond it the limit's number, none of
   * them of lower priority than one left out.
   */
  lemma PoolKeeps(chunks: seq<Chunk>, intent: Intent, stage: string, options: RetrievalOptions)
    ensures var fitting, pool := Fitting(chunks, intent, stage), Pool(chunks, intent, stage, options);
            && (|fitting| <= options.prefilterLimit ==> pool == fitting)
            && (0 <= options.prefilterLimit < |fitting| ==> |pool| == options.prefilterLimit)
            && (forall c, d :: c in pool && d in fitting && d !in pool ==> HigherPriority(intent, c, d))
  {
    var fitting, pool := Fitting(chunks, intent, stage), Pool(chunks, intent, stage, options);
    if |fitting| > options.prefilterLimit {
      PriorityTotal(intent);
      SortSorted(PriorityOrder(intent), fitting);
      forall c, d | c in pool && d in fitting && d !in pool ensures HigherPriority(intent, c, d) {
        CutBySort(PriorityOrder(intent), fitting, options.prefilterLimit, c, d);
      }
    }
  }

  lemma FittingFew(chunks: seq<Chunk>, intent: Intent, stage: string)
    ensures |Fitting(chunks, intent, stage)| <= |chunks|
  {}

  lemma ShownId(hits: seq<Hit>, maxChars: int, id: string)
    requires HasId(hits, id)
    ensures exists r :: r in ShowAll(hits, maxChars) && r.chunkId == id
  {
    var h :| h in hits && HitId(h) == id;
    var i :| 0 <= i < |hits| && hits[i] == h;
    assert ShowAll(hits, maxChars)[i] in ShowAll(hits, maxChars);
  }

  lemma CutBySort(le: (Chunk, Chunk) -> bool, chunks: seq<Chunk>, limit: int, c: Chunk, d: Chunk)
    requires SortedBy(le, Sort(le, chunks))
    requires c in Head(Sort(le, chunks), limit) && d in chunks && d !in Head(Sort(le, chunks), limit)
    ensures le(c, d)
  {
    var sorted, head := Sort(le, chunks), Head(Sort(le, chunks), limit);
    var i :| 0 <= i < |head| && head[i] == c;
    var j :| 0 <= j < |sorted| && sorted[j] == d;
    assert forall k :: 0 <= k < |head| ==> head[k] == sorted[k] && head[k] in head;
  }

  // The pipeline

  /** What search_knowledge reports of one chunk; fields copied unchanged from the chunk are left to the chunk. */
  datatype Retrieved = Retrieved(
    chunkId: string, itemId: string, sourceId: string, sourceType: string, text: string, truncated: bool,
    score: real, lexicalScore: real, vectorScore: real, features: Features, approvedInclusion: bool)

  /** _retrieved_chunk */
  function Show(h: Hit, maxChars: int): Retrieved {
    Retrieved(h.chunk.chunkId, h.chunk.itemId, h.chunk.sourceId, h.chunk.sourceType,
              RightStrip(Head(h.chunk.text, maxChars)), |h.chunk.text| > maxChars,
              h.score, h.lexical, h.vector, h.features, h.approvedInclusion)
  }

  function ShowAll(hits: seq<Hit>, maxChars: int): seq<Retrieved> {
    Map((h: Hit) => Show(h, maxChars), hits)
  }

  function RerankedHits(pool: seq<Chunk>, query: string, options: RetrievalOptions,
                        queryEmbedding: seq<real>): seq<Hit> {
    var lexical := Head(RankLexical(pool, QueryText(query)), options.lexicalLimit);
    var vector := Head(RankVector(pool, queryEmbedding), options.vectorLimit);
    Rerank(RrfMerge(lexical, vector), ClassifyPrompt(query), ExpandQueryTerms(query), query)
  }

  function RetrieveHits(chunks: seq<Chunk>, query: string, stage: string, options: RetrievalOptions,
                        queryEmbedding: seq<real>): seq<Hit>
  {
    var intent := ClassifyPrompt(query);
    var pool := Pool(chunks, intent, stage, options);
    Select(RerankedHits(pool, query, options, queryEmbedding), pool, RequiredSourceIds(query, intent),
           options.limit, QueryText(query), queryEmbedding)
  }

  datatype SearchResult = SearchResult(intent: Intent, expandedTerms: seq<string>, retrieved: seq<Retrieved>)

  /** The computed part of the result; it does not look at any cache. */
  function Retrieve(chunks: seq<Chunk>, query: string, stage: string, options: RetrievalOptions,
                    queryEmbedding: seq<real>): SearchResult
  {
    SearchResult(ClassifyPrompt(query), ExpandQueryTerms(query),
                 ShowAll(RetrieveHits(chunks, query, stage, options, queryEmbedding), options.maxCharsPerChunk))
  }

  // The result depends on the signals that are read from the query

  /** What ranking reads from a query text. */
  predicate SameWords(t1: string, t2: string) {
    Tokens(t1) == Tokens(t2) && ImportantPhrases(t1) == ImportantPhrases(t2) && (t1 == "" <==> t2 == "")
  }

  /** All that the pipeline reads from a query, the required sources aside. */
  predicate SameButSources(q1: string, q2: string) {
    && ClassifyPrompt(q1) == ClassifyPrompt(q2) && ExpandQueryTerms(q1) == ExpandQueryTerms(q2)
    && SameWords(QueryText(q1), QueryText(q2)) && AsksForSources(q1) == AsksForSources(q2)
  }

  function SourcesOf(query: string): seq<string> { RequiredSourceIds(query, ClassifyPrompt(query)) }

  predicate SameSignals(q1: string, q2: string) { SameButSources(q1, q2) && SourcesOf(q1) == SourcesOf(q2) }

  lemma LexicalBySignals(pool: seq<Chunk>, t1: string, t2: string)
    requires SameWords(t1, t2)
    ensures RankLexical(pool, t1) == RankLexical(pool, t2)
  {
    forall c: Chunk ensures LexicalHit(c, t1) == LexicalHit(c, t2) {
      assert LexicalScore(c, t1) == LexicalScore(c, t2);
    }
    SameScorer(LexicalScorer(t1), LexicalScorer(t2), pool);
  }

  lemma {:induction false} SameScorer(f: Chunk -> Option<Hit>, g: Chunk -> Option<Hit>, chunks: seq<Chunk>)
    requires forall c :: f(c) == g(c)
    ensures Collect(f, chunks) == Collect(g, chunks)
  {
    if chunks != [] {
      SameScorer(f, g, chunks[1..]);
    }
  }

  lemma RerankBySignals(hits: seq<Hit>, intent: Intent, terms: seq<string>, q1: string, q2: string)
    requires AsksForSources(q1) == AsksForSources(q2)
    ensures Rerank(hits, intent, terms, q1) == Rerank(hits, intent, terms, q2)
  {
    var f, g := Reranker(intent, terms, q1), Reranker(intent, terms, q2);
    forall h: Hit ensures f(h) == g(h) {
      assert RerankFeatures(h, intent, terms, q1) == RerankFeatures(h, intent, terms, q2);
    }
    assert Map(f, hits) == Map(g, hits);
  }

  lemma FallbackBySignals(pool: seq<Chunk>, selected: seq<Hit>, t1: string, t2: string, queryEmbedding: seq<real>)
    requires SameWords(t1, t2)
    ensures FallbackHits(pool, selected, t1, queryEmbedding) == FallbackHits(pool, selected, t2, queryEmbedding)
  {
    LexicalBySignals(ApprovedPool(pool, selected), t1, t2);
  }

  lemma ApprovedBySignals(hits: seq<Hit>, limit: int, pool: seq<Chunk>, t1: string, t2: string,
                          queryEmbedding: seq<real>)
    requires SameWords(t1, t2)
    ensures EnsureApproved(hits, limit, pool, t1, queryEmbedding)
            == EnsureApproved(hits, limit, pool, t2, queryEmbedding)
  {
    if limit > 0 {
      FallbackBySignals(pool, Head(hits, limit), t1, t2, queryEmbedding);
      assert Candidates(hits, limit, pool, t1, queryEmbedding) == Candidates(hits, limit, pool, t2, queryEmbedding);
    }
  }

  lemma RerankedBySignals(pool: seq<Chunk>, q1: string, q2: string, options: RetrievalOptions,
                          queryEmbedding: seq<real>)
    requires SameButSources(q1, q2)
    ensures RerankedHits(pool, q1, options, queryEmbedding) == RerankedHits(pool, q2, options, queryEmbedding)
  {
    LexicalBySignals(pool, QueryText(q1), QueryText(q2));
    var merged := RrfMerge(Head(RankLexical(pool, QueryText(q1)), options.lexicalLimit),
                           Head(RankVector(pool, queryEmbedding), options.vectorLimit));
    RerankBySignals(merged, ClassifyPrompt(q1), ExpandQueryTerms(q1), q1, q2);
  }

  /** Queries with the same signals are answered alike, given the same query embedding. */
  lemma RetrieveBySignals(chunks: seq<Chunk>, q1: string, q2: string, stage: string, options: RetrievalOptions,
                          queryEmbedding: seq<real>)
    requires SameSignals(q1, q2)
    ensures Retrieve(chunks, q1, stage, options, queryEmbedding) == Retrieve(chunks, q2, stage, options, queryEmbedding)
  {
    var pool := Pool(chunks, ClassifyPrompt(q1), stage, options);
    RerankedBySignals(pool, q1, q2, options, queryEmbedding);
    var forced := ForceAll(RerankedHits(pool, q1, options, queryEmbedding), pool, SourcesOf(q1));
    ApprovedBySignals(forced, options.limit, pool, QueryText(q1), QueryText(q2), queryEmbedding);
    assert RetrieveHits(chunks, q1, stage, options, queryEmbedding)
           == RetrieveHits(chunks, q2, stage, options, queryEmbedding);
  }

  /** Queries that differ only in letter case have the same signals. */
  lemma CaseKeepsSignals(q1: string, q2: string)
    requires Lower(q1) == Lower(q2)
    ensures SameSignals(q1, q2)
  {
    SignalsIgnoreCase(q1, q2);
    TokensIgnoreCase(QueryText(q1), QueryText(q2));
  }

  // The result shows which required sources were forced into it

  /** The sources of the forced chunks at the front, as far as position n. */
  function ShownSources(r: seq<Retrieved>, n: int): seq<string> {
    if n <= 0 || r == [] || r[0].features != RequiredSource then [] else [r[0].sourceId] + ShownSources(r[1..], n - 1)
  }

  /** The j-th chunk is the forced one of the j-th source. */
  predicate ForcedAt(r: seq<Retrieved>, sources: seq<string>, j: nat)
    requires j < |sources|
  {
    j < |r| && r[j].features == RequiredSource && r[j].sourceId == sources[j]
  }

  predicate UnforcedAt(r: seq<Retrieved>, j: nat) { j < |r| ==> r[j].features != RequiredSource }

  lemma {:induction false} ShownFront(r: seq<Retrieved>, sources: seq<string>, n: nat)
    requires forall j :: 0 <= j < |sources| && j < n ==> ForcedAt(r, sources, j)
    requires |sources| < n ==> UnforcedAt(r, |sources|)
    ensures ShownSources(r, n) == Head(sources, n)
  {
    if n > 0 && sources != [] {
      assert ForcedAt(r, sources, 0);
      var rest, more := r[1..], sources[1..];
      forall j | 0 <= j < |more| && j < n - 1 ensures ForcedAt(rest, more, j) {
        assert ForcedAt(r, sources, j + 1);
      }
      assert UnforcedAt(r, |sources|) ==> UnforcedAt(rest, |more|);
      ShownFront(rest, more, n - 1);
      HeadCons(sources, n);
    } else if n > 0 {
      assert UnforcedAt(r, 0);
    }
  }

  lemma HeadCons<T>(xs: seq<T>, n: nat)
    requires n > 0 && xs != []
    ensures Head(xs, n) == [xs[0]] + Head(xs[1..], n - 1)
  {}

  /** Behind the forced front no chunk looks forced. */
  lemma TailUnforced(reranked: seq<Hit>, front: seq<Hit>, tail: seq<Hit>)
    requires Fronted(HitId, reranked, front, tail) && forall h :: h in reranked ==> h.features != RequiredSource
    ensures forall h :: h in tail ==> h.features != RequiredSource
  {}

  lemma RerankedUnforced(pool: seq<Chunk>, query: string, options: RetrievalOptions, queryEmbedding: seq<real>)
    ensures forall h :: h in RerankedHits(pool, query, options, queryEmbedding) ==> h.features != RequiredSource
  {
    var merged := RrfMerge(Head(RankLexical(pool, QueryText(query)), options.lexicalLimit),
                           Head(RankVector(pool, queryEmbedding), options.vectorLimit));
    RerankUnforced(merged, ClassifyPrompt(query), ExpandQueryTerms(query), query);
  }

  lemma RerankUnforced(hits: seq<Hit>, intent: Intent, terms: seq<string>, query: string)
    ensures forall h :: h in Rerank(hits, intent, terms, query) ==> h.features != RequiredSource
  {
    var scored := Map(Reranker(intent, terms, query), hits);
    forall h | h in scored ensures h.features != RequiredSource {
      var i :| 0 <= i < |scored| && scored[i] == h;
    }
  }

  /**
   * In the result, up to the last place, the forced sources stand exactly as they are available, and then nothing
   * forced.
   */
  lemma SelectionShows(reranked: seq<Hit>, pool: seq<Chunk>, sources: seq<string>, options: RetrievalOptions,
                       queryText: string, queryEmbedding: seq<real>)
    requires DistinctIds(reranked) && HitsFrom(reranked, pool) && DistinctChunkIds(pool) && Distinct(sources)
    requires forall h :: h in reranked ==> h.features != RequiredSource
    requires options.limit > 0
    ensures var r := ShowAll(Select(reranked, pool, sources, options.limit, queryText, queryEmbedding),
                             options.maxCharsPerChunk);
            ShownSources(r, options.limit - 1) == Head(AvailableOf(pool, sources), options.limit - 1)
  {
    var limit, available := options.limit, AvailableOf(pool, sources);
    var front, tail := ForceAllFacts(reranked, pool, sources);
    ForcedIds(reranked, pool, available, front, tail);
    TailUnforced(reranked, front, tail);
    var added := EnsureApprovedFacts(front + tail, limit, pool, queryText, queryEmbedding);
    var hits := Select(reranked, pool, sources, limit, queryText, queryEmbedding);
    if added.Some? && |front + tail| < limit {
      AddedUnforced(front + tail, limit, pool, queryText, queryEmbedding, added.value);
    }
    VisibleFront(hits, front, tail, limit, added);
    ShownHits(hits, front, available, limit - 1, options.maxCharsPerChunk);
  }

  lemma ShownHits(hits: seq<Hit>, front: seq<Hit>, sources: seq<string>, n: nat, maxChars: int)
    requires |front| == |sources|
    requires forall j :: 0 <= j < |front| ==>
               front[j].features == RequiredSource && front[j].chunk.sourceId == sources[j]
    requires forall j :: 0 <= j < |front| && j < n ==> j < |hits| && hits[j] == front[j]
    requires |front| < n && |front| < |hits| ==> hits[|front|].features != RequiredSource
    ensures ShownSources(ShowAll(hits, maxChars), n) == Head(sources, n)
  {
    var r := ShowAll(hits, maxChars);
    forall j | 0 <= j < |sources| && j < n ensures ForcedAt(r, sources, j) {
      assert front[j].chunk.sourceId == sources[j] && hits[j] == front[j];
    }
    ShownFront(r, sources, n);
  }

  /** Before the last place the result is the forced front and the rest behind it. */
  lemma VisibleFront(hits: seq<Hit>, front: seq<Hit>, tail: seq<Hit>, limit: int, added: Option<Hit>)
    requires limit > 0
    requires hits == if added.None? then Head(front + tail, limit)
                     else PlaceLast(Head(front + tail, limit), limit, Include(added.value))
    requires forall h :: h in tail ==> h.features != RequiredSource
    requires added.Some? && |front + tail| < limit ==> added.value.features != RequiredSource
    ensures forall j :: 0 <= j < |front| && j < limit - 1 ==> j < |hits| && hits[j] == front[j]
    ensures |front| < limit - 1 && |front| < |hits| ==> hits[|front|].features != RequiredSource
  {
    var all := front + tail;
    assert forall j :: 0 <= j < |all| && j < limit - 1 ==> j < |hits| && hits[j] == all[j];
    if |front| < limit - 1 && |front| < |hits| && |front| < |all| {
      assert all[|front|] == tail[0] && tail[0] in tail;
    }
  }

  /** A chunk appended behind all the hits comes from the pool, where nothing is forced. */
  lemma AddedUnforced(hits: seq<Hit>, limit: nat, pool: seq<Chunk>, queryText: string, queryEmbedding: seq<real>,
                      added: Hit)
    requires |hits| < limit && added in Candidates(hits, limit, pool, queryText, queryEmbedding)
    ensures added.features != RequiredSource
  {
    FallbackUnforced(pool, Head(hits, limit), queryText, queryEmbedding);
  }

  lemma FallbackUnforced(pool: seq<Chunk>, selected: seq<Hit>, queryText: string, queryEmbedding: seq<real>)
    ensures forall h :: h in FallbackHits(pool, selected, queryText, queryEmbedding) ==> h.features == NoFeatures
  {
    var approved := ApprovedPool(pool, selected);
    var a, b := Head(RankLexical(approved, queryText), 5), Head(RankVector(approved, queryEmbedding), 5);
    RankedPlain(LexicalOf, LexicalScorer(queryText), approved);
    RankedPlain(VectorOf, VectorScorer(queryEmbedding), approved);
    FusedPlain(a, b);
    var strong := Filter(Strong, RrfMerge(a, b));
    forall h | h in Map(RescoreFallback, strong) ensures h.features == NoFeatures {
      var i :| 0 <= i < |strong| && RescoreFallback(strong[i]) == h;
      assert strong[i] in strong;
    }
  }

  ghost predicate Plain(hits: seq<Hit>) { forall h :: h in hits ==> h.features == NoFeatures }

  lemma RankedPlain(key: Hit -> real, scorer: Chunk -> Option<Hit>, chunks: seq<Chunk>)
    requires FairScorer(scorer) && forall c :: scorer(c).Some? ==> scorer(c).value.features == NoFeatures
    ensures Plain(Head(RankBy(key, scorer, chunks), 5))
  {
    RankByFacts(key, scorer, chunks);
    var r := RankBy(key, scorer, chunks);
    assert forall h :: h in Head(r, 5) ==> h in r;
  }

  lemma {:induction false} FuseAllPlain(table: seq<Hit>, hits: seq<Hit>, lexical: bool)
    requires Plain(table) && Plain(hits)
    ensures Plain(FuseAll(table, hits, lexical))
  {
    if hits != [] {
      var init, last := hits[..|hits| - 1], hits[|hits| - 1];
      assert last in hits && forall h :: h in init ==> h in hits;
      FuseAllPlain(table, init, lexical);
      var t := FuseAll(table, init, lexical);
      assert Find(t, HitId(last)) < |t| ==> t[Find(t, HitId(last))] in t;
    }
  }

  lemma FusedPlain(a: seq<Hit>, b: seq<Hit>)
    requires Plain(a) && Plain(b)
    ensures Plain(RrfMerge(a, b))
  {
    FuseAllPlain([], a, true);
    FuseAllPlain(FuseAll([], a, true), b, false);
  }

  /**
   * Of the whole pipeline: the result shows, up to the last place, which required sources were available and in
   * which order, so answers with different ones among the first limit - 1 are different.
   */
  lemma AnswerShowsSources(chunks: seq<Chunk>, query: string, stage: string, options: RetrievalOptions,
                           queryEmbedding: seq<real>)
    requires DistinctChunkIds(chunks) && options.limit > 0
    ensures var pool := Pool(chunks, ClassifyPrompt(query), stage, options);
            ShownSources(Retrieve(chunks, query, stage, options, queryEmbedding).retrieved, options.limit - 1)
            == Head(AvailableOf(pool, SourcesOf(query)), options.limit - 1)
  {
    var pool := Pool(chunks, ClassifyPrompt(query), stage, options);
    PoolFacts(chunks, ClassifyPrompt(query), stage, options);
    RerankedFacts(pool, query, options, queryEmbedding);
    RerankedUnforced(pool, query, options, queryEmbedding);
    RequiredSourcesDistinct(query, ClassifyPrompt(query));
    SelectionShows(RerankedHits(pool, query, options, queryEmbedding), pool, SourcesOf(query), options,
                   QueryText(query), queryEmbedding);
  }

  // What the two forcing passes guarantee for the whole pipeline

  lemma RerankedFacts(pool: seq<Chunk>, query: string, options: RetrievalOptions, queryEmbedding: seq<real>)
    requires DistinctChunkIds(pool)
    ensures DistinctIds(RerankedHits(pool, query, options, queryEmbedding))
    ensures HitsFrom(RerankedHits(pool, query, options, queryEmbedding), pool)
  {
    var lexical := Head(RankLexical(pool, QueryText(query)), options.lexicalLimit);
    var vector := Head(RankVector(pool, queryEmbedding), options.vectorLimit);
    ScorersFair(QueryText(query), queryEmbedding);
    RankedCut(LexicalOf, LexicalScorer(QueryText(query)), pool, options.lexicalLimit);
    RankedCut(VectorOf, VectorScorer(queryEmbedding), pool, options.vectorLimit);
    FusedFrom(lexical, vector, pool);
    RrfMergeFacts(lexical, vector);
    RerankedFrom(RrfMerge(lexical, vector), pool, ClassifyPrompt(query), ExpandQueryTerms(query), query);
  }

  lemma RankedCut(key: Hit -> real, scorer: Chunk -> Option<Hit>, pool: seq<Chunk>, limit: int)
    requires FairScorer(scorer)
    ensures HitsFrom(Head(RankBy(key, scorer, pool), limit), pool)
  {
    RankByFacts(key, scorer, pool);
    var all := RankBy(key, scorer, pool);
    assert forall h :: h in Head(all, limit) ==> h in all;
  }

  lemma RerankedFrom(hits: seq<Hit>, pool: seq<Chunk>, intent: Intent, terms: seq<string>, query: string)
    requires DistinctIds(hits) && HitsFrom(hits, pool)
    ensures DistinctIds(Rerank(hits, intent, terms, query)) && HitsFrom(Rerank(hits, intent, terms, query), pool)
  {
    RerankFacts(hits, intent, terms, query);
  }

  /**
   * Of the whole pipeline: if fewer required sources have a chunk in the pool than the limit, the result
   * starts with one chunk of each of them in the required order, repeats no chunk and respects the limit.
   */
  lemma RequiredSourcesRetrieved(chunks: seq<Chunk>, query: string, stage: string, options: RetrievalOptions,
                                 queryEmbedding: seq<real>)
    requires DistinctChunkIds(chunks) && options.limit > 0
    requires var intent := ClassifyPrompt(query);
             |AvailableOf(Pool(chunks, intent, stage, options), RequiredSourceIds(query, intent))| < options.limit
    ensures var intent := ClassifyPrompt(query);
            var sources := AvailableOf(Pool(chunks, intent, stage, options), RequiredSourceIds(query, intent));
            var r := Retrieve(chunks, query, stage, options, queryEmbedding).retrieved;
            && |sources| <= |r| <= options.limit
            && (forall j :: 0 <= j < |sources| ==> r[j].sourceId == sources[j])
            && (forall i, j :: 0 <= i < j < |r| ==> r[i].chunkId != r[j].chunkId)
  {
    var intent := ClassifyPrompt(query);
    var pool := Pool(chunks, intent, stage, options);
    PoolFacts(chunks, intent, stage, options);
    RerankedFacts(pool, query, options, queryEmbedding);
    RequiredSourcesDistinct(query, intent);
    RequiredSourcesSurvive(RerankedHits(pool, query, options, queryEmbedding), pool, RequiredSourceIds(query, intent),
                           options.limit, QueryText(query), queryEmbedding);
    ShownDistinct(RetrieveHits(chunks, query, stage, options, queryEmbedding), options.maxCharsPerChunk);
  }

  lemma ShownDistinct(hits: seq<Hit>, maxChars: int)
    requires DistinctIds(hits)
    ensures var r := ShowAll(hits, maxChars); forall i, j :: 0 <= i < j < |r| ==> r[i].chunkId != r[j].chunkId
  {
    var ids := Map(HitId, hits);
    assert forall i :: 0 <= i < |hits| ==> ids[i] == ShowAll(hits, maxChars)[i].chunkId;
  }

  /**
   * Of the whole pipeline: whenever the pool holds an approved candidate that matches the query strongly, an
   * approved candidate is retrieved.
   */
  lemma ApprovedCandidateRetrieved(chunks: seq<Chunk>, query: string, stage: string, options: RetrievalOptions,
                                   queryEmbedding: seq<real>, c: Chunk)
    requires DistinctChunkIds(chunks) && options.limit > 0 && query != ""
    requires c in Pool(chunks, ClassifyPrompt(query), stage, options) && Approved(c)
    requires StrongMatch(c, QueryText(query), queryEmbedding)
    ensures exists r :: r in Retrieve(chunks, query, stage, options, queryEmbedding).retrieved
                        && r.sourceType == "approved_candidate"
  {
    var intent := ClassifyPrompt(query);
    var pool, sources := Pool(chunks, intent, stage, options), RequiredSourceIds(query, intent);
    PoolFacts(chunks, intent, stage, options);
    RerankedFacts(pool, query, options, queryEmbedding);
    RequiredSourcesDistinct(query, intent);
    var reranked := RerankedHits(pool, query, options, queryEmbedding);
    var front, tail := ForceAllFacts(reranked, pool, sources);
    ForcedIds(reranked, pool, AvailableOf(pool, sources), front, tail);
    QueryTextNonEmpty(query);
    ApprovedInclusion(front + tail, options.limit, pool, QueryText(query), queryEmbedding, c);
    ApprovedShown(RetrieveHits(chunks, query, stage, options, queryEmbedding), options.maxCharsPerChunk);
  }

  lemma QueryTextNonEmpty(query: string)
    requires query != ""
    ensures QueryText(query) != ""
  {}

  lemma ApprovedShown(hits: seq<Hit>, maxChars: int)
    requires exists h :: h in hits && ApprovedHit(h)
    ensures exists r :: r in ShowAll(hits, maxChars) && r.sourceType == "approved_candidate"
  {
    var h :| h in hits && ApprovedHit(h);
    var i :| 0 <= i < |hits| && hits[i] == h;
    assert ShowAll(hits, maxChars)[i] in ShowAll(hits, maxChars);
  }
}
