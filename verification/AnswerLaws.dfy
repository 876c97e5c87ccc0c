/** What the filters, cuts and forcing passes of a search mean for single chunks, and what an answer shows of them. */
module AnswerLaws {
  import opened Seqs
  import opened Sorting
  import opened Text
  import opened QuerySignals
  import opened CacheKeys
  import opened Ranking
  import opened Fusion
  import opened Selection
  import opened Retrieval
  import opened FusedEvidence

  // The filters

  /** The query is about one of the two markets, and the chunk only about others. */
  predicate OtherMarket(c: Chunk, intent: Intent) {
    && c.marketTags != [] && "general" !in c.marketTags
    && ("crypto" in intent.tags || "forex" in intent.tags)
    && ("crypto" in intent.tags ==> "crypto" !in c.marketTags) && ("forex" in intent.tags ==> "forex" !in c.marketTags)
  }

  predicate OtherPlatform(c: Chunk, intent: Intent) {
    && c.platformTags != [] && "general" !in c.platformTags
    && ("pine" in intent.tags || "mql5" in intent.tags)
    && ("pine" in intent.tags ==> "pine_v6" !in c.platformTags) && ("mql5" in intent.tags ==> "mql5" !in c.platformTags)
  }

  /** Why a chunk of the index is not searched. */
  lemma LeftOutIff(chunks: seq<Chunk>, intent: Intent, stage: string, c: Chunk)
    requires c in chunks
    ensures c !in Fitting(chunks, intent, stage)
            <==> || (c.status != "active" && c.status != "approved" && c.status != "auto_approved")
                 || (stage != "" && c.stages != [] && stage !in c.stages)
                 || OtherMarket(c, intent) || OtherPlatform(c, intent)
  {
    MarketClash(c, intent);
    PlatformClash(c, intent);
  }

  lemma NoneDemanded(demanded: set<string>, tags: seq<string>)
    ensures demanded * Members(tags) == {} <==> forall t :: t in demanded ==> t !in tags
  {
    if demanded * Members(tags) == {} {
      forall t | t in demanded ensures t !in tags {
        assert t in Members(tags) ==> t in demanded * Members(tags);
      }
    }
  }

  lemma MarketClash(c: Chunk, intent: Intent)
    ensures !Compatible(MarketTags(intent), Members(c.marketTags)) <==> OtherMarket(c, intent)
  {
    var demanded, offered := MarketTags(intent), Members(c.marketTags);
    assert demanded == {} <==> "crypto" !in intent.tags && "forex" !in intent.tags by {
      assert "crypto" in intent.tags ==> "crypto" in demanded;
      assert "forex" in intent.tags ==> "forex" in demanded;
    }
    assert c.marketTags != [] ==> c.marketTags[0] in offered;
    NoneDemanded(demanded, c.marketTags);
    assert forall t :: t in demanded <==> t in intent.tags && (t == "crypto" || t == "forex");
  }

  lemma PlatformClash(c: Chunk, intent: Intent)
    ensures !Compatible(PlatformTags(intent), Members(c.platformTags)) <==> OtherPlatform(c, intent)
  {
    var demanded, offered := PlatformTags(intent), Members(c.platformTags);
    assert "pine" in intent.tags ==> "pine_v6" in demanded;
    assert "mql5" in intent.tags ==> "mql5" in demanded;
    assert c.platformTags != [] ==> c.platformTags[0] in offered;
    NoneDemanded(demanded, c.platformTags);
    assert forall t :: t in demanded
                       <==> (t == "pine_v6" && "pine" in intent.tags) || (t == "mql5" && "mql5" in intent.tags);
  }

  // The cut of the prefilter

  /** What a chunk's tags add to its priority: 8 for a market of the query, 2 for a general market, and so on. */
  lemma MarketPriority(c: Chunk, intent: Intent, shared: seq<string>, general: seq<string>, other: seq<string>)
    requires exists t :: t in shared && t in intent.tags && (t == "crypto" || t == "forex")
    requires "general" in general && forall t :: t in general && t in intent.tags ==> t != "crypto" && t != "forex"
    requires "general" !in other && forall t :: t in other && t in intent.tags ==> t != "crypto" && t != "forex"
    ensures PriorityScore(c.(marketTags := shared), intent) == PriorityScore(c.(marketTags := other), intent) + 8
    ensures PriorityScore(c.(marketTags := general), intent) == PriorityScore(c.(marketTags := other), intent) + 2
  {
    var t :| t in shared && t in intent.tags && (t == "crypto" || t == "forex");
    assert t in MarketTags(intent) * Members(shared);
    assert MarketTags(intent) * Members(general) == {} && MarketTags(intent) * Members(other) == {};
  }

  lemma PlatformPriority(c: Chunk, intent: Intent, shared: seq<string>, general: seq<string>, other: seq<string>)
    requires ("pine" in intent.tags && "pine_v6" in shared) || ("mql5" in intent.tags && "mql5" in shared)
    requires "general" in general && "pine_v6" !in general && "mql5" !in general
    requires "general" !in other && "pine_v6" !in other && "mql5" !in other
    ensures PriorityScore(c.(platformTags := shared), intent) == PriorityScore(c.(platformTags := other), intent) + 4
    ensures PriorityScore(c.(platformTags := general), intent) == PriorityScore(c.(platformTags := other), intent) + 1
  {
    var t := if "pine" in intent.tags && "pine_v6" in shared then "pine_v6" else "mql5";
    assert t in PlatformTags(intent) * Members(shared);
    assert PlatformTags(intent) * Members(general) == {} && PlatformTags(intent) * Members(other) == {};
  }

  /** A curated source adds 3, a chunk of bare metadata loses 4. */
  lemma KindPriority(c: Chunk, intent: Intent, source: string, kind: string)
    requires c.sourceType !in {"internal_curated", "approved_candidate", "approved_source_summary"}
    requires c.kind != "metadata_only"
    ensures PriorityScore(c.(kind := "metadata_only"), intent) == PriorityScore(c, intent) - 4
    ensures source in {"internal_curated", "approved_candidate", "approved_source_summary"} ==>
              PriorityScore(c.(sourceType := source), intent) == PriorityScore(c, intent) + 3
    ensures c.marketTags == [] && c.platformTags == [] ==> PriorityScore(c, intent) == 0
  {
    assert c.marketTags == [] ==> Members(c.marketTags) == {};
    assert c.platformTags == [] ==> Members(c.platformTags) == {};
  }

  /** A kept chunk has at least the priority of one left out; among equals the earlier chunk, then the greater id. */
  lemma CutByPriority(chunks: seq<Chunk>, intent: Intent, stage: string, options: RetrievalOptions, c: Chunk, d: Chunk)
    requires c in Pool(chunks, intent, stage, options)
    requires d in Fitting(chunks, intent, stage) && d !in Pool(chunks, intent, stage, options)
    ensures var p, q := PriorityScore(c, intent), PriorityScore(d, intent);
            p >= q && (p == q ==> c.chunkIndex <= d.chunkIndex
                                  && (c.chunkIndex == d.chunkIndex ==> StringLe(d.chunkId, c.chunkId)))
  {
    PoolKeeps(chunks, intent, stage, options);
    HigherMeans(intent, c, d);
  }

  lemma HigherMeans(intent: Intent, c: Chunk, d: Chunk)
    ensures var p, q := PriorityScore(c, intent), PriorityScore(d, intent);
            HigherPriority(intent, c, d)
            <==> p >= q && (p == q ==> c.chunkIndex <= d.chunkIndex
                                       && (c.chunkIndex == d.chunkIndex ==> StringLe(d.chunkId, c.chunkId)))
  {}

  // The chunk that a required source is shown with

  /** The first hit of the source if there is one, else the source's chunk of least index, then least id. */
  lemma ForcedChunk(hits: seq<Hit>, chunks: seq<Chunk>, source: string)
    requires Available(chunks, source) || exists h :: h in hits && h.chunk.sourceId == source
    ensures var front := ForceOne(hits, chunks, source)[0];
            && |ForceOne(hits, chunks, source)| > 0 && front.chunk.sourceId == source && front.score == 1.0
            && if exists h :: h in hits && h.chunk.sourceId == source
               then exists i: nat :: i < |hits| && hits[i].chunk == front.chunk && SameEvidence(front, hits[i])
                                     && forall j :: 0 <= j < i ==> hits[j].chunk.sourceId != source
               else front.chunk in chunks
                    && forall d :: d in chunks && d.sourceId == source ==>
                         front.chunk.chunkIndex < d.chunkIndex
                         || (front.chunk.chunkIndex == d.chunkIndex && StringLe(front.chunk.chunkId, d.chunkId))
  {
    var i := FindSource(hits, source);
    if exists h :: h in hits && h.chunk.sourceId == source {
      assert i < |hits|;
      assert ForceOne(hits, chunks, source)[0] == Promote(hits[i]);
    } else {
      assert i == |hits|;
      SourceAvailable(chunks, source);
      LeastOfSource(ChunksOfSource(chunks, source));
      BestOfSource(chunks, source);
    }
  }

  lemma LeastOfSource(candidates: seq<Chunk>)
    requires candidates != []
    ensures forall d :: d in candidates ==> FirstInSource(Sort(FirstInSource, candidates)[0], d)
  {
    StringLeOrder();
    SortSorted(FirstInSource, candidates);
    var r := Sort(FirstInSource, candidates);
    forall d | d in candidates ensures FirstInSource(r[0], d) {
      assert d in r;
      var i :| 0 <= i < |r| && r[i] == d;
      assert i > 0 ==> FirstInSource(r[0], r[i]);
      StringLeTotal(d.chunkId, d.chunkId);
    }
  }

  /** Of the candidates for the approved slot the one with the highest lexical score is placed, then score, then id. */
  lemma PlacedIsBest(reranked: seq<Hit>, limit: int, pool: seq<Chunk>, queryText: string, queryEmbedding: seq<real>)
    requires limit > 0 && DistinctIds(reranked) && HitsFrom(reranked, pool)
    requires !KeepsHead(reranked, limit, pool, queryText, queryEmbedding)
    ensures var r := EnsureApproved(reranked, limit, pool, queryText, queryEmbedding);
            && r != [] && var placed := r[|r| - 1];
            && placed.approvedInclusion && placed.chunk.sourceType == "approved_candidate"
            && (placed.lexical >= 3.0 || placed.vector >= 0.5)
            && forall h :: h in Candidates(reranked, limit, pool, queryText, queryEmbedding) ==>
                 placed.lexical > h.lexical
                 || (placed.lexical == h.lexical
                     && (placed.score > h.score
                         || (placed.score == h.score && StringLe(placed.chunk.chunkId, h.chunk.chunkId))))
  {
    var added := EnsureApprovedFacts(reranked, limit, pool, queryText, queryEmbedding);
    LastPlaced(Head(reranked, limit), limit, Include(added.value));
  }

  // The scores of the reranked hits

  /**
   * Reranked are the chunks among the first `lexicalLimit` of the lexical ranking or the first `vectorLimit` of the
   * vector ranking, each with the score of every list that has it.
   */
  lemma RerankedScores(pool: seq<Chunk>, query: string, options: RetrievalOptions, queryEmbedding: seq<real>, h: Hit)
    requires DistinctChunkIds(pool) && h in RerankedHits(pool, query, options, queryEmbedding)
    ensures var a := Head(RankLexical(pool, QueryText(query)), options.lexicalLimit);
            var b := Head(RankVector(pool, queryEmbedding), options.vectorLimit);
            && h.lexical == (if HasId(a, HitId(h)) then LexicalScore(h.chunk, QueryText(query)) as real else 0.0)
            && h.vector == (if HasId(b, HitId(h)) then Cosine(queryEmbedding, h.chunk.embedding) else 0.0)
            && (HasId(a, HitId(h)) || HasId(b, HitId(h)))
  {
    var a := Head(RankLexical(pool, QueryText(query)), options.lexicalLimit);
    var b := Head(RankVector(pool, queryEmbedding), options.vectorLimit);
    var g := BeforeRerank(RrfMerge(a, b), ClassifyPrompt(query), ExpandQueryTerms(query), query, h);
    FusedScores(pool, QueryText(query), queryEmbedding, options.lexicalLimit, options.vectorLimit, g);
    RankedSomewhere(a, b, g);
  }

  lemma BeforeRerank(merged: seq<Hit>, intent: Intent, terms: seq<string>, query: string, h: Hit) returns (g: Hit)
    requires h in Rerank(merged, intent, terms, query)
    ensures g in merged && SameEvidence(g, h)
  {
    RerankFacts(merged, intent, terms, query);
    g := Evidence(merged, Rerank(merged, intent, terms, query), h);
  }

  lemma Evidence(merged: seq<Hit>, reranked: seq<Hit>, h: Hit) returns (g: Hit)
    ensures CoveredBy(reranked, merged) && h in reranked ==> g in merged && SameEvidence(g, h)
  {
    g := h;
    if CoveredBy(reranked, merged) && h in reranked {
      g :| g in merged && SameEvidence(g, h);
    }
  }

  lemma RankedSomewhere(a: seq<Hit>, b: seq<Hit>, g: Hit)
    requires g in RrfMerge(a, b)
    ensures HasId(a, HitId(g)) || HasId(b, HitId(g))
  {
    RrfMergeFacts(a, b);
    assert HasId(RrfMerge(a, b), HitId(g));
  }

  // What an answer shows of a chunk

  /** The chunk's identity, and its text up to the limit without the blanks at its end. */
  predicate ShownOf(c: Chunk, r: Retrieved, maxChars: int) {
    && r.chunkId == c.chunkId && r.itemId == c.itemId && r.sourceId == c.sourceId && r.sourceType == c.sourceType
    && (r.truncated <==> |c.text| > maxChars)
    && (maxChars >= 0 ==>
          && r.text <= c.text && |r.text| <= maxChars
          && (r.text == "" || !IsSpace(r.text[|r.text| - 1]))
          && forall i :: |r.text| <= i < |c.text| && i < maxChars ==> IsSpace(c.text[i]))
  }

  lemma {:induction false} RightStripCuts(s: string)
    ensures forall i :: |RightStrip(s)| <= i < |s| ==> IsSpace(s[i])
  {
    if s != "" && IsSpace(s[|s| - 1]) {
      RightStripCuts(s[..|s| - 1]);
    }
  }

  lemma ShowMeaning(h: Hit, maxChars: int)
    ensures ShownOf(h.chunk, Show(h, maxChars), maxChars)
  {
    RightStripCuts(Head(h.chunk.text, maxChars));
  }

  /** Whatever is retrieved is shown of a chunk of the pool. */
  lemma RetrievedShows(chunks: seq<Chunk>, query: string, stage: string, options: RetrievalOptions,
                       queryEmbedding: seq<real>, r: Retrieved)
    requires DistinctChunkIds(chunks) && options.limit > 0
    requires r in Retrieve(chunks, query, stage, options, queryEmbedding).retrieved
    ensures exists c ::
              c in Pool(chunks, ClassifyPrompt(query), stage, options) && ShownOf(c, r, options.maxCharsPerChunk)
  {
    var intent := ClassifyPrompt(query);
    var pool := Pool(chunks, intent, stage, options);
    PoolFacts(chunks, intent, stage, options);
    RerankedFacts(pool, query, options, queryEmbedding);
    RequiredSourcesDistinct(query, intent);
    var hits := RetrieveHits(chunks, query, stage, options, queryEmbedding);
    SelectedFrom(RerankedHits(pool, query, options, queryEmbedding), pool, SourcesOf(query), options.limit,
                 QueryText(query), queryEmbedding);
    var i :| 0 <= i < |hits| && ShowAll(hits, options.maxCharsPerChunk)[i] == r;
    assert hits[i] in hits;
    ShowMeaning(hits[i], options.maxCharsPerChunk);
  }

  lemma RetrievedFromIndex(chunks: seq<Chunk>, query: string, stage: string, options: RetrievalOptions,
                           queryEmbedding: seq<real>, r: Retrieved)
    requires DistinctChunkIds(chunks) && options.limit > 0
    requires r in Retrieve(chunks, query, stage, options, queryEmbedding).retrieved
    ensures exists c :: c in chunks && c.chunkId == r.chunkId
  {
    RetrievedShows(chunks, query, stage, options, queryEmbedding, r);
    PoolFacts(chunks, ClassifyPrompt(query), stage, options);
    var c :| c in Pool(chunks, ClassifyPrompt(query), stage, options) && ShownOf(c, r, options.maxCharsPerChunk);
  }

  lemma SelectedFrom(reranked: seq<Hit>, pool: seq<Chunk>, sources: seq<string>, limit: int, queryText: string,
                     queryEmbedding: seq<real>)
    requires DistinctIds(reranked) && HitsFrom(reranked, pool)
    requires DistinctChunkIds(pool) && Distinct(sources) && limit > 0
    ensures HitsFrom(Select(reranked, pool, sources, limit, queryText, queryEmbedding), pool)
  {
    var front, tail := ForceAllFacts(reranked, pool, sources);
    ForcedIds(reranked, pool, AvailableOf(pool, sources), front, tail);
    var added := EnsureApprovedFacts(front + tail, limit, pool, queryText, queryEmbedding);
  }
}
