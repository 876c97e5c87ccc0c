/** What ingest does to a warm result cache: one search, one ingest, and the same search is answered stale. */
module StaleIngest {
  import opened Seqs
  import opened Text
  import opened QuerySignals
  import opened CacheKeys
  import opened Ranking
  import opened Fusion
  import opened Selection
  import opened DerivedData
  import opened Retrieval
  import opened AnswerLaws
  import opened IndexMachine
  import opened IndexRuns
  import opened ResultCache
  import Chunker

  // With wide enough limits every lexical match of the pool is retrieved

  /** Limits that cut nothing from n chunks. */
  predicate Wide(options: RetrievalOptions, n: nat) {
    options.prefilterLimit >= n && options.lexicalLimit >= n && options.limit > n
  }

  lemma {:induction false} CollectShorter<T, U>(f: T -> Option<U>, xs: seq<T>)
    ensures |Collect(f, xs)| <= |xs|
  {
    if xs != [] {
      CollectShorter(f, xs[1..]);
    }
  }

  lemma RankedWhole(pool: seq<Chunk>, queryText: string, limit: int, c: Chunk)
    requires c in pool && LexicalScore(c, queryText) > 0 && limit >= |pool|
    ensures HasId(Head(RankLexical(pool, queryText), limit), c.chunkId)
  {
    ScorersFair(queryText, []);
    RankByFacts(LexicalOf, LexicalScorer(queryText), pool);
    CollectShorter(LexicalScorer(queryText), pool);
    var h := LexicalScorer(queryText)(c).value;
    assert h in RankLexical(pool, queryText) && HitId(h) == c.chunkId;
  }

  lemma RerankKeepsId(hits: seq<Hit>, intent: Intent, terms: seq<string>, query: string, id: string)
    requires HasId(hits, id)
    ensures HasId(Rerank(hits, intent, terms, query), id)
  {
    RerankFacts(hits, intent, terms, query);
    CoveredId(hits, Rerank(hits, intent, terms, query), id);
  }

  lemma CoveredId(hits: seq<Hit>, others: seq<Hit>, id: string)
    ensures CoveredBy(hits, others) && HasId(hits, id) ==> HasId(others, id)
  {
    if CoveredBy(hits, others) && HasId(hits, id) {
      var h :| h in hits && HitId(h) == id;
      var g :| g in others && SameEvidence(g, h);
    }
  }

  lemma MatchReranked(pool: seq<Chunk>, query: string, options: RetrievalOptions, queryEmbedding: seq<real>, c: Chunk)
    requires c in pool && LexicalScore(c, QueryText(query)) > 0 && options.lexicalLimit >= |pool|
    ensures HasId(RerankedHits(pool, query, options, queryEmbedding), c.chunkId)
  {
    var lexical := Head(RankLexical(pool, QueryText(query)), options.lexicalLimit);
    var vector := Head(RankVector(pool, queryEmbedding), options.vectorLimit);
    RankedWhole(pool, QueryText(query), options.lexicalLimit, c);
    RrfMergeFacts(lexical, vector);
    RerankKeepsId(RrfMerge(lexical, vector), ClassifyPrompt(query), ExpandQueryTerms(query), query, c.chunkId);
  }

  /** Distinct hits of a pool are no more than its chunks. */
  lemma HitsFitPool(hits: seq<Hit>, pool: seq<Chunk>)
    requires DistinctIds(hits) && HitsFrom(hits, pool)
    ensures |hits| <= |pool|
  {
    var ids, all := Map(HitId, hits), Map(IdOf, pool);
    forall id | id in ids ensures id in all {
      var i :| 0 <= i < |hits| && ids[i] == id;
      assert hits[i] in hits;
      var k :| 0 <= k < |pool| && pool[k] == hits[i].chunk;
      assert all[k] == id;
    }
    DistinctFewer(ids, all);
  }

  lemma ForcingKeepsId(hits: seq<Hit>, front: seq<Hit>, tail: seq<Hit>, id: string)
    requires HasId(hits, id) && tail == Excluding(HitId, hits, Map(HitId, front))
    ensures HasId(front + tail, id)
  {
    var h :| h in hits && HitId(h) == id;
    if h in tail {
      assert h in front + tail;
    } else {
      assert id in Map(HitId, front);
      var i :| 0 <= i < |front| && HitId(front[i]) == id;
      assert front[i] in front + tail;
    }
  }

  lemma MatchSelected(reranked: seq<Hit>, pool: seq<Chunk>, sources: seq<string>, limit: int, queryText: string,
                      queryEmbedding: seq<real>, id: string)
    requires DistinctIds(reranked) && HitsFrom(reranked, pool) && DistinctChunkIds(pool) && Distinct(sources)
    requires HasId(reranked, id) && limit > |pool|
    ensures HasId(Select(reranked, pool, sources, limit, queryText, queryEmbedding), id)
  {
    var front, tail := ForceAllFacts(reranked, pool, sources);
    ForcedIds(reranked, pool, AvailableOf(pool, sources), front, tail);
    ForcingKeepsId(reranked, front, tail, id);
    HitsFitPool(front + tail, pool);
    var added := EnsureApprovedFacts(front + tail, limit, pool, queryText, queryEmbedding);
    var h :| h in front + tail && HitId(h) == id;
    assert Head(front + tail, limit) == front + tail;
    assert h in Select(reranked, pool, sources, limit, queryText, queryEmbedding);
  }

  lemma MatchIsRetrieved(chunks: seq<Chunk>, query: string, stage: string, options: RetrievalOptions,
                         queryEmbedding: seq<real>, c: Chunk)
    requires DistinctChunkIds(chunks) && Wide(options, |chunks|)
    requires c in chunks && Fits(c, ClassifyPrompt(query), stage) && LexicalScore(c, QueryText(query)) > 0
    ensures exists r :: r in Retrieve(chunks, query, stage, options, queryEmbedding).retrieved && r.chunkId == c.chunkId
  {
    var intent := ClassifyPrompt(query);
    var pool := Pool(chunks, intent, stage, options);
    PoolFacts(chunks, intent, stage, options);
    FittingFew(chunks, intent, stage);
    PoolKeeps(chunks, intent, stage, options);
    MatchReranked(pool, query, options, queryEmbedding, c);
    RerankedFacts(pool, query, options, queryEmbedding);
    RequiredSourcesDistinct(query, intent);
    MatchSelected(RerankedHits(pool, query, options, queryEmbedding), pool, SourcesOf(query), options.limit,
                  QueryText(query), queryEmbedding, c.chunkId);
    ShownId(RetrieveHits(chunks, query, stage, options, queryEmbedding), options.maxCharsPerChunk, c.chunkId);
  }

  // Search, ingest, search

  function SearchIngestSearch(query: string, stage: string, options: RetrievalOptions, item: Item, config: Config)
    : seq<Command>
  {
    [DoSearch(query, stage, options)] + ([DoIngest(item, config)] + [DoSearch(query, stage, options)])
  }

  /** An ingested item whose chunk the query finds: the answers before and after the ingest differ. */
  lemma IngestChangesAnswer(e: Embedder, ix: Index, query: string, stage: string, options: RetrievalOptions, item: Item,
                            c: Chunk, before: seq<real>, after: seq<real>)
    requires InStep(e, ix) && forall other :: other in ix.items ==> other.id != item.id
    requires c in ChunksOfItem(e, item, ix.config.model, ix.config.provider)
    requires Fits(c, ClassifyPrompt(query), stage) && LexicalScore(c, QueryText(query)) > 0
    requires Wide(options, |Ingest(e, ix, item, ix.config).chunks|)
    ensures Retrieve(ix.chunks, query, stage, options, before).retrieved
            != Retrieve(Ingest(e, ix, item, ix.config).chunks, query, stage, options, after).retrieved
  {
    var now := Ingest(e, ix, item, ix.config);
    IngestedChunks(e, ix, item);
    ChunkIdsDistinct(e, ix.items, ix.config.model, ix.config.provider);
    MatchIsRetrieved(now.chunks, query, stage, options, after, c);
    forall r | r in Retrieve(ix.chunks, query, stage, options, before).retrieved ensures r.chunkId != c.chunkId {
      RetrievedFromIndex(ix.chunks, query, stage, options, before, r);
      var d :| d in ix.chunks && d.chunkId == r.chunkId;
      OtherItemChunkIds(e, item, ix.items, ix.config.model, ix.config.provider, c, d);
    }
  }

  /** The chunks after the ingest of a new item are those before and its own. */
  lemma IngestedChunks(e: Embedder, ix: Index, item: Item)
    requires InStep(e, ix) && forall other :: other in ix.items ==> other.id != item.id
    ensures var now := Ingest(e, ix, item, ix.config);
            && DistinctChunkIds(now.chunks)
            && forall c :: c in ChunksOfItem(e, item, ix.config.model, ix.config.provider) ==> c in now.chunks
  {
    var now := Ingest(e, ix, item, ix.config);
    IngestKeepsStep(e, ix, item, ix.config);
    ChunkIdsDistinct(e, now.items, now.config.model, now.config.provider);
    assert item in now.items by { assert now.items[|now.items| - 1] == item; }
    ItemChunks(e, now.items, item, ix.config.model, ix.config.provider);
  }

  lemma PartsOfX()
    ensures Chunker.Parts("x") == ["x"]
  {
    assert Strip("x") == "x";
    assert RunLength("x", Chunker.NotLineBreak) == 1;
    assert Chunker.SplitLines("x") == ["x"];
    assert Map(RightStrip, ["x"]) == ["x"];
    assert Chunker.NormalizeLines("x") == "x";
    assert Chunker.SplitFrom("x", 0, 1) == ["x"];
    assert Chunker.SplitFrom("x", 0, 0) == ["x"];
    assert Map(Strip, ["x"]) == ["x"];
  }

  lemma GroupsOfX()
    ensures Chunker.Groups(["x"], 1200, 120) == [Chunker.Group("", ["x"])]
  {
    Chunker.GroupedSnoc([], "x", 1200, 120);
    assert [] + ["x"] == ["x"];
    assert Chunker.HeadingLevel("x") == 0;
    Chunker.RenderNothing(1200, "x");
  }

  lemma TextOfX()
    ensures Chunker.Render(Chunker.Group("", ["x"]), 1200) == "x"
  {
    Chunker.RenderFresh("", "x", 1200);
    Chunker.ClipTrimmed("x", 1200);
  }

  lemma OneGroupOneSection(g: Chunker.Group)
    ensures |Chunker.Sections([g], 1200)| == 1 && Chunker.Sections([g], 1200)[0].text == Chunker.Render(g, 1200)
  {
    Chunker.SectionAt([g], 0, 1200);
    assert [g][..1] == [g];
  }

  lemma SectionsOfX()
    ensures |Chunker.ChunkText("x")| == 1 && Chunker.ChunkText("x")[0].text == "x"
  {
    var g := Chunker.Group("", ["x"]);
    assert Chunker.ChunkText("x") == Chunker.Sections([g], 1200) by {
      PartsOfX();
      GroupsOfX();
    }
    OneGroupOneSection(g);
    TextOfX();
  }

  lemma FirstToken(terms: seq<string>)
    ensures "x" in Tokens(Join(["x"] + terms, " "))
  {
    var text := Join(["x"] + terms, " ");
    RunsOfWord("x", IsWordChar);
    if terms == [] {
      assert ["x"] + terms == ["x"] && text == "x" && Lower("x") == "x";
    } else {
      var rest := Join(terms, " ");
      assert (["x"] + terms)[1..] == terms;
      assert text == "x" + " " + rest;
      LowerAppend("x" + " ", rest);
      assert Lower("x" + " ") == "x" + [' '];
      RunsSeparated("x", ' ', Lower(rest), IsWordChar);
    }
  }

  lemma {:induction false} TokenScorePositive(c: Chunk, tokens: seq<string>, token: string)
    requires token in tokens && TokenWeight(c, token) > 0
    ensures TokenScore(c, tokens) > 0
  {
    if tokens[0] != token {
      TokenScorePositive(c, tokens[1..], token);
    }
  }

  predicate General(c: Chunk) {
    "general" in c.marketTags && "general" in c.platformTags && c.status == "active"
  }

  /** A general active chunk fits every intent, without a stage. */
  lemma GeneralFits(c: Chunk, intent: Intent)
    requires General(c)
    ensures Fits(c, intent, "")
  {
    assert "general" in Members(c.marketTags) && "general" in Members(c.platformTags);
  }

  lemma TokenX()
    ensures Tokens("x") == ["x"]
  {
    assert Lower("x") == "x";
    RunsOfWord("x", IsWordChar);
  }

  lemma ScoreOfX(c: Chunk, text: string)
    requires c.text == "x" && c.tokenFrequencies == TokenFrequencies("x") && "x" in Tokens(text)
    ensures LexicalScore(c, text) > 0
  {
    TokenX();
    assert "x" in c.tokenFrequencies && c.tokenFrequencies["x"] == 1;
    TokenScorePositive(c, Tokens(text), "x");
  }

  /** A note that is not in the index yet. */
  function Note(id: string): Item {
    Item(id, "semantic", "X", "x", ["trading"], ["general"], ["general"], "high", "internal_doc", "x.md", "active", [])
  }

  lemma NoteChunk(e: Embedder, id: string, model: string, provider: string)
    ensures var chunks := ChunksOfItem(e, Note(id), model, provider);
            |chunks| == 1 && chunks[0].sourceId == id && chunks[0].stages == StagesForItem(Note(id))
    ensures var c := ChunksOfItem(e, Note(id), model, provider)[0];
            General(c) && c.text == "x" && c.tokenFrequencies == TokenFrequencies("x")
  {
    SectionsOfX();
  }

  function TotalLength(items: seq<Item>): nat {
    if items == [] then 0 else |items[0].id| + TotalLength(items[1..])
  }

  lemma {:induction false} LongerThanAll(items: seq<Item>, item: Item)
    requires item in items
    ensures |item.id| <= TotalLength(items)
  {
    if items[0] != item {
      LongerThanAll(items[1..], item);
    }
  }

  /** An id of the form that ingest gives, longer than all ids of the items. */
  function NewId(items: seq<Item>): (id: string)
    ensures |id| == TotalLength(items) + 5
  {
    "doc-x" + seq(TotalLength(items), _ => 'x')
  }

  lemma RunStep(e: Embedder, ix: Index, c: Command, cs: seq<Command>)
    ensures Run(e, ix, [c] + cs).1 == Apply(e, ix, c).1 + Run(e, Apply(e, ix, c).0, cs).1
    ensures PlainRun(e, ix, [c] + cs).1 == PlainApply(e, ix, c).1 + PlainRun(e, PlainApply(e, ix, c).0, cs).1
    ensures Run(e, ix, [c]).1 == Apply(e, ix, c).1 && PlainRun(e, ix, [c]).1 == PlainApply(e, ix, c).1
  {
    assert ([c] + cs)[1..] == cs && [c][1..] == [];
    assert Run(e, ix, [c]).1 == Apply(e, ix, c).1 + [];
    assert PlainRun(e, ix, [c]).1 == PlainApply(e, ix, c).1 + [];
  }

  lemma RunThree(e: Embedder, ix: Index, a: Command, b: Command, c: Command)
    ensures var one := Apply(e, ix, a).0; var two := Apply(e, one, b).0;
            Run(e, ix, [a] + ([b] + [c])).1 == Apply(e, ix, a).1 + (Apply(e, one, b).1 + Apply(e, two, c).1)
    ensures var one := PlainApply(e, ix, a).0; var two := PlainApply(e, one, b).0;
            PlainRun(e, ix, [a] + ([b] + [c])).1
            == PlainApply(e, ix, a).1 + (PlainApply(e, one, b).1 + PlainApply(e, two, c).1)
  {
    RunStep(e, ix, a, [b] + [c]);
    RunStep(e, Apply(e, ix, a).0, b, [c]);
    RunStep(e, PlainApply(e, ix, a).0, b, [c]);
    RunStep(e, Apply(e, Apply(e, ix, a).0, b).0, c, []);
    RunStep(e, PlainApply(e, PlainApply(e, ix, a).0, b).0, c, []);
  }

  lemma ApplySearch(e: Embedder, ix: Index, query: string, stage: string, options: RetrievalOptions)
    ensures var (now, r) := Search(e, ix, query, stage, options);
            Apply(e, ix, DoSearch(query, stage, options)) == (now, [r])
  {}

  lemma ApplyIngest(e: Embedder, ix: Index, item: Item, config: Config)
    ensures Apply(e, ix, DoIngest(item, config)) == (Ingest(e, ix, item, config), [])
  {}

  /** A search leaves its result under its key. */
  lemma ResultStored(e: Embedder, ix: Index, query: string, stage: string, options: RetrievalOptions)
    ensures var (now, r) := Search(e, ix, query, stage, options);
            && now.version == ix.version && now.registry == ix.registry
            && ResultKeyOf(ix, query, stage, options) in now.results
            && now.results[ResultKeyOf(ix, query, stage, options)].result == r
  {}

  /** An index with the same version and results serves the stored result to every request with its key. */
  lemma StoredServed(e: Embedder, ix: Index, later: Index, query: string, stage: string, options: RetrievalOptions)
    requires later.version == ix.version && later.registry == ix.registry
    requires ResultKeyOf(ix, query, stage, options) in later.results
    ensures Search(e, later, query, stage, options).1 == later.results[ResultKeyOf(ix, query, stage, options)].result
  {}

  lemma HitAfterIngest(e: Embedder, ix: Index, query: string, stage: string, options: RetrievalOptions,
                       item: Item, config: Config)
    ensures var (now, r) := Search(e, ix, query, stage, options);
            Search(e, Ingest(e, now, item, config), query, stage, options).1 == r
  {
    var now := Search(e, ix, query, stage, options).0;
    ResultStored(e, ix, query, stage, options);
    IngestKeepsResults(e, now, item, config);
    StoredServed(e, ix, Ingest(e, now, item, config), query, stage, options);
  }

  /** Whatever is ingested, the repeated search returns what the first one returned. */
  lemma RepeatedAfterIngest(e: Embedder, ix: Index, query: string, stage: string, options: RetrievalOptions,
                            item: Item, config: Config)
    ensures var r := Search(e, ix, query, stage, options).1;
            Run(e, ix, SearchIngestSearch(query, stage, options, item, config)).1 == [r] + ([] + [r])
  {
    var now := Search(e, ix, query, stage, options).0;
    HitAfterIngest(e, ix, query, stage, options, item, config);
    ApplySearch(e, ix, query, stage, options);
    ApplyIngest(e, now, item, config);
    ApplySearch(e, Ingest(e, now, item, config), query, stage, options);
    RunThree(e, ix, DoSearch(query, stage, options), DoIngest(item, config), DoSearch(query, stage, options));
  }

  lemma PlainSearch(e: Embedder, ix: Index, query: string, stage: string, options: RetrievalOptions)
    ensures PlainApply(e, ix, DoSearch(query, stage, options))
            == (ix, [PlainAnswer(e, ix.chunks, ix.config, query, stage, options)])
  {}

  lemma PlainIngest(e: Embedder, ix: Index, item: Item, config: Config)
    ensures var (now, r) := PlainApply(e, ix, DoIngest(item, config));
            r == [] && now.chunks == Ingest(e, ix, item, config).chunks && now.config == config
  {
    ApplyIngest(e, ix, item, config);
  }

  /** Without caches the repeated search sees the ingested item. */
  lemma PlainAfterIngest(e: Embedder, ix: Index, query: string, stage: string, options: RetrievalOptions,
                         item: Item, config: Config)
    ensures PlainRun(e, ix, SearchIngestSearch(query, stage, options, item, config)).1
            == [PlainAnswer(e, ix.chunks, ix.config, query, stage, options)]
               + ([] + [PlainAnswer(e, Ingest(e, ix, item, config).chunks, config, query, stage, options)])
  {
    PlainSearch(e, ix, query, stage, options);
    PlainIngest(e, ix, item, config);
    PlainSearch(e, PlainApply(e, ix, DoIngest(item, config)).0, query, stage, options);
    RunThree(e, ix, DoSearch(query, stage, options), DoIngest(item, config), DoSearch(query, stage, options));
  }

  lemma SearchKeepsContent(e: Embedder, ix: Index, query: string, stage: string, options: RetrievalOptions)
    ensures var now := Search(e, ix, query, stage, options).0;
            now.items == ix.items && now.sources == ix.sources && now.config == ix.config && now.chunks == ix.chunks
    ensures ResultKeyOf(ix, query, stage, options) !in ix.results ==>
              Search(e, ix, query, stage, options).1 == Recompute(e, ix, query, stage, options)
  {}

  lemma SameItemsIngested(e: Embedder, ix: Index, was: Index, item: Item)
    requires ix.items == was.items && ix.sources == was.sources && ix.config == was.config
    ensures Ingest(e, ix, item, was.config).chunks == Ingest(e, was, item, was.config).chunks
  {}

  /** The index right before the repeated search. */
  function BeforeRepeat(e: Embedder, ix: Index, query: string, stage: string, options: RetrievalOptions,
                        item: Item): Index {
    Ingest(e, Search(e, ix, query, stage, options).0, item, ix.config)
  }

  /**
   * On an index without a result for the request: if the query finds a chunk of the ingested item, and the limits cut
   * nothing, the repeated search returns the old answer, which is not what recomputing returns.
   */
  lemma IngestMakesStale(e: Embedder, ix: Index, query: string, stage: string, options: RetrievalOptions, item: Item,
                         c: Chunk)
    requires InStep(e, ix) && forall other :: other in ix.items ==> other.id != item.id
    requires ResultKeyOf(ix, query, stage, options) !in ix.results
    requires c in ChunksOfItem(e, item, ix.config.model, ix.config.provider)
    requires Fits(c, ClassifyPrompt(query), stage) && LexicalScore(c, QueryText(query)) > 0
    requires Wide(options, |Ingest(e, ix, item, ix.config).chunks|)
    ensures var r := Recompute(e, ix, query, stage, options);
            && Run(e, ix, SearchIngestSearch(query, stage, options, item, ix.config)).1 == [r] + ([] + [r])
            && Recompute(e, BeforeRepeat(e, ix, query, stage, options, item), query, stage,
                         options).retrieved != r.retrieved
  {
    var now := Search(e, ix, query, stage, options).0;
    var last := BeforeRepeat(e, ix, query, stage, options, item);
    RepeatedAfterIngest(e, ix, query, stage, options, item, ix.config);
    SearchKeepsContent(e, ix, query, stage, options);
    SameItemsIngested(e, now, ix, item);
    IngestChangesAnswer(e, ix, query, stage, options, item, c,
                        QueryEmbedding(e, ix, query, stage), QueryEmbedding(e, last, query, stage));
  }

  /** Such an item exists for every index whose derived data are in step, in particular for every built one. */
  lemma IngestServesStaleResult(e: Embedder, ix: Index) returns (options: RetrievalOptions, item: Item)
    requires InStep(e, ix) && ix.results == map[]
    ensures var r := Recompute(e, ix, "x", "", options);
            && Run(e, ix, SearchIngestSearch("x", "", options, item, ix.config)).1 == [r] + ([] + [r])
            && Recompute(e, BeforeRepeat(e, ix, "x", "", options, item), "x", "", options).retrieved != r.retrieved
  {
    item := Note(NewId(ix.items));
    forall other | other in ix.items ensures other.id != item.id {
      LongerThanAll(ix.items, other);
    }
    var n := |Ingest(e, ix, item, ix.config).chunks|;
    options := RetrievalOptions(n + 1, n, 20, 900, ix.config.model, ix.config.provider, n);
    NoteChunk(e, item.id, ix.config.model, ix.config.provider);
    var c := ChunksOfItem(e, item, ix.config.model, ix.config.provider)[0];
    GeneralFits(c, ClassifyPrompt("x"));
    FirstToken(ExpandQueryTerms("x"));
    ScoreOfX(c, QueryText("x"));
    IngestMakesStale(e, ix, "x", "", options, item, c);
  }
}
