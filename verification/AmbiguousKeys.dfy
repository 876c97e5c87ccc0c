/**
 * Requests that share a key of the result cache without being alike: the second one is served the first one's answer.
 */
module AmbiguousKeys {
  import opened Seqs
  import opened Text
  import opened QuerySignals
  import opened CacheKeys
  import opened Ranking
  import opened Selection
  import opened DerivedData
  import opened Retrieval
  import opened IndexMachine
  import opened StaleIngest

  // Two requests with one key

  function TwoSearches(q1: string, s1: string, q2: string, s2: string, options: RetrievalOptions): seq<Command> {
    [DoSearch(q1, s1, options)] + [DoSearch(q2, s2, options)]
  }

  /** The index right before the second search. */
  function AfterFirst(e: Embedder, ix: Index, q1: string, s1: string, options: RetrievalOptions): Index {
    Search(e, ix, q1, s1, options).0
  }

  /** The second request is answered with what the first one computed. */
  lemma SharedKeyServed(e: Embedder, ix: Index, q1: string, s1: string, q2: string, s2: string,
                        options: RetrievalOptions)
    requires ResultKeyOf(ix, q1, s1, options) == ResultKeyOf(ix, q2, s2, options)
    requires ResultKeyOf(ix, q1, s1, options) !in ix.results
    ensures var r := Recompute(e, ix, q1, s1, options);
            Run(e, ix, TwoSearches(q1, s1, q2, s2, options)).1 == [r] + [r]
  {
    var now := AfterFirst(e, ix, q1, s1, options);
    SearchKeepsContent(e, ix, q1, s1, options);
    ResultStored(e, ix, q1, s1, options);
    SameVersionSameKey(ix, now, q2, s2, options);
    StoredServed(e, now, now, q2, s2, options);
    ApplySearch(e, ix, q1, s1, options);
    ApplySearch(e, now, q2, s2, options);
    RunStep(e, ix, DoSearch(q1, s1, options), [DoSearch(q2, s2, options)]);
    RunStep(e, now, DoSearch(q2, s2, options), []);
  }

  lemma SameVersionSameKey(ix: Index, now: Index, query: string, stage: string, options: RetrievalOptions)
    requires now.version == ix.version && now.registry == ix.registry
    ensures ResultKeyOf(now, query, stage, options) == ResultKeyOf(ix, query, stage, options)
  {}

  /**
   * A required source that only one of the queries names: their answers differ, if it is among the available ones that
   * fit before the last place.
   */
  lemma SourceNamedOnce(chunks: seq<Chunk>, q1: string, q2: string, stage: string, options: RetrievalOptions,
                        before: seq<real>, after: seq<real>, source: string)
    requires DistinctChunkIds(chunks) && source !in SourcesOf(q2)
    requires options.limit > 0
    requires source in Head(AvailableOf(Pool(chunks, ClassifyPrompt(q1), stage, options), SourcesOf(q1)),
                            options.limit - 1)
    ensures Retrieve(chunks, q1, stage, options, before).retrieved
            != Retrieve(chunks, q2, stage, options, after).retrieved
  {
    var pool2 := Pool(chunks, ClassifyPrompt(q2), stage, options);
    var available2 := AvailableOf(pool2, SourcesOf(q2));
    AnswerShowsSources(chunks, q1, stage, options, before);
    AnswerShowsSources(chunks, q2, stage, options, after);
    AvailableMembers(pool2, SourcesOf(q2));
    assert forall s :: s in Head(available2, options.limit - 1) ==> s in available2;
  }

  /** Cut off, such a source makes no difference: with one place, requiring it behind another source changes nothing. */
  lemma CutSourceHidden(pool: seq<Chunk>, first: string, second: string, queryText: string, queryEmbedding: seq<real>)
    requires first != second && Available(pool, first) && Available(pool, second)
    requires forall c :: c in pool ==> !Approved(c)
    ensures Select([], pool, [first, second], 1, queryText, queryEmbedding)
            == Select([], pool, [first], 1, queryText, queryEmbedding)
  {
    var one := ForcedAlone(pool, first);
    var other := ForcedAlone(pool, second);
    ForcedBefore(other, pool, first);
    assert [first, second][1..] == [second] && [first][1..] == [];
    assert ForceAll([], pool, [first, second]) == ForceOne(ForceAll([], pool, [second]), pool, first);
    NothingApproved(pool, one, other, queryText, queryEmbedding);
  }

  /** The one hit that forcing a source into an empty result gives. */
  lemma ForcedAlone(pool: seq<Chunk>, source: string) returns (front: seq<Hit>)
    requires Available(pool, source)
    ensures ForceAll([], pool, [source]) == front == ForceOne([], pool, source)
    ensures |front| == 1 && front[0].chunk in pool && front[0].chunk.sourceId == source
  {
    SourceAvailable(pool, source);
    BestOfSource(pool, source);
    front := ForceOne([], pool, source);
    assert [source][1..] == [] && ForceAll([], pool, []) == [];
  }

  lemma ForcedBefore(other: seq<Hit>, pool: seq<Chunk>, source: string)
    requires |other| == 1 && other[0].chunk.sourceId != source && Available(pool, source)
    ensures ForceOne(other, pool, source) == ForceOne([], pool, source) + other
  {
    SourceAvailable(pool, source);
    assert other[1..] == [] && FindSource(other, source) == 1;
  }

  lemma NothingApproved(pool: seq<Chunk>, one: seq<Hit>, other: seq<Hit>, queryText: string, queryEmbedding: seq<real>)
    requires |one| == 1 && |other| == 1 && one[0].chunk in pool && other[0].chunk in pool
    requires forall c :: c in pool ==> !Approved(c)
    ensures EnsureApproved(one + other, 1, pool, queryText, queryEmbedding) == one
    ensures EnsureApproved(one, 1, pool, queryText, queryEmbedding) == one
  {
    assert Head(one + other, 1) == one && Head(one, 1) == one && (one + other)[1..] == other && one[1..] == [];
    assert Filter(Eligible, other) == [];
    assert ApprovedPool(pool, one) == [] by {
      var taken := Map(HitId, one);
      FilterNone((c: Chunk) => Approved(c) && c.chunkId !in taken, pool);
    }
    assert FallbackHits(pool, one, queryText, queryEmbedding) == [];
  }

  // Doubled blanks

  const BOUNDARIES := "internal-model-workflow-boundaries"

  /**
   * On every index whose pool has a chunk of the model-workflow source, with room for it before the last place: after
   * the query with the doubled blank, the one with the single blank is answered without that source.
   */
  lemma DoubleBlankServed(e: Embedder, ix: Index, a: string, b: string, options: RetrievalOptions)
    requires a == "raw json" && b == "raw  json"
    requires DistinctChunkIds(ix.chunks) && ix.results == map[] && options.limit > 0
    requires BOUNDARIES in Head(AvailableOf(Pool(ix.chunks, ClassifyPrompt(a), "", options), SourcesOf(a)),
                                options.limit - 1)
    ensures var r := Recompute(e, ix, b, "", options);
            && Run(e, ix, TwoSearches(b, "", a, "", options)).1 == [r] + [r]
            && Recompute(e, AfterFirst(e, ix, b, "", options), a, "", options).retrieved != r.retrieved
  {
    var now := AfterFirst(e, ix, b, "", options);
    SharedBlankKey(ix, a, b, options);
    SharedKeyServed(e, ix, b, "", a, "", options);
    SearchKeepsContent(e, ix, b, "", options);
    DoubleBlankSignals(a, b, ClassifyPrompt(b));
    BoundariesIsFourth();
    SourceNamedOnce(ix.chunks, a, b, "", options, QueryEmbedding(e, now, a, ""), QueryEmbedding(e, ix, b, ""),
                    BOUNDARIES);
  }

  lemma BoundariesIsFourth()
    ensures WORKFLOW_SOURCES[4] == BOUNDARIES
  {}

  lemma SharedBlankKey(ix: Index, a: string, b: string, options: RetrievalOptions)
    requires a == "raw json" && b == "raw  json"
    ensures ResultKeyOf(ix, b, "", options) == ResultKeyOf(ix, a, "", options)
  {
    DoubleBlankSameText(a, b);
  }

  /** Built from one note under the source's id, for instance. */
  lemma DoubleBlankServedWrongly(e: Embedder, a: string, b: string, options: RetrievalOptions, version: string,
                                 registry: string)
    returns (ix: Index)
    requires a == "raw json" && b == "raw  json" && options.limit > 1 && options.prefilterLimit > 0
    ensures InStep(e, ix) && ix.results == map[]
    ensures var r := Recompute(e, ix, b, "", options);
            && Run(e, ix, TwoSearches(b, "", a, "", options)).1 == [r] + [r]
            && Recompute(e, AfterFirst(e, ix, b, "", options), a, "", options).retrieved != r.retrieved
  {
    ix := OneNote(e, BOUNDARIES, version, registry);
    NoteIndex(e, BOUNDARIES, version, registry);
    BoundariesVisible(e, ix, a, options);
    DoubleBlankServed(e, ix, a, b, options);
  }

  function OneNote(e: Embedder, id: string, version: string, registry: string): Index {
    var chunks := ChunksForItems(e, [Note(id)], "local/hash-embedding-64", LOCAL);
    Index([Note(id)], Map(SourceFromItem, [Note(id)]), chunks, RetrievalPayload(chunks),
          Config(LOCAL, "local/hash-embedding-64"), version, registry, map[], map[])
  }

  lemma NoteIndex(e: Embedder, id: string, version: string, registry: string)
    ensures var ix := OneNote(e, id, version, registry);
            && InStep(e, ix) && ix.results == map[] && |ix.chunks| == 1 && DistinctChunkIds(ix.chunks)
            && var c := ix.chunks[0];
            && c.sourceId == id && General(c) && c.text == "x" && c.stages == StagesForItem(Note(id))
            && c.tokenFrequencies == TokenFrequencies("x")
  {
    var chunks := ChunksOfItem(e, Note(id), "local/hash-embedding-64", LOCAL);
    NoteChunk(e, id, "local/hash-embedding-64", LOCAL);
    assert [Note(id)][1..] == [] && ChunksForItems(e, [Note(id)], "local/hash-embedding-64", LOCAL) == chunks + [];
  }

  lemma BoundariesAvailable(e: Embedder, ix: Index, a: string, options: RetrievalOptions)
    requires a == "raw json" && options.limit > 1 && options.prefilterLimit > 0
    requires |ix.chunks| == 1 && ix.chunks[0].sourceId == BOUNDARIES && General(ix.chunks[0])
    ensures AvailableOf(Pool(ix.chunks, ClassifyPrompt(a), "", options), SourcesOf(a)) == [BOUNDARIES]
  {
    var c, intent := ix.chunks[0], ClassifyPrompt(a);
    GeneralFits(c, intent);
    FittingFew(ix.chunks, intent, "");
    PoolKeeps(ix.chunks, intent, "", options);
    var pool := Pool(ix.chunks, intent, "", options);
    assert c in Fitting(ix.chunks, intent, "") && forall d :: d in pool ==> d == c;
    BoundariesIsFourth();
    DoubleBlankSignals(a, "raw  json", intent);
    RequiredSourcesDistinct(a, intent);
    OnlyAvailable(pool, SourcesOf(a), BOUNDARIES);
  }

  lemma BoundariesVisible(e: Embedder, ix: Index, a: string, options: RetrievalOptions)
    requires a == "raw json" && options.limit > 1 && options.prefilterLimit > 0
    requires |ix.chunks| == 1 && ix.chunks[0].sourceId == BOUNDARIES && General(ix.chunks[0])
    ensures BOUNDARIES in Head(AvailableOf(Pool(ix.chunks, ClassifyPrompt(a), "", options), SourcesOf(a)),
                               options.limit - 1)
  {
    BoundariesAvailable(e, ix, a, options);
    assert Head([BOUNDARIES], options.limit - 1) == [BOUNDARIES];
  }

  lemma OnlyAvailable(pool: seq<Chunk>, sources: seq<string>, source: string)
    requires Distinct(sources) && source in sources && pool != [] && forall c :: c in pool ==> c.sourceId == source
    ensures AvailableOf(pool, sources) == [source]
  {
    var available := AvailableOf(pool, sources);
    AvailableMembers(pool, sources);
    assert pool[0] in pool && Available(pool, source);
    assert Distinct(available) by { AvailableDistinct(pool, sources); }
    forall s | s in available ensures s == source {
      var c :| c in pool && c.sourceId == s;
    }
    DistinctFewer(available, [source]);
  }

  lemma {:induction false} AvailableDistinct(pool: seq<Chunk>, sources: seq<string>)
    requires Distinct(sources)
    ensures Distinct(AvailableOf(pool, sources))
  {
    if sources != [] {
      assert Distinct(sources[1..]) && sources[0] !in sources[1..];
      AvailableDistinct(pool, sources[1..]);
      AvailableMembers(pool, sources[1..]);
      DistinctAppend(if Available(pool, sources[0]) then [sources[0]] else [], AvailableOf(pool, sources[1..]));
    }
  }

  // A pipe in the stage

  lemma NothingFits(chunks: seq<Chunk>, intent: Intent, stage: string, options: RetrievalOptions)
    requires forall c :: c in chunks ==> !InStage(c, stage)
    ensures Pool(chunks, intent, stage, options) == []
  {
    FilterNone((c: Chunk) => InStage(c, stage), Filter(Active, chunks));
    assert Fitting(chunks, intent, stage) == [];
  }

  lemma NothingSelected(query: string, sources: seq<string>, options: RetrievalOptions, queryEmbedding: seq<real>)
    ensures Select(RerankedHits([], query, options, queryEmbedding), [], sources, options.limit, QueryText(query),
                   queryEmbedding) == []
  {
    assert RerankedHits([], query, options, queryEmbedding) == [];
    NothingForced(sources);
  }

  lemma EmptyPool(chunks: seq<Chunk>, query: string, stage: string, options: RetrievalOptions,
                  queryEmbedding: seq<real>)
    requires forall c :: c in chunks ==> !InStage(c, stage)
    ensures Retrieve(chunks, query, stage, options, queryEmbedding).retrieved == []
  {
    NothingFits(chunks, ClassifyPrompt(query), stage, options);
    NothingSelected(query, SourcesOf(query), options, queryEmbedding);
  }

  lemma {:induction false} NothingForced(sourceIds: seq<string>)
    ensures ForceAll([], [], sourceIds) == []
  {
    if sourceIds != [] {
      NothingForced(sourceIds[1..]);
    }
  }

  /**
   * On every index without chunks of the stage "y|": after a search for "x|y" that retrieves something, the search
   * for "x" in that stage is answered with it, while recomputing retrieves nothing.
   */
  lemma PipeServed(e: Embedder, ix: Index, options: RetrievalOptions)
    requires ix.results == map[] && forall c :: c in ix.chunks ==> !InStage(c, "y|")
    requires Recompute(e, ix, "x|y", "", options).retrieved != []
    ensures var r := Recompute(e, ix, "x|y", "", options);
            && Run(e, ix, TwoSearches("x|y", "", "x", "y|", options)).1 == [r] + [r]
            && Recompute(e, AfterFirst(e, ix, "x|y", "", options), "x", "y|", options).retrieved != r.retrieved
  {
    var now := AfterFirst(e, ix, "x|y", "", options);
    SharedPipeKey(ix, options);
    SharedKeyServed(e, ix, "x|y", "", "x", "y|", options);
    SearchKeepsContent(e, ix, "x|y", "", options);
    EmptyPool(ix.chunks, "x", "y|", options, QueryEmbedding(e, now, "x", "y|"));
  }

  lemma SharedPipeKey(ix: Index, options: RetrievalOptions)
    ensures ResultKeyOf(ix, "x|y", "", options) == ResultKeyOf(ix, "x", "y|", options)
  {
    assert Lower("x|y") == "x|y" && Lower("x") == "x";
    NoExpansion("x|y");
    NoExpansion("x");
    PipeInStageCollides(ix.version, ix.registry, options);
  }

  lemma PipedToken()
    ensures "x" in Tokens(QueryText("x|y"))
  {
    assert Lower("x|y") == "x" + ['|'] + "y";
    NoExpansion("x|y");
    RunsSeparated("x", '|', "y", IsWordChar);
    RunsOfWord("x", IsWordChar);
  }

  /** Built from one note, for instance. */
  lemma PipeServedWrongly(e: Embedder, options: RetrievalOptions, version: string, registry: string) returns (ix: Index)
    requires Wide(options, 1)
    ensures InStep(e, ix) && ix.results == map[]
    ensures var r := Recompute(e, ix, "x|y", "", options);
            && Run(e, ix, TwoSearches("x|y", "", "x", "y|", options)).1 == [r] + [r]
            && Recompute(e, AfterFirst(e, ix, "x|y", "", options), "x", "y|", options).retrieved != r.retrieved
  {
    ix := OneNote(e, "note", version, registry);
    NoteIndex(e, "note", version, registry);
    PipeServedOnNote(e, ix, ix.chunks[0], options);
  }

  lemma PipeServedOnNote(e: Embedder, ix: Index, c: Chunk, options: RetrievalOptions)
    requires Wide(options, 1) && ix.results == map[] && ix.chunks == [c] && DistinctChunkIds([c])
    requires General(c) && c.text == "x" && c.stages == StagesForItem(Note("note"))
    requires c.tokenFrequencies == TokenFrequencies("x")
    ensures var r := Recompute(e, ix, "x|y", "", options);
            && Run(e, ix, TwoSearches("x|y", "", "x", "y|", options)).1 == [r] + [r]
            && Recompute(e, AfterFirst(e, ix, "x|y", "", options), "x", "y|", options).retrieved != r.retrieved
  {
    NoteElsewhere(c);
    NoteFound([c], c, options, QueryEmbedding(e, ix, "x|y", ""));
    PipeServed(e, ix, options);
  }

  lemma NoteFound(chunks: seq<Chunk>, c: Chunk, options: RetrievalOptions, queryEmbedding: seq<real>)
    requires DistinctChunkIds(chunks) && Wide(options, |chunks|) && c in chunks
    requires General(c) && c.text == "x" && c.tokenFrequencies == TokenFrequencies("x")
    ensures Retrieve(chunks, "x|y", "", options, queryEmbedding).retrieved != []
  {
    PipedToken();
    ScoreOfX(c, QueryText("x|y"));
    GeneralFits(c, ClassifyPrompt("x|y"));
    MatchIsRetrieved(chunks, "x|y", "", options, queryEmbedding, c);
  }

  lemma NoteElsewhere(c: Chunk)
    requires c.stages == StagesForItem(Note("note"))
    ensures !InStage(c, "y|")
  {
    assert c.stages == ["balanced_review"] + [] + ["repair", "strategy_coding", "strategy_reasoning"];
  }
}
