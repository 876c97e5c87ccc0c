/** The knowledge index as a value: its operations, its invariants, and runs of commands. */
module IndexMachine {
  import opened Seqs
  import opened QuerySignals
  import opened CacheKeys
  import opened Ranking
  import opened DerivedData
  import opened Retrieval

  datatype Config = Config(provider: string, model: string)

  /** A cached result, with the request that produced it. */
  datatype CachedResult = CachedResult(query: string, stage: string, options: RetrievalOptions, result: SearchResult)

  datatype Index = Index(
    items: seq<Item>, sources: seq<Source>, chunks: seq<Chunk>, retrieval: RetrievalIndex,
    config: Config, version: string, registry: string,
    embeddings: map<string, seq<real>>, results: map<string, CachedResult>)

  // Mutators

  /** Items, sources and everything derived from them; both caches are untouched. */
  function Rebuilt(e: Embedder, ix: Index, items: seq<Item>, sources: seq<Source>, config: Config): Index {
    var chunks := ChunksForItems(e, items, config.model, config.provider);
    ix.(items := items, sources := sources, chunks := chunks, retrieval := RetrievalPayload(chunks), config := config)
  }

  function ItemsWithout(items: seq<Item>, ids: seq<string>): seq<Item> { Excluding(ItemId, items, ids) }

  function SourcesWithout(sources: seq<Source>, ids: seq<string>): seq<Source> { Excluding(SourceId, sources, ids) }

  /** Replace the items with these ids by these items, at the end of the list. */
  function Replaced(e: Embedder, ix: Index, items: seq<Item>, config: Config): Index {
    var ids := Map(ItemId, items);
    Rebuilt(e, ix, ItemsWithout(ix.items, ids) + items, SourcesWithout(ix.sources, ids) + Map(SourceFromItem, items),
            config)
  }

  /** _write_approved_items_to_index; approve_candidate and approve_source_summary are the case of one item. */
  function WriteApproved(e: Embedder, ix: Index, items: seq<Item>): Index {
    Replaced(e, ix, items, ix.config).(results := map[])
  }

  /** ingest_knowledge_source: the embedding configuration changes, the result cache is not reset. */
  function Ingest(e: Embedder, ix: Index, item: Item, config: Config): Index {
    Replaced(e, ix, [item], config)
  }

  // Search

  function EmbeddingKeyOf(ix: Index, query: string, stage: string): string {
    EmbeddingKey(QueryText(query), stage, ix.config.provider, ix.config.model, ix.version)
  }

  function ResultKeyOf(ix: Index, query: string, stage: string, options: RetrievalOptions): string {
    ResultKey(QueryText(query), stage, ix.version, ix.registry, options)
  }

  /** _local_query_embedding: the cached embedding, or a computed one. */
  function QueryEmbedding(e: Embedder, ix: Index, query: string, stage: string): seq<real> {
    var key := EmbeddingKeyOf(ix, query, stage);
    if key in ix.embeddings then ix.embeddings[key] else Embed(e, QueryText(query), ix.config.model, ix.config.provider)
  }

  /** The search that a cold result cache performs. */
  function Recompute(e: Embedder, ix: Index, query: string, stage: string, options: RetrievalOptions): SearchResult {
    Retrieve(ix.chunks, query, stage, options, QueryEmbedding(e, ix, query, stage))
  }

  /** search_knowledge */
  function Search(e: Embedder, ix: Index, query: string, stage: string, options: RetrievalOptions)
    : (Index, SearchResult)
  {
    var key := ResultKeyOf(ix, query, stage, options);
    if key in ix.results then (ix, ix.results[key].result)
    else
      var result := Recompute(e, ix, query, stage, options);
      (ix.(embeddings := ix.embeddings[EmbeddingKeyOf(ix, query, stage) := QueryEmbedding(e, ix, query, stage)],
           results := ix.results[key := CachedResult(query, stage, options, result)]),
       result)
  }

  // Derived data stays in step with the items

  ghost predicate InStep(e: Embedder, ix: Index) {
    && Distinct(Map(ItemId, ix.items))
    && ix.sources == Map(SourceFromItem, ix.items)
    && ix.chunks == ChunksForItems(e, ix.items, ix.config.model, ix.config.provider)
    && ix.retrieval == RetrievalPayload(ix.chunks)
  }

  // Commands and runs

  datatype Command =
    | DoSearch(query: string, stage: string, options: RetrievalOptions)
    | DoApproveCandidate(item: Item)
    | DoApproveSummary(item: Item)
    | DoWriteApproved(items: seq<Item>)
    | DoIngest(item: Item, config: Config)

  /** One command: the new index and, for a search, its result. */
  function Apply(e: Embedder, ix: Index, c: Command): (Index, seq<SearchResult>) {
    match c
    case DoSearch(q, s, o) => var (now, r) := Search(e, ix, q, s, o); (now, [r])
    case DoApproveCandidate(item) => (WriteApproved(e, ix, [item]), [])
    case DoApproveSummary(item) => (WriteApproved(e, ix, [item]), [])
    case DoWriteApproved(items) => (WriteApproved(e, ix, items), [])
    case DoIngest(item, config) => (Ingest(e, ix, item, config), [])
  }

  function Run(e: Embedder, ix: Index, cs: seq<Command>): (Index, seq<SearchResult>)
    decreases |cs|
  {
    if cs == [] then (ix, [])
    else
      var (now, r) := Apply(e, ix, cs[0]);
      var (end, rs) := Run(e, now, cs[1..]);
      (end, r + rs)
  }

  ghost predicate DistinctBatch(c: Command) { c.DoWriteApproved? ==> Distinct(Map(ItemId, c.items)) }

  // The result cache switched off

  /** The same run with the result cache switched off: every search recomputes. */
  function ColdApply(e: Embedder, ix: Index, c: Command): (Index, seq<SearchResult>) {
    var (now, r) := Apply(e, Bare(ix), c); (Bare(now), r)
  }

  function ColdRun(e: Embedder, ix: Index, cs: seq<Command>): (Index, seq<SearchResult>)
    decreases |cs|
  {
    if cs == [] then (ix, [])
    else
      var (now, r) := ColdApply(e, ix, cs[0]);
      var (end, rs) := ColdRun(e, now, cs[1..]);
      (end, r + rs)
  }

  function Bare(ix: Index): Index { ix.(results := map[]) }

  // Soundness of the embedding cache

  /** Every entry is the local embedding of every query text that has its key. */
  ghost predicate EmbeddingSound(e: Embedder, ix: Index) {
    forall t, s, m :: PipeFree(s) && PipeFree(m) && EmbeddingKey(t, s, LOCAL, m, ix.version) in ix.embeddings ==>
                        ix.embeddings[EmbeddingKey(t, s, LOCAL, m, ix.version)] == Embed(e, t, m, LOCAL)
  }

  predicate PlainConfig(config: Config) { PipeFree(config.provider) && PipeFree(config.model) }

  predicate PlainCommands(cs: seq<Command>) {
    forall c :: c in cs ==> (c.DoSearch? ==> PipeFree(c.stage)) && (c.DoIngest? ==> PlainConfig(c.config))
  }

  // Both caches switched off

  function Stripped(ix: Index): Index { ix.(embeddings := map[], results := map[]) }

  /** What a search without caches returns. */
  function PlainAnswer(e: Embedder, chunks: seq<Chunk>, config: Config, query: string, stage: string,
                       options: RetrievalOptions): SearchResult
  {
    Retrieve(chunks, query, stage, options, Embed(e, QueryText(query), config.model, config.provider))
  }

  /** A search is one pass of the pipeline on a freshly computed embedding; no cache is read or written. */
  function PlainApply(e: Embedder, ix: Index, c: Command): (Index, seq<SearchResult>) {
    if c.DoSearch? then
      (ix, [PlainAnswer(e, ix.chunks, ix.config, c.query, c.stage, c.options)])
    else (Stripped(Apply(e, ix, c).0), [])
  }

  function PlainRun(e: Embedder, ix: Index, cs: seq<Command>): (Index, seq<SearchResult>)
    decreases |cs|
  {
    if cs == [] then (ix, [])
    else
      var (now, r) := PlainApply(e, ix, cs[0]);
      var (end, rs) := PlainRun(e, now, cs[1..]);
      (end, r + rs)
  }

  predicate LocalCommands(cs: seq<Command>) { forall c :: c in cs && c.DoIngest? ==> c.config.provider == LOCAL }
}
