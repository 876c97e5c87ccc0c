/** What runs of the knowledge index keep: derived data in step, caches that cannot be seen. */
module IndexRuns {
  import opened Seqs
  import opened Text
  import opened QuerySignals
  import opened CacheKeys
  import opened Ranking
  import opened DerivedData
  import opened IndexMachine

  // Derived data stays in step with the items

  lemma ExcludingDistinct(items: seq<Item>, ids: seq<string>)
    requires Distinct(Map(ItemId, items))
    ensures Distinct(Map(ItemId, ItemsWithout(items, ids)))
  {
    var f := (item: Item) => if item.id in ids then None else Some(item);
    CollectDistinct(f, ItemId, ItemId, items);
    ExcludingIsCollect(items, ids, f);
  }

  lemma {:induction false} ExcludingIsCollect(items: seq<Item>, ids: seq<string>, f: Item -> Option<Item>)
    requires forall item :: f(item) == if item.id in ids then None else Some(item)
    ensures ItemsWithout(items, ids) == Collect(f, items)
  {
    if items != [] {
      ExcludingIsCollect(items[1..], ids, f);
    }
  }

  lemma {:induction false} SourcesFollow(items: seq<Item>, ids: seq<string>)
    ensures SourcesWithout(Map(SourceFromItem, items), ids) == Map(SourceFromItem, ItemsWithout(items, ids))
  {
    if items != [] {
      var sources := Map(SourceFromItem, items);
      assert sources[1..] == Map(SourceFromItem, items[1..]);
      SourcesFollow(items[1..], ids);
    }
  }

  lemma ReplacedIds(before: seq<Item>, items: seq<Item>)
    requires Distinct(Map(ItemId, before))
    ensures Distinct(Map(ItemId, ItemsWithout(before, Map(ItemId, items)) + items)) <==> Distinct(Map(ItemId, items))
  {
    var ids := Map(ItemId, items);
    var kept := ItemsWithout(before, ids);
    ExcludingDistinct(before, ids);
    assert Map(ItemId, kept + items) == Map(ItemId, kept) + ids;
    DistinctAppend(Map(ItemId, kept), ids);
    forall k | k in Map(ItemId, kept) ensures k !in ids {
      var i :| 0 <= i < |kept| && kept[i].id == k;
      assert kept[i] in kept;
    }
  }

  lemma ReplacedSources(before: seq<Item>, items: seq<Item>)
    ensures var ids := Map(ItemId, items);
            SourcesWithout(Map(SourceFromItem, before), ids) + Map(SourceFromItem, items)
            == Map(SourceFromItem, ItemsWithout(before, ids) + items)
  {
    var kept := ItemsWithout(before, Map(ItemId, items));
    SourcesFollow(before, Map(ItemId, items));
    assert Map(SourceFromItem, kept + items) == Map(SourceFromItem, kept) + Map(SourceFromItem, items);
  }

  /**
   * Replacing items keeps every derived table in step exactly when the new items have distinct ids; old items
   * with those ids are gone, all others stay, in their order.
   */
  lemma ReplacedInStep(e: Embedder, ix: Index, items: seq<Item>, config: Config)
    requires InStep(e, ix)
    ensures InStep(e, Replaced(e, ix, items, config)) <==> Distinct(Map(ItemId, items))
    ensures var now := Replaced(e, ix, items, config).items;
            forall x :: x in now <==> x in items || (x in ix.items && x.id !in Map(ItemId, items))
  {
    ReplacedIds(ix.items, items);
    ReplacedSources(ix.items, items);
  }

  lemma ReplacedKeepsStep(e: Embedder, ix: Index, items: seq<Item>, config: Config)
    ensures InStep(e, ix) ==> (InStep(e, Replaced(e, ix, items, config)) <==> Distinct(Map(ItemId, items)))
  {
    if InStep(e, ix) {
      ReplacedInStep(e, ix, items, config);
    }
  }

  // Commands and runs

  lemma SearchApplied(e: Embedder, ix: Index, query: string, stage: string, options: RetrievalOptions)
    ensures InStep(e, Apply(e, ix, DoSearch(query, stage, options)).0) <==> InStep(e, ix)
  {
    SearchInStep(e, ix, query, stage, options);
  }

  lemma WriteApplied(e: Embedder, ix: Index, items: seq<Item>)
    ensures Apply(e, ix, DoWriteApproved(items)).0 == WriteApproved(e, ix, items)
    ensures InStep(e, ix) && Distinct(Map(ItemId, items)) ==> InStep(e, WriteApproved(e, ix, items))
  {
    WriteKeepsStep(e, ix, items);
  }

  lemma IngestApplied(e: Embedder, ix: Index, item: Item, config: Config)
    ensures Apply(e, ix, DoIngest(item, config)).0 == Ingest(e, ix, item, config)
  {}

  lemma IngestKeepsStep(e: Embedder, ix: Index, item: Item, config: Config)
    ensures InStep(e, ix) ==> InStep(e, Ingest(e, ix, item, config))
  {
    ReplacedKeepsStep(e, ix, [item], config);
  }

  /** Every command keeps the derived data in step. */
  lemma ApplyInStep(e: Embedder, ix: Index, c: Command)
    ensures InStep(e, ix) && DistinctBatch(c) ==> InStep(e, Apply(e, ix, c).0)
  {
    match c
    case DoSearch(q, s, o) => SearchApplied(e, ix, q, s, o);
    case DoApproveCandidate(item) => WriteApplied(e, ix, [item]);
    case DoApproveSummary(item) => WriteApplied(e, ix, [item]);
    case DoWriteApproved(items) => WriteApplied(e, ix, items);
    case DoIngest(item, config) =>
      IngestApplied(e, ix, item, config);
      IngestKeepsStep(e, ix, item, config);
  }

  lemma WriteKeepsStep(e: Embedder, ix: Index, items: seq<Item>)
    ensures InStep(e, ix) ==> (InStep(e, WriteApproved(e, ix, items)) <==> Distinct(Map(ItemId, items)))
  {
    ReplacedKeepsStep(e, ix, items, ix.config);
  }

  lemma SearchInStep(e: Embedder, ix: Index, query: string, stage: string, options: RetrievalOptions)
    ensures InStep(e, Search(e, ix, query, stage, options).0) <==> InStep(e, ix)
  {}

  lemma {:induction false} RunInStep(e: Embedder, ix: Index, cs: seq<Command>)
    requires InStep(e, ix) && forall c :: c in cs ==> DistinctBatch(c)
    ensures InStep(e, Run(e, ix, cs).0)
    ensures DistinctChunkIds(Run(e, ix, cs).0.chunks)
    decreases |cs|
  {
    if cs == [] {
      ChunkIdsDistinct(e, ix.items, ix.config.model, ix.config.provider);
    } else {
      assert cs[0] in cs && forall c :: c in cs[1..] ==> c in cs;
      ApplyInStep(e, ix, cs[0]);
      RunInStep(e, Apply(e, ix, cs[0]).0, cs[1..]);
    }
  }

  // Soundness of the embedding cache

  /** The local embedding is a function of the normalised text. */
  lemma EmbedNormalized(e: Embedder, t1: string, t2: string, model: string)
    requires Normalize(t1) == Normalize(t2)
    ensures Embed(e, t1, model, LOCAL) == Embed(e, t2, model, LOCAL)
  {
    TokensOfNormalize(t1);
    TokensOfNormalize(t2);
  }

  lemma PipeFreeLocal()
    ensures PipeFree(LOCAL)
  {}

  /** A new entry is the local embedding of every text that has its key. */
  lemma AddedEntrySound(e: Embedder, ix: Index, query: string, stage: string, t: string, s: string, m: string)
    requires PipeFree(stage) && PlainConfig(ix.config) && PipeFree(s) && PipeFree(m)
    requires EmbeddingKey(t, s, LOCAL, m, ix.version) == EmbeddingKeyOf(ix, query, stage)
    requires EmbeddingKeyOf(ix, query, stage) !in ix.embeddings
    ensures QueryEmbedding(e, ix, query, stage) == Embed(e, t, m, LOCAL)
  {
    PipeFreeLocal();
    EmbeddingKeyDetermines(t, s, LOCAL, m, QueryText(query), stage, ix.config.provider, ix.config.model, ix.version);
    EmbedNormalized(e, t, QueryText(query), m);
  }

  lemma SearchEmbeddings(e: Embedder, ix: Index, query: string, stage: string, options: RetrievalOptions)
    ensures var now, added := Search(e, ix, query, stage, options).0, EmbeddingKeyOf(ix, query, stage);
            now.version == ix.version
            && (now.embeddings == ix.embeddings
                || now.embeddings == ix.embeddings[added := QueryEmbedding(e, ix, query, stage)])
  {}

  lemma SearchEmbeddingSound(e: Embedder, ix: Index, query: string, stage: string, options: RetrievalOptions)
    requires EmbeddingSound(e, ix) && PipeFree(stage) && PlainConfig(ix.config)
    ensures EmbeddingSound(e, Search(e, ix, query, stage, options).0)
  {
    var now := Search(e, ix, query, stage, options).0;
    SearchEmbeddings(e, ix, query, stage, options);
    forall t, s, m | PipeFree(s) && PipeFree(m) && EmbeddingKey(t, s, LOCAL, m, ix.version) in now.embeddings
      ensures now.embeddings[EmbeddingKey(t, s, LOCAL, m, ix.version)] == Embed(e, t, m, LOCAL)
    {
      if EmbeddingKey(t, s, LOCAL, m, ix.version) !in ix.embeddings {
        AddedEntrySound(e, ix, query, stage, t, s, m);
      }
    }
  }

  /** In every run, across model and provider changes, the embedding cache stays sound. */
  lemma {:induction false} EmbeddingCacheSound(e: Embedder, ix: Index, cs: seq<Command>)
    requires EmbeddingSound(e, ix) && PlainConfig(ix.config) && PlainCommands(cs)
    ensures EmbeddingSound(e, Run(e, ix, cs).0)
    decreases |cs|
  {
    if cs != [] {
      assert cs[0] in cs && forall c :: c in cs[1..] ==> c in cs;
      if cs[0].DoSearch? {
        SearchEmbeddingSound(e, ix, cs[0].query, cs[0].stage, cs[0].options);
      }
      EmbeddingCacheSound(e, Apply(e, ix, cs[0]).0, cs[1..]);
    }
  }

  // Both caches switched off

  lemma QueryEmbeddingIsLocal(e: Embedder, ix: Index, query: string, stage: string)
    requires EmbeddingSound(e, ix) && PlainConfig(ix.config) && ix.config.provider == LOCAL && PipeFree(stage)
    ensures QueryEmbedding(e, ix, query, stage) == Embed(e, QueryText(query), ix.config.model, LOCAL)
  {}

  lemma ColdMatchesPlain(e: Embedder, ix: Index, c: Command)
    requires EmbeddingSound(e, ix) && PlainConfig(ix.config) && ix.config.provider == LOCAL && ix.results == map[]
    requires PlainCommands([c]) && LocalCommands([c])
    ensures ColdApply(e, ix, c).1 == PlainApply(e, Stripped(ix), c).1
    ensures Stripped(ColdApply(e, ix, c).0) == PlainApply(e, Stripped(ix), c).0
    ensures var now := ColdApply(e, ix, c).0;
            EmbeddingSound(e, now) && PlainConfig(now.config) && now.config.provider == LOCAL && now.results == map[]
  {
    assert c in [c];
    if c.DoSearch? {
      SearchEmbeddingSound(e, ix, c.query, c.stage, c.options);
      QueryEmbeddingIsLocal(e, ix, c.query, c.stage);
      assert Bare(ix) == ix;
    }
  }

  lemma {:induction false} ColdRunIsPlain(e: Embedder, ix: Index, cs: seq<Command>)
    requires EmbeddingSound(e, ix) && PlainConfig(ix.config) && ix.config.provider == LOCAL && ix.results == map[]
    requires PlainCommands(cs) && LocalCommands(cs)
    ensures ColdRun(e, ix, cs).1 == PlainRun(e, Stripped(ix), cs).1
    decreases |cs|
  {
    if cs != [] {
      assert cs[0] in cs && forall c :: c in cs[1..] ==> c in cs;
      ColdMatchesPlain(e, ix, cs[0]);
      ColdRunIsPlain(e, ColdApply(e, ix, cs[0]).0, cs[1..]);
    }
  }
}
