/** The mutable knowledge index and the operations on it, each proved against the index machine. */
module KnowledgeBase {
  import opened Seqs
  import opened Text
  import opened QuerySignals
  import opened CacheKeys
  import opened Ranking
  import opened Fusion
  import opened Selection
  import opened DerivedData
  import opened Retrieval
  import Machine = IndexMachine
  import IndexRuns

  /** A stored candidate; its market and platform tags may be absent. */
  datatype Candidate = Candidate(
    status: string, itemType: string, lesson: string,
    domainTags: seq<string>, marketTags: Option<seq<string>>, platformTags: Option<seq<string>>,
    trustLevel: string, sourceUri: string, stages: seq<string>)

  /** A stored proposal; an absent list is the empty one. */
  datatype Proposal = Proposal(
    status: string, sourceId: string, contentHash: string, summary: string,
    domainTags: seq<string>, marketTags: seq<string>, platformTags: seq<string>,
    trustLevel: Option<string>, sourceUrl: string, stages: seq<string>)

  /** The item id on success, else the exception that the call raises. */
  datatype Outcome = Written(itemId: string) | UnknownCandidate | Rejected | InvalidStatus

  const CANDIDATE_STATUSES := {"proposed", "needs_review", "approved", "auto_approved", "rejected", "superseded"}
  const ITEM_TYPES := {"semantic", "procedural", "episodic", "strategy_pattern", "source_ref"}
  const TRUST_LEVELS := {"low", "medium", "high", "agent_reviewed"}

  function OrGeneral(tags: seq<string>): seq<string> { Dedupe(if tags == [] then ["general"] else tags) }

  /** _item */
  function MakeItem(id: string, itemType: string, title: string, content: string, domainTags: seq<string>,
                    marketTags: seq<string>, platformTags: seq<string>, sourceType: string, sourceUri: string,
                    trustLevel: string, status: string, stages: seq<string>): Item
  {
    Item(id, if itemType in ITEM_TYPES then itemType else "semantic", title, content,
         Dedupe(domainTags), OrGeneral(marketTags), OrGeneral(platformTags),
         if trustLevel in TRUST_LEVELS then trustLevel else "medium", sourceType, sourceUri, status, Dedupe(stages))
  }

  function Default<T>(value: Option<T>, fallback: T): T { if value.Some? then value.value else fallback }

  /** _list_field */
  function Listed(values: seq<string>): seq<string> { Filter((v: string) => v != "", values) }

  function ListedOr(values: seq<string>, fallback: seq<string>): seq<string> {
    if Listed(values) == [] then fallback else Listed(values)
  }

  const DOMAIN_RULES: seq<Rule> := [
    Rule(["pine"], ["pine"]), Rule(["mql5"], ["mql5"]), Rule(["risk"], ["risk"]), Rule(["overfit"], ["anti_overfit"]),
    Rule(["lookahead"], ["repaint"]), Rule(["liquidity"], ["price_action"]), Rule(["structure"], ["price_action"]),
    Rule(["indicator"], ["indicator"])]

  const MARKET_RULES: seq<Rule> := [
    Rule(["crypto", "bitcoin", "btc", "ethereum", "eth", "altcoin", "perpetual", "funding"], ["crypto"]),
    Rule(["forex", "fx", "eurusd", "gbpusd", "usdjpy", "london", "new york", "rollover"], ["forex"])]

  /** _infer_domain_tags and _infer_market_tags: the tags of the rules that fire, or the general one. */
  function Inferred(rules: seq<Rule>, content: string, general: string): seq<string> {
    var found := Fired(rules, Lower(content)); Dedupe(if found == [] then [general] else found)
  }

  /** _item_from_candidate */
  function ItemFromCandidate(id: string, c: Candidate): Item {
    MakeItem("lesson-" + id, c.itemType, "Approved lesson " + id, c.lesson, c.domainTags,
             Default(c.marketTags, ["general"]), Default(c.platformTags, ["pine_v6"]),
             "approved_candidate", if c.sourceUri != "" then c.sourceUri else "candidate:" + id,
             if c.trustLevel != "" then c.trustLevel else "medium", "approved", Listed(c.stages))
  }

  /** The item that approve_source_summary builds: tags that the proposal lacks are inferred from the summary. */
  function ItemFromProposal(p: Proposal): Item {
    MakeItem("curated-" + p.sourceId + "-" + Head(p.contentHash, 12), "semantic",
             "Curated source summary: " + p.sourceId, p.summary,
             ListedOr(p.domainTags, Inferred(DOMAIN_RULES, p.summary, "trading")),
             ListedOr(p.marketTags, Inferred(MARKET_RULES, p.summary, "general")),
             ListedOr(p.platformTags, ["general"]),
             "approved_source_summary", p.sourceUrl, Default(p.trustLevel, "medium"), "approved",
             ListedOr(p.stages, ["strategy_reasoning", "balanced_review", "repair"]))
  }

  class KnowledgeIndex {
    const embedder: Embedder
    var items: seq<Item>
    var sources: seq<Source>
    var chunks: seq<Chunk>
    var retrieval: RetrievalIndex
    var config: Machine.Config
    var version: string
    var registry: string
    var embeddings: map<string, seq<real>>
    var results: map<string, Machine.CachedResult>
    var candidates: map<string, Candidate>

    ghost function View(): Machine.Index
      reads this
    {
      Machine.Index(items, sources, chunks, retrieval, config, version, registry, embeddings, results)
    }

    /** Sources, chunks and inverted index are what the items determine. */
    ghost predicate Valid()
      reads this
    {
      Machine.InStep(embedder, View())
    }

    /** build_knowledge_index, for items that are already built. */
    constructor (embedder: Embedder, items: seq<Item>, config: Machine.Config, registry: string)
      ensures this.embedder == embedder && this.items == items && this.config == config
      ensures embeddings == map[] && results == map[] && candidates == map[]
      ensures Valid() <==> Distinct(Map(ItemId, items))
    {
      this.embedder, this.items, this.config := embedder, items, config;
      this.version, this.registry := "1", registry;
      sources := Map(SourceFromItem, items);
      var built := ChunksForItems(embedder, items, config.model, config.provider);
      chunks := built;
      retrieval := RetrievalPayload(built);
      embeddings, results, candidates := map[], map[], map[];
    }

    /** _local_query_embedding */
    method LocalQueryEmbedding(query: string, stage: string) returns (embedding: seq<real>, hit: bool)
      modifies this`embeddings
      ensures embedding == Machine.QueryEmbedding(embedder, old(View()), query, stage)
      ensures hit <==> Machine.EmbeddingKeyOf(old(View()), query, stage) in old(embeddings)
      ensures embeddings == old(embeddings)[Machine.EmbeddingKeyOf(old(View()), query, stage) := embedding]
    {
      var key := EmbeddingKey(QueryText(query), stage, config.provider, config.model, version);
      if key in embeddings {
        embedding, hit := embeddings[key], true;
        assert embeddings[key := embedding] == embeddings;
      } else {
        embedding, hit := Embed(embedder, QueryText(query), config.model, config.provider), false;
        embeddings := embeddings[key := embedding];
      }
    }

    /** search_knowledge */
    method Search(query: string, stage: string, options: RetrievalOptions) returns (result: SearchResult)
      modifies this`embeddings, this`results
      ensures (View(), result) == Machine.Search(embedder, old(View()), query, stage, options)
    {
      var queryText, intent := QueryText(query), ClassifyPrompt(query);
      var pool := Pool(chunks, intent, stage, options);
      var key := ResultKey(queryText, stage, version, registry, options);
      if key in results {
        return results[key].result;
      }
      var embedding, hit := LocalQueryEmbedding(query, stage);
      var hits := RankAndSelect(pool, query, intent, options, embedding);
      result := SearchResult(intent, ExpandQueryTerms(query), ShowAll(hits, options.maxCharsPerChunk));
      results := results[key := Machine.CachedResult(query, stage, options, result)];
    }

    /** The middle of search_knowledge: both rankings, fusion, reranking and the two forcing passes. */
    method RankAndSelect(pool: seq<Chunk>, query: string, intent: Intent, options: RetrievalOptions,
                         embedding: seq<real>)
      returns (hits: seq<Hit>)
      requires intent == ClassifyPrompt(query)
      ensures hits == Select(RerankedHits(pool, query, options, embedding), pool, RequiredSourceIds(query, intent),
                             options.limit, QueryText(query), embedding)
    {
      var lexical := Head(RankLexical(pool, QueryText(query)), options.lexicalLimit);
      var vector := Head(RankVector(pool, embedding), options.vectorLimit);
      var merged := RrfMergeTables(lexical, vector);
      var reranked := Rerank(merged, intent, ExpandQueryTerms(query), query);
      var forced := EnsureRequiredChunks(reranked, pool, RequiredSourceIds(query, intent));
      hits := EnsureApproved(forced, options.limit, pool, QueryText(query), embedding);
    }

    /** The rewrite that all mutators share: replace items by id, then derive everything again. */
    method ReplaceItems(added: seq<Item>, embedding: Machine.Config)
      modifies this`items, this`sources, this`config, this`chunks, this`retrieval
      ensures View() == Machine.Replaced(embedder, old(View()), added, embedding)
    {
      ghost var was := View();
      var ids := Map(ItemId, added);
      var kept := Machine.ItemsWithout(items, ids) + added;
      var named := Machine.SourcesWithout(sources, ids) + Map(SourceFromItem, added);
      var built := ChunksForItems(embedder, kept, embedding.model, embedding.provider);
      var payload := RetrievalIndexPayload(built);
      items, sources, config, chunks, retrieval := kept, named, embedding, built, payload;
      assert View() == Machine.Rebuilt(embedder, was, kept, named, embedding);
    }

    /** _write_approved_items_to_index */
    method WriteApprovedItems(added: seq<Item>)
      modifies this
      ensures View() == Machine.WriteApproved(embedder, old(View()), added) && candidates == old(candidates)
      ensures old(Valid()) ==> (Valid() <==> Distinct(Map(ItemId, added)))
    {
      ghost var before, was := View(), Valid();
      ReplaceItems(added, config);
      results := map[];
      ghost var now := View();
      assert now == Machine.Replaced(embedder, before, added, before.config).(results := map[]);
      IndexRuns.WriteKeepsStep(embedder, before, added);
      assert was ==> (Machine.InStep(embedder, now) <==> Distinct(Map(ItemId, added)));
    }

    /** approve_source_summary */
    method ApproveSourceSummary(p: Proposal) returns (outcome: Outcome)
      modifies this
      ensures p.status == "rejected" <==> outcome == Rejected
      ensures outcome == Rejected ==> View() == old(View())
      ensures outcome != Rejected ==>
                && outcome == Written(ItemFromProposal(p).id)
                && View() == Machine.WriteApproved(embedder, old(View()), [ItemFromProposal(p)])
      ensures candidates == old(candidates) && (old(Valid()) ==> Valid())
    {
      if p.status == "rejected" {
        return Rejected;
      }
      WriteApprovedItems([ItemFromProposal(p)]);
      outcome := Written(ItemFromProposal(p).id);
    }

    /** approve_candidate */
    method ApproveCandidate(id: string, approvedStatus: string) returns (outcome: Outcome)
      modifies this
      ensures outcome == InvalidStatus <==> approvedStatus !in CANDIDATE_STATUSES
      ensures outcome == UnknownCandidate <==> approvedStatus in CANDIDATE_STATUSES && id !in old(candidates)
      ensures outcome == Rejected <==>
              approvedStatus in CANDIDATE_STATUSES && id in old(candidates) && old(candidates)[id].status == "rejected"
      ensures !outcome.Written? ==> View() == old(View()) && candidates == old(candidates)
      ensures outcome.Written? ==>
                && var c := old(candidates)[id].(status := approvedStatus);
                && outcome.itemId == "lesson-" + id
                && candidates == old(candidates)[id := c]
                && View() == Machine.WriteApproved(embedder, old(View()), [ItemFromCandidate(id, c)])
      ensures old(Valid()) ==> Valid()
    {
      if approvedStatus !in CANDIDATE_STATUSES {
        return InvalidStatus;
      }
      if id !in candidates {
        return UnknownCandidate;
      }
      var candidate := candidates[id];
      if candidate.status == "rejected" {
        return Rejected;
      }
      candidate := candidate.(status := approvedStatus);
      candidates := candidates[id := candidate];
      WriteApprovedItems([ItemFromCandidate(id, candidate)]);
      outcome := Written("lesson-" + id);
    }

    /** ingest_knowledge_source, for an item that is already read; the result cache keeps its entries. */
    method IngestSource(item: Item, embedding: Machine.Config)
      modifies this
      ensures View() == Machine.Ingest(embedder, old(View()), item, embedding) && candidates == old(candidates)
      ensures results == old(results) && (old(Valid()) ==> Valid())
    {
      IndexRuns.ReplacedKeepsStep(embedder, View(), [item], embedding);
      ReplaceItems([item], embedding);
    }
  }
}
