/** What approving a lesson or a summary puts into the index, and that the next search finds it. */
module Approvals {
  import opened Seqs
  import opened Text
  import opened QuerySignals
  import opened CacheKeys
  import opened Ranking
  import opened Selection
  import opened DerivedData
  import opened Retrieval
  import opened IndexMachine
  import opened IndexRuns
  import opened KnowledgeBase
  import Chunker

  /** A chunk carries its item's tags, trust, source and status, and is found under the item's id. */
  lemma ChunkCarries(e: Embedder, item: Item, model: string, provider: string, c: Chunk)
    requires c in ChunksOfItem(e, item, model, provider)
    ensures c.itemId == item.id && c.sourceId == item.id && c.title == item.title && c.itemType == item.itemType
    ensures c.domainTags == item.domainTags && c.marketTags == item.marketTags && c.platformTags == item.platformTags
    ensures c.trustLevel == item.trustLevel && c.sourceType == item.sourceType && c.sourceUri == item.sourceUri
    ensures c.status == item.status && c.embeddingModel == model && c.embeddingProvider == provider
    ensures c.searchTerms == Tokens(c.text) && c.embedding == Embed(e, c.text, model, provider)
    ensures exists i: nat :: i < |Chunker.ChunkText(item.content)| && c.text == Chunker.ChunkText(item.content)[i].text
  {
    var chunks := ChunksOfItem(e, item, model, provider);
    var i :| 0 <= i < |chunks| && chunks[i] == c;
    assert c == MakeChunk(e, item, Chunker.ChunkText(item.content)[i], i, model, provider);
  }

  /** Every chunk of an approved candidate is approved and searched; of an approved summary, searched and curated. */
  lemma ApprovedChunks(e: Embedder, id: string, candidate: Candidate, p: Proposal, model: string, provider: string)
    ensures forall c :: c in ChunksOfItem(e, ItemFromCandidate(id, candidate), model, provider) ==>
                          Approved(c) && Active(c) && c.sourceId == "lesson-" + id
    ensures forall c :: c in ChunksOfItem(e, ItemFromProposal(p), model, provider) ==>
                          !Approved(c) && Active(c) && c.sourceType == "approved_source_summary"
  {
    forall c | c in ChunksOfItem(e, ItemFromCandidate(id, candidate), model, provider)
      ensures Approved(c) && Active(c) && c.sourceId == "lesson-" + id
    {
      ChunkCarries(e, ItemFromCandidate(id, candidate), model, provider, c);
    }
    forall c | c in ChunksOfItem(e, ItemFromProposal(p), model, provider)
      ensures !Approved(c) && Active(c) && c.sourceType == "approved_source_summary"
    {
      ChunkCarries(e, ItemFromProposal(p), model, provider, c);
    }
  }

  lemma LessonIndexed(e: Embedder, ix: Index, item: Item)
    requires InStep(e, ix)
    ensures var now := WriteApproved(e, ix, [item]);
            && now.results == map[] && DistinctChunkIds(now.chunks)
            && forall c :: c in ChunksOfItem(e, item, ix.config.model, ix.config.provider) ==> c in now.chunks
  {
    var now := WriteApproved(e, ix, [item]);
    WriteKeepsStep(e, ix, [item]);
    assert InStep(e, now);
    ChunkIdsDistinct(e, now.items, now.config.model, now.config.provider);
    assert now.items[|now.items| - 1] == item;
    ItemChunks(e, now.items, item, ix.config.model, ix.config.provider);
  }

  lemma ApprovedInPool(chunks: seq<Chunk>, query: string, stage: string, options: RetrievalOptions, c: Chunk)
    requires c in chunks && Fits(c, ClassifyPrompt(query), stage) && |chunks| <= options.prefilterLimit
    ensures c in Pool(chunks, ClassifyPrompt(query), stage, options)
  {
    FittingFew(chunks, ClassifyPrompt(query), stage);
    PoolKeeps(chunks, ClassifyPrompt(query), stage, options);
  }

  lemma FirstSearchRecomputes(e: Embedder, ix: Index, query: string, stage: string, options: RetrievalOptions)
    requires ix.results == map[]
    ensures Search(e, ix, query, stage, options).1
            == Retrieve(ix.chunks, query, stage, options, QueryEmbedding(e, ix, query, stage))
  {}

  /** The first search after the approval of a lesson that it matches strongly shows an approved lesson. */
  lemma LessonRetrieved(e: Embedder, ix: Index, id: string, candidate: Candidate, query: string, stage: string,
                        options: RetrievalOptions, c: Chunk)
    requires InStep(e, ix)
    requires c in ChunksOfItem(e, ItemFromCandidate(id, candidate), ix.config.model, ix.config.provider)
    requires options.limit > 0 && query != "" && Relevant(c, ClassifyPrompt(query)) && InStage(c, stage)
    requires var now := WriteApproved(e, ix, [ItemFromCandidate(id, candidate)]);
             |now.chunks| <= options.prefilterLimit
             && StrongMatch(c, QueryText(query), QueryEmbedding(e, now, query, stage))
    ensures var now := WriteApproved(e, ix, [ItemFromCandidate(id, candidate)]);
            exists r :: r in Search(e, now, query, stage, options).1.retrieved && r.sourceType == "approved_candidate"
  {
    var item := ItemFromCandidate(id, candidate);
    var now := WriteApproved(e, ix, [item]);
    LessonIndexed(e, ix, item);
    ChunkCarries(e, item, ix.config.model, ix.config.provider, c);
    ApprovedInPool(now.chunks, query, stage, options, c);
    FirstSearchRecomputes(e, now, query, stage, options);
    ApprovedCandidateRetrieved(now.chunks, query, stage, options, QueryEmbedding(e, now, query, stage), c);
  }

  // Tags that a proposal or a candidate lacks

  /** The tag is one of a rule that the text fires, or the general one when it fires none. */
  ghost predicate Suits(rules: seq<Rule>, lowered: string, general: string, tag: string) {
    (exists r :: r in rules && ContainsAny(lowered, r.triggers) && tag in r.terms)
    || (tag == general && forall r :: r in rules ==> !ContainsAny(lowered, r.triggers))
  }

  ghost predicate PlainTags(tags: seq<string>) { forall t :: t in tags ==> Trimmed(t) }

  ghost predicate PlainRules(rules: seq<Rule>) { forall r :: r in rules ==> r.terms != [] && PlainTags(r.terms) }

  lemma DedupePlain(tags: seq<string>, tag: string)
    requires PlainTags(tags)
    ensures tag in Dedupe(tags) <==> tag in tags
    ensures Dedupe(tags) == [] <==> tags == []
  {
    forall t | t in tags ensures Strip(t) == t && t != "" {
      StripOfTrimmed(t);
    }
    if tags != [] {
      assert tags[0] in tags && tags[0] in Dedupe(tags);
    } else {
      assert Map(Strip, tags) == [];
    }
  }

  /** Inferred are the tags of the rules that the text fires, the general one if it fires none. */
  lemma InferredIff(rules: seq<Rule>, content: string, general: string, tag: string)
    requires PlainRules(rules) && Trimmed(general)
    ensures tag in Inferred(rules, content, general) <==> Suits(rules, Lower(content), general, tag)
    ensures PlainTags(Inferred(rules, content, general)) && Inferred(rules, content, general) != []
  {
    var found := Fired(rules, Lower(content));
    FiredPlain(rules, Lower(content));
    DedupePlain(if found == [] then [general] else found, tag);
    forall t | t in Inferred(rules, content, general) ensures Trimmed(t) {
      DedupePlain(if found == [] then [general] else found, t);
    }
  }

  lemma FiredPlain(rules: seq<Rule>, lowered: string)
    requires PlainRules(rules)
    ensures PlainTags(Fired(rules, lowered))
    ensures Fired(rules, lowered) == [] <==> forall r :: r in rules ==> !ContainsAny(lowered, r.triggers)
  {
    var found := Fired(rules, lowered);
    if r :| r in rules && ContainsAny(lowered, r.triggers) {
      assert r.terms[0] in found;
    } else {
      NothingFires(rules, lowered);
    }
  }

  lemma TagsTrimmed()
    ensures Trimmed("pine") && Trimmed("mql5") && Trimmed("risk") && Trimmed("anti_overfit") && Trimmed("repaint")
    ensures Trimmed("price_action") && Trimmed("indicator") && Trimmed("crypto") && Trimmed("forex")
  {}

  lemma TagsPlain()
    ensures PlainRules(DOMAIN_RULES) && PlainRules(MARKET_RULES)
  {
    TagsTrimmed();
  }

  /** A proposal without tags gets those that its summary mentions. */
  lemma ProposalTags(p: Proposal, tag: string)
    ensures p.marketTags == [] ==>
              (tag in ItemFromProposal(p).marketTags <==> Suits(MARKET_RULES, Lower(p.summary), "general", tag))
    ensures p.domainTags == [] ==>
              (tag in ItemFromProposal(p).domainTags <==> Suits(DOMAIN_RULES, Lower(p.summary), "trading", tag))
  {
    TagsPlain();
    InferredIff(MARKET_RULES, p.summary, "general", tag);
    InferredIff(DOMAIN_RULES, p.summary, "trading", tag);
    DedupePlain(Inferred(MARKET_RULES, p.summary, "general"), tag);
    DedupePlain(Inferred(DOMAIN_RULES, p.summary, "trading"), tag);
  }

  /** Tags that it has are kept instead. */
  lemma OwnTagsKept(p: Proposal, tag: string)
    requires PlainTags(p.marketTags) && PlainTags(p.domainTags)
    ensures p.marketTags != [] ==> (tag in ItemFromProposal(p).marketTags <==> tag in p.marketTags)
    ensures p.domainTags != [] ==> (tag in ItemFromProposal(p).domainTags <==> tag in p.domainTags)
  {
    ListedPlain(p.marketTags);
    ListedPlain(p.domainTags);
    DedupePlain(p.marketTags, tag);
    DedupePlain(p.domainTags, tag);
  }

  lemma ListedPlain(tags: seq<string>)
    requires PlainTags(tags)
    ensures Listed(tags) == tags
  {
    FilterAll((v: string) => v != "", tags);
  }

  /** A candidate without market tags serves every market; without platform tags, Pine alone. */
  lemma CandidateDefaults(id: string, candidate: Candidate)
    ensures var item := ItemFromCandidate(id, candidate);
            && item.content == candidate.lesson
            && (candidate.marketTags == None || candidate.marketTags == Some([]) ==> item.marketTags == ["general"])
            && (candidate.platformTags == None ==> item.platformTags == ["pine_v6"])
            && (candidate.platformTags == Some([]) ==> item.platformTags == ["general"])
  {
    DedupeOne("general");
    DedupeOne("pine_v6");
  }

  lemma DedupeOne(tag: string)
    requires Trimmed(tag)
    ensures Dedupe([tag]) == [tag]
  {
    assert PlainTags([tag]);
    assert [tag][0] in [tag];
    forall t ensures t in Dedupe([tag]) <==> t == tag {
      DedupePlain([tag], t);
    }
    OnlyOne(Dedupe([tag]), tag);
  }

  lemma OnlyOne(tags: seq<string>, tag: string)
    requires Distinct(tags) && forall t :: t in tags <==> t == tag
    ensures tags == [tag]
  {
    assert tag in tags;
    DistinctFewer(tags, [tag]);
  }
}
