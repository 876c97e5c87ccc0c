# Strategy Codebot: verified models

Dafny models of the stateful and algorithmic parts of Strategy Codebot, with proofs of the properties the code
relies on. `dafny verify dfyconfig.toml` checks everything.

| module | models |
|---|---|
| `Seqs`, `Sorting`, `Text` | Python lists, `sorted`, and string operations on ASCII text |
| `QuerySignals`, `CacheKeys` | what a query asks for, and the keys of the two caches |
| `Chunker`, `ChunkMeaning`, `DerivedData` | cutting items into chunks and what becomes of their text, embeddings, token frequencies, the inverted index |
| `Ranking`, `Fusion`, `Selection`, `Retrieval` | the retrieval pipeline from filtered pool to retrieved chunks |
| `ScoreLaws`, `FusedEvidence`, `AnswerLaws` | laws of its scores and orders, and what its filters, cuts and answers mean for one chunk |
| `IndexMachine`, `IndexRuns`, `KnowledgeBase`, `Approvals` | the index and its commands as values, what every run keeps, the mutable index as a class, and what approvals put into it |
| `ResultCache`, `StaleIngest`, `AmbiguousKeys` | what a cached result says in every run, and the runs in which it is the wrong one |
| `CaseScheduler`, `EvalReports` | the parallel case scheduler with deadlines, and the reports over its output |
| `RuntimeStates`, `RuntimeManagement` | the trading-runtime state machine and its manager |
| `EquityRepair`, `TradeSelection` | the arithmetic and the trade selection of the backtest index repair |
| `PineText`, `PineGenerator` | the Pine string scanner, the comment stripper and the escaper, and the script generator |
| `PolicyEngine`, `PolicyMeaning` | fragments, findings and verdict of the policy evaluator, and the verdict in terms of the payload |

Code that updates state in place is a class or a method with loops, proved against a specification function;
the lemmas are about that function. A run is a sequence of commands; "every run" means every such sequence.

Conditions that the code needs and the theorems therefore name:

- A hit in the result cache returns the answer of the request that filed its key, on the index of that moment
  (`ResultCache.Served`). That is what recomputing returns if the two requests are alike and the key was not cached
  before the latest ingest since the last reset.
- Requests with one key are alike if their queries are trimmed and single-spaced and their stages have no `|`. The key
  collapses white space while intent tags and required sources are read from the raw query, and its parts are joined
  by `|`. `AmbiguousKeys` has a run for each of the two in which the second request gets the wrong answer.
- `ingest_knowledge_source` does not reset the result cache. `StaleIngest` shows that on every built index some item
  makes the next answer stale.
- A required source makes a difference to the answer if it fits before the last place; `AmbiguousKeys.CutSourceHidden`
  shows that a positive limit alone is not enough.
- The approved-candidate pass may overwrite the last slot; `Selection.RequiredSurviveIff` says exactly when a
  required chunk is lost to it.
- Without a query text the approved-candidate pass does not look into the pool, so the inclusion theorem asks for a non-empty
  query; `Selection.ApprovedInclusionIff` is the exact statement.
- The one-pass drawdown is the largest fall of a curve exactly under the condition of `EquityRepair.OnePassDrawdownIff`,
  and of a single point exactly under that of `EquityRepair.OnePassIff`.
- A rule wording that ends in a line comment loses its closing quote, because comments are stripped before
  literals; `PineText.OneLiteralIff` is the exact condition.

## Model

| member | source | states |
|---|---|---|
| `KnowledgeBase.KnowledgeIndex.constructor` | src/strategy_codebot/knowledge_base.py:245-291 | A freshly built index has empty caches, and its sources, chunks and inverted index are what its items determine exactly when item ids are distinct. |
| `KnowledgeBase.KnowledgeIndex.Search` | src/strategy_codebot/knowledge_base.py:482-633 | One search, with all its writes to the two cache dictionaries, is the `Search` step of the index machine: same result, same new index, nothing else touched. |
| `KnowledgeBase.KnowledgeIndex.LocalQueryEmbedding` | src/strategy_codebot/knowledge_base.py:3196-3227 | Hit or miss, the returned embedding is the cached one if there is one, and afterwards the cache maps the key to exactly the returned embedding and is otherwise unchanged. |
| `KnowledgeBase.KnowledgeIndex.ReplaceItems` | src/strategy_codebot/knowledge_base.py:1989-2000 | The shared rewrite of items, sources, chunks and inverted index is the `Replaced` step; neither cache changes. |
| `KnowledgeBase.KnowledgeIndex.WriteApprovedItems` | src/strategy_codebot/knowledge_base.py:1988-2004 | The batch write replaces by id, rebuilds, resets the result cache; derived data stay in step exactly when the batch has distinct ids. |
| `KnowledgeBase.KnowledgeIndex.ApproveSourceSummary` | src/strategy_codebot/knowledge_base.py:421-471 | A rejected proposal raises and changes nothing; any other is written as one item, whose missing domain and market tags are inferred from the summary, and derived data stay in step. |
| `KnowledgeBase.KnowledgeIndex.ApproveCandidate` | src/strategy_codebot/knowledge_base.py:943-993 | The three refusals (invalid status, unknown id, rejected candidate) in the order of the code, each leaving everything unchanged; otherwise the status change and the written item, with the default tags of a candidate that has none. |
| `KnowledgeBase.KnowledgeIndex.IngestSource` | src/strategy_codebot/knowledge_base.py:325-337 | Ingest rebuilds under the new embedding configuration, keeps derived data in step, and leaves the result cache as it was. |
| `Approvals.ApprovedChunks` | src/strategy_codebot/knowledge_base.py:2007-2024 | Every chunk of an approved candidate is an active approved-candidate chunk under the id of its lesson; every chunk of an approved summary is active and curated. |
| `Approvals.ChunkCarries` | src/strategy_codebot/knowledge_base.py:2980-3019 | A chunk carries its item's tags, trust, source and status unchanged, and its text is a section of the item's content. |
| `Approvals.LessonRetrieved` | src/strategy_codebot/knowledge_base.py:943-993 | On every index in step: the first search after the approval of a lesson, for a query that one of its chunks fits and matches strongly, retrieves an approved candidate. |
| `Approvals.ProposalTags` | src/strategy_codebot/knowledge_base.py:3648-3664 | A proposal without tags gets exactly those whose keywords its summary mentions, the general one if none. |
| `Approvals.OwnTagsKept` | src/strategy_codebot/knowledge_base.py:439-440 | Tags that a proposal has are kept instead. |
| `Approvals.CandidateDefaults` | src/strategy_codebot/knowledge_base.py:2014-2015 | A candidate without market tags is general; without platform tags it is for Pine, and with an empty list general. |
| `ResultCache.RunRemembers` | src/strategy_codebot/knowledge_base.py:622-631 | In every run each cached result is the recomputed answer of the request that filed its key, on the index at that moment; if the key was not cached before the latest ingest since the last reset, that index still has the present content. |
| `ResultCache.Served` | src/strategy_codebot/knowledge_base.py:505-517 | Hence every search, warm or cold, answers with recomputing on a miss, and on a hit with the answer of the request that filed the key, on the older index. |
| `ResultCache.FreshServed` | src/strategy_codebot/knowledge_base.py:505-517 | If the key was not cached before the latest ingest since the last reset, and was filed by an alike request, a hit returns what recomputing on the present index returns. |
| `ResultCache.AlikeAnswered` | src/strategy_codebot/knowledge_base.py:482-633 | Two requests with one normalised text, stage and options whose intent, expansion, important phrases, required sources and asks-for-sources test agree have equal recomputed answers and one embedding key, once that key is cached. |
| `ResultCache.CleanAlike` | src/strategy_codebot/knowledge_base.py:2654-2684 | Requests with one result key are alike when their queries are trimmed and single-spaced and their stages have no pipe. |
| `ResultCache.ResultCacheTransparent` | src/strategy_codebot/knowledge_base.py:482-633 | Every run of searches and mutators, ingests included: if requests with one key are alike and no search asks for a key cached before the latest ingest since the last reset, all results equal those of the same run with the result cache switched off. |
| `ResultCache.ApplyMatchesCold` | src/strategy_codebot/knowledge_base.py:467 | One command that asks for no outdated key and no key filed by another kind of request does what it does without a result cache. |
| `ResultCache.CleanUnambiguous` | src/strategy_codebot/knowledge_base.py:497-517 | Runs whose queries are trimmed and single-spaced, with pipe-free stages, meet the first of these conditions. |
| `ResultCache.BothCachesTransparent` | src/strategy_codebot/knowledge_base.py:482-633 | Under the same conditions, with the local provider and pipe-free stages and models throughout: a run from empty caches returns, search by search, what one pass of the pipeline on freshly computed embeddings returns. |
| `IndexRuns.EmbeddingCacheSound` | src/strategy_codebot/knowledge_base.py:3196-3227 | In every run, across model and provider changes, each entry of the embedding cache under the local provider is the local embedding of every query text that has its key. |
| `IndexRuns.EmbedNormalized` | src/strategy_codebot/knowledge_base.py:3691-3700 | The local embedding depends on the normalised text only. |
| `IndexRuns.ReplacedInStep` | src/strategy_codebot/knowledge_base.py:1988-2003 | Replacing items keeps ids distinct, sources mirroring and chunks and inverted index derived exactly when the added items have distinct ids; the items are then the added ones and the old ones with other ids. |
| `IndexRuns.ApplyInStep` | src/strategy_codebot/knowledge_base.py:325-336 | Every command (search, approvals, ingest, and a batch write of distinct ids) keeps the derived data in step with the items. |
| `IndexRuns.RunInStep` | src/strategy_codebot/knowledge_base.py:979-991 | Hence so does every run whose batches have distinct ids, and chunk ids stay distinct. |
| `StaleIngest.RepeatedAfterIngest` | src/strategy_codebot/knowledge_base.py:325-337 | Whatever is ingested in between, the repeated search returns the first result. |
| `StaleIngest.PlainAfterIngest` | src/strategy_codebot/knowledge_base.py:325-337 | Without caches the repeated search runs on the chunks of the ingested index. |
| `StaleIngest.IngestMakesStale` | src/strategy_codebot/knowledge_base.py:325-337 | On every index with derived data in step: if the query finds a chunk of a newly ingested item and the limits cut nothing, the repeated search returns the first answer, and recomputing returns another one. |
| `StaleIngest.IngestServesStaleResult` | src/strategy_codebot/knowledge_base.py:325-337 | Such an item and such limits exist for every index with derived data in step and an empty result cache, in particular for every built one. |
| `CacheKeys.KeyTextDeterminesQuery` | src/strategy_codebot/knowledge_base.py:497-498 | For trimmed single-spaced queries, equal normalised query texts (query plus expanded terms) force equal lower-cased queries. |
| `CacheKeys.ExpansionGrows` | src/strategy_codebot/knowledge_base.py:711-721 | Extending a query never shrinks the words of its expansion. |
| `CacheKeys.ResultKeyDetermines` | src/strategy_codebot/knowledge_base.py:2654-2684 | For pipe-free stages the joined key payload, with its JSON options, determines normalised text, stage and all options. |
| `CacheKeys.EmbeddingKeyDetermines` | src/strategy_codebot/knowledge_base.py:2636-2651 | For pipe-free parts the embedding key determines normalised text, stage, provider and model. |
| `CacheKeys.PipeInStageCollides` | src/strategy_codebot/knowledge_base.py:2662-2671 | With a pipe in the stage two different requests share one key. |
| `CacheKeys.DoubleBlankCollides` | src/strategy_codebot/knowledge_base.py:3243-3258 | The words raw and json with one blank and with two share the key text but require different sources. |
| `AmbiguousKeys.SharedKeyServed` | src/strategy_codebot/knowledge_base.py:505-517 | Whenever two requests share a key that is not cached, the second one is answered with what the first one computed. |
| `AmbiguousKeys.SourceNamedOnce` | src/strategy_codebot/knowledge_base.py:3262-3276 | Two queries have different answers if only one of them requires a source that is among its available ones and fits before the last place. |
| `AmbiguousKeys.CutSourceHidden` | src/strategy_codebot/knowledge_base.py:556-568 | That room is needed: with a limit of one, requiring a second available source changes nothing when the pool has no approved chunk. |
| `AmbiguousKeys.DoubleBlankServedWrongly` | src/strategy_codebot/knowledge_base.py:505-517 | A run on an index in step: after the query with two blanks the query with one is answered without its required source, and recomputing answers otherwise. |
| `AmbiguousKeys.PipeServedWrongly` | src/strategy_codebot/knowledge_base.py:505-517 | A run on an index in step: after a search for x, pipe, y, the search for x in the stage y, pipe is answered with its chunks, while recomputing finds none. |
| `Text.TokensOfNormalize` | src/strategy_codebot/knowledge_base.py:2687-2688 | Lower-casing and collapsing white space changes no token. |
| `Text.JoinOfWords` | src/strategy_codebot/knowledge_base.py:2687-2688 | On trimmed single-spaced text, splitting and re-joining gives the text back. |
| `QuerySignals.SignalsIgnoreCase` | src/strategy_codebot/knowledge_base.py:686-721 | Expansion, intent, required sources and the asks-for-sources test depend on the lower-cased query only. |
| `QuerySignals.RequiredSourcesDistinct` | src/strategy_codebot/knowledge_base.py:3230-3259 | No source is required twice. |
| `QuerySignals.RequiredIff` | src/strategy_codebot/knowledge_base.py:3230-3259 | The risk policy is required exactly of queries tagged as risk that claim safety or profit, each workflow source exactly when one of its triggers occurs. |
| `QuerySignals.TagIff` | src/strategy_codebot/knowledge_base.py:686-708 | A query has exactly the tags one of whose triggers it mentions, the tag for both platforms when it mentions both, and the three default tags when it mentions none. |
| `QuerySignals.PhraseIff` | src/strategy_codebot/knowledge_base.py:3768-3776 | Important phrases are the names of the aliases that the text mentions and its expanded terms in lower case. |
| `QuerySignals.ExpansionIff` | src/strategy_codebot/knowledge_base.py:711-721 | A query is expanded by exactly the terms of the rules one of whose triggers it mentions. |
| `QuerySignals.QueryTextTokens` | src/strategy_codebot/knowledge_base.py:497-498 | The tokens of the search text are those of the query, then those of each expanded term. |
| `Retrieval.PoolFacts` | src/strategy_codebot/knowledge_base.py:500-504 | The filtered pool holds active chunks of the index that fit stage and intent, each id once. |
| `Retrieval.PoolKeeps` | src/strategy_codebot/knowledge_base.py:3152-3193 | The pool is all fitting chunks up to `prefilter_limit`; beyond it, that many of them, none of lower priority than one left out. |
| `AnswerLaws.LeftOutIff` | src/strategy_codebot/knowledge_base.py:3152-3167 | A chunk is not searched exactly if it is inactive, of other stages only, or only of markets or platforms that the query does not ask for. |
| `AnswerLaws.CutByPriority` | src/strategy_codebot/knowledge_base.py:3168-3194 | A chunk that the cut keeps has at least the priority of one it drops, then the lower index, then the greater id. |
| `AnswerLaws.MarketPriority` | src/strategy_codebot/knowledge_base.py:3180-3184 | Other things equal, a shared market is worth 8 more than a foreign one and a general one 2 more. |
| `AnswerLaws.PlatformPriority` | src/strategy_codebot/knowledge_base.py:3185-3188 | Likewise 4 and 1 for platforms. |
| `AnswerLaws.KindPriority` | src/strategy_codebot/knowledge_base.py:3189-3193 | A curated source adds 3, bare metadata takes 4, and nothing else counts. |
| `Retrieval.RetrieveBySignals` | src/strategy_codebot/knowledge_base.py:544-568 | Queries with the same intent, expansion, tokens, important phrases, asks-for-sources test and required sources are answered alike, given the same embedding. |
| `Retrieval.CaseKeepsSignals` | src/strategy_codebot/knowledge_base.py:686-721 | Queries that differ only in letter case agree in all of these. |
| `Retrieval.AnswerShowsSources` | src/strategy_codebot/knowledge_base.py:556-568 | Up to the last place the answer shows which required sources are available: forced chunks of exactly these, in order, and then none. |
| `Retrieval.RequiredSourcesRetrieved` | src/strategy_codebot/knowledge_base.py:556-568 | If fewer required sources are available than `limit`, the retrieved list starts with one chunk of each in required order, repeats no chunk id and respects `limit`. |
| `Retrieval.ApprovedCandidateRetrieved` | src/strategy_codebot/knowledge_base.py:556-568 | With a positive limit and a non-empty query, a strong approved-candidate chunk in the pool (lexical at least 3 or vector at least 0.5) makes an approved-candidate chunk appear among the retrieved chunks. |
| `AnswerLaws.RetrievedShows` | src/strategy_codebot/knowledge_base.py:3575-3584 | Everything retrieved is shown of a chunk of the pool: its ids, and its text up to the limit without the blanks at the end; it says truncated exactly when the text is longer. |
| `Selection.RequiredSourcesSurvive` | src/strategy_codebot/knowledge_base.py:556-566 | The same on hits, with the rest: behind the forced front stands the remaining reranked order, cut, with at most the last slot given to an approved chunk. |
| `Selection.RequiredSurviveIff` | src/strategy_codebot/knowledge_base.py:3317-3329 | All forced hits stay in front after the approved-candidate pass if and only if they are fewer than `limit`, or exactly `limit` and one of them is approved, or no eligible hit stands behind them and the pool has no unselected strong match. |
| `Selection.ApprovedInclusionIff` | src/strategy_codebot/knowledge_base.py:3289-3329 | Exactly when the list holds an approved chunk: the head has one, a strong one was cut off, or the query is not empty and the pool has an unselected strong match. |
| `Selection.ApprovedInclusion` | src/strategy_codebot/knowledge_base.py:3279-3329 | The approved pass is complete despite the two top-five cuts and the fusion on the way. |
| `Selection.EnsureApprovedFacts` | src/strategy_codebot/knowledge_base.py:3289-3329 | The pass keeps the head, or places one eligible unselected chunk of the pool last; the placed one is the best of the candidates. |
| `AnswerLaws.PlacedIsBest` | src/strategy_codebot/knowledge_base.py:3317-3329 | The placed chunk is a strong approved one, with the highest lexical score of the candidates, then the highest score, then the least id. |
| `Selection.ForceAllFacts` | src/strategy_codebot/knowledge_base.py:3262-3276 | Forcing puts exactly one hit of each available required source in front, in order, and leaves the other hits in their order. |
| `AnswerLaws.ForcedChunk` | src/strategy_codebot/knowledge_base.py:3266-3275 | The forced hit is the first one of its source if there is one, else the source's chunk of least index, then least id. |
| `Selection.EnsureRequiredChunks` | src/strategy_codebot/knowledge_base.py:3262-3276 | The loop that pops and inserts in the output list computes `ForceAll`. |
| `Fusion.RrfMergeFacts` | src/strategy_codebot/knowledge_base.py:3529-3539 | Fusion lists each id of either ranking exactly once, with the exact sum of its 1/(60 + rank) shares, descending with ids breaking ties. |
| `Fusion.RrfScoreBounds` | src/strategy_codebot/knowledge_base.py:3529-3539 | Every fused score lies in (0, 2/61]. |
| `Fusion.RrfDominance` | src/strategy_codebot/knowledge_base.py:3529-3539 | A chunk ahead of another in both rankings is ahead in the fusion. |
| `Fusion.RrfSymmetric` | src/strategy_codebot/knowledge_base.py:3529-3539 | Swapping the two rankings gives the same order of ids. |
| `Fusion.RrfMergeTables` | src/strategy_codebot/knowledge_base.py:3529-3539 | The two dictionary loops compute the fusion. |
| `Fusion.FuseRanking` | src/strategy_codebot/knowledge_base.py:3531-3538 | One loop over a ranking keeps the dictionary and its insertion order equal to the fused list. |
| `FusedEvidence.FusedScores` | src/strategy_codebot/knowledge_base.py:3529-3539 | A fused chunk has its exact lexical score if the cut lexical ranking lists it, else zero, and its exact vector score if the cut vector ranking lists it, else zero. |
| `AnswerLaws.RerankedScores` | src/strategy_codebot/knowledge_base.py:544-554 | Reranked hits come from the first `lexical_limit` of the lexical or the first `vector_limit` of the vector ranking, with these scores. |
| `Fusion.RerankFacts` | src/strategy_codebot/knowledge_base.py:3542-3572 | Reranking only rescores and reorders: same chunks, same lexical and vector scores, distinct ids kept. |
| `Fusion.RerankOrder` | src/strategy_codebot/knowledge_base.py:3572 | Reranked chunks stand in the order of their new scores, ids breaking ties. |
| `Fusion.RerankBounds` | src/strategy_codebot/knowledge_base.py:3547-3556 | Bonuses and penalties move a fused score by at most -0.09 and at most 0.23 plus 0.06 for each tag of the query. |
| `ScoreLaws.TagGains` | src/strategy_codebot/knowledge_base.py:3548-3549 | Other things equal, each shared domain tag changes the score by 0.02 and each shared market tag by 0.04. |
| `ScoreLaws.TrustLosses` | src/strategy_codebot/knowledge_base.py:3552-3554 | Low trust costs 0.03; a foreign source type costs 0.06 unless the query asks for sources. |
| `ScoreLaws.EvidenceGains` | src/strategy_codebot/knowledge_base.py:3555-3556 | The fused score counts fully, the lexical score a hundredth up to ten, the vector score not at all. |
| `ScoreLaws.ExpansionGain` | src/strategy_codebot/knowledge_base.py:3550 | A text with one of the expanded terms gains 0.03 over one with none. |
| `ScoreLaws.PolicyGain` | src/strategy_codebot/knowledge_base.py:3551 | The risk policy gains 0.1 over other sources when the expansion names it. |
| `ScoreLaws.PlainScore` | src/strategy_codebot/knowledge_base.py:3556 | With nothing of that kind the score is the fused one. |
| `Ranking.RankByFacts` | src/strategy_codebot/knowledge_base.py:3495-3526 | A ranking lists exactly the chunks with a score, each once, best first with ids breaking ties. |
| `ScoreLaws.RankingDescends` | src/strategy_codebot/knowledge_base.py:3509-3526 | In terms of the scores: descending, and among equal ones the lower id first. |
| `ScoreLaws.CosineSymmetric` | src/strategy_codebot/knowledge_base.py:3742-3745 | The vector score does not depend on which vector comes first. |
| `ScoreLaws.CosineAdded` | src/strategy_codebot/knowledge_base.py:3742-3745 | It is additive in the chunk's vector. |
| `ScoreLaws.CosineScaled` | src/strategy_codebot/knowledge_base.py:3742-3745 | It is homogeneous in the chunk's vector. |
| `ScoreLaws.CosineUnit` | src/strategy_codebot/knowledge_base.py:3742-3745 | A unit vector reads off one component, so the score is the inner product. |
| `ScoreLaws.VectorListed` | src/strategy_codebot/knowledge_base.py:3512-3526 | Exactly the chunks with a positive inner product are ranked, each with it. |
| `ScoreLaws.UnrelatedNotRanked` | src/strategy_codebot/knowledge_base.py:3512-3526 | A chunk without a common non-zero position with the query is not ranked. |
| `ScoreLaws.LexicalMeaning` | src/strategy_codebot/knowledge_base.py:3495-3509 | The lexical score of a built chunk counts the pairs of equal terms and query tokens, term by term, and four for each important phrase in the text. |
| `ScoreLaws.StringLeMeaning` | src/strategy_codebot/knowledge_base.py:3509 | Ids are compared by their first different character, a prefix first. |
| `Sorting.SortSorted` | src/strategy_codebot/knowledge_base.py:3509 | The stable sort sorts by every total preorder. |
| `Chunker.ChunksPartitionParts` | src/strategy_codebot/knowledge_base.py:3022-3059 | Without their overlaps the chunks are all parts in order; each chunk is non-empty and at most max_chars + overlap_chars + 2 long; a heading starts its chunk and carries no overlap; an overlap is the end of the chunk before; parts within max_chars are kept whole. |
| `ChunkMeaning.PartsMeaning` | src/strategy_codebot/knowledge_base.py:3023-3031 | The raw parts are the normalised text between separators: maximal runs of two or more newlines, or one newline before a heading of level one or two; no separator begins inside a part, and no blank stands before a newline. |
| `ChunkMeaning.ChunksLetters` | src/strategy_codebot/knowledge_base.py:3022-3059 | Without their overlaps the chunks have every character of the text that is not white space, in order. |
| `ChunkMeaning.LineCut` | src/strategy_codebot/knowledge_base.py:3023 | A line ends at each line break, and a carriage return with a newline is one. |
| `ChunkMeaning.GroupsPacked` | src/strategy_codebot/knowledge_base.py:3044-3055 | Grouping is greedy: a part shares the chunk before it exactly if it is no heading and fits; otherwise it begins one, which repeats the end of the chunk before unless a heading begins it. |
| `ChunkMeaning.ClipMeaning` | src/strategy_codebot/knowledge_base.py:3047-3055 | A part cut to the limit is a beginning of it, and keeps all of its first characters that are not white space. |
| `ChunkMeaning.SectionMeaning` | src/strategy_codebot/knowledge_base.py:3062-3070 | A chunk stands under the title and the parent title of the parts up to its end. |
| `ChunkMeaning.TitleOfNearest` | src/strategy_codebot/knowledge_base.py:3032-3043 | The title is that of the last heading. |
| `ChunkMeaning.ParentOfNearest` | src/strategy_codebot/knowledge_base.py:3041-3042 | The parent title is that of the last heading of level one or two. |
| `ChunkMeaning.NoTitle` | src/strategy_codebot/knowledge_base.py:3029-3030 | Without a heading both titles are overview. |
| `ChunkMeaning.SlugWords` | src/strategy_codebot/knowledge_base.py:3779-3780 | A slug keeps the lower-cased words of letters and digits, in order. |
| `ChunkMeaning.HeadingReads` | src/strategy_codebot/knowledge_base.py:3036-3038 | Up to three hashes, white space and a line make a heading of that level with that line as its title. |
| `Chunker.ChunkTextLoop` | src/strategy_codebot/knowledge_base.py:3022-3059 | The loop over `current`, titles and counter produces exactly the sections of those groups. |
| `Chunker.AbsorbPart` | src/strategy_codebot/knowledge_base.py:3036-3055 | One pass through its body adds one part to the grouping. |
| `Chunker.ChunkIdsDistinct` | src/strategy_codebot/knowledge_base.py:2983-2985 | Chunk ids determine item id and position, within an item and across items. |
| `DerivedData.ChunkIdsDistinct` | src/strategy_codebot/knowledge_base.py:2980-3019 | Items with distinct ids yield chunks with distinct ids. |
| `DerivedData.FastPathOnIndex` | src/strategy_codebot/knowledge_base.py:3499-3504 | On every chunk built from items, the stored-frequency score equals the counting score. |
| `DerivedData.RetrievalIndexPayload` | src/strategy_codebot/knowledge_base.py:3114-3129 | The three accumulating loops build the inverted index of the chunks. |
| `DerivedData.CountDocument` | src/strategy_codebot/knowledge_base.py:3121-3122 | One chunk more adds one to the frequency of each of its distinct tokens, in any iteration order. |
| `DerivedData.DocumentFrequencyScan` | src/strategy_codebot/knowledge_base.py:3114-3126 | A token's stored frequency is the number of chunks that hold it; no other token is stored. |
| `DerivedData.SourceMapScan` | src/strategy_codebot/knowledge_base.py:3120-3127 | Each source maps to the sorted ids of exactly its chunks. |
| `DerivedData.TagMapScan` | src/strategy_codebot/knowledge_base.py:3123-3128 | Each tag maps to the sorted distinct ids of exactly the chunks that carry it. |
| `DerivedData.CountBuckets` | src/strategy_codebot/knowledge_base.py:3694-3698 | The embedding loop counts how many tokens fall into each bucket. |
| `DerivedData.BucketCountAt` | src/strategy_codebot/knowledge_base.py:3694-3698 | Each bucket counts exactly the tokens that the digest sends to it, in any order. |
| `DerivedData.StageIff` | src/strategy_codebot/knowledge_base.py:3677-3688 | An item serves exactly its own stages, or those of its type. |
| `DerivedData.CountTokens` | src/strategy_codebot/knowledge_base.py:3752-3756 | The frequency loop counts each token's occurrences. |
| `CaseScheduler.RunCasesWithTimeout` | src/strategy_codebot/evals.py:231-274 | The nested loops end within ceil(n / concurrency) * (20 * timeout + 2) polls for every environment with an advancing clock, and return the n slot reports in input order with the recorded checkpoints. |
| `CaseScheduler.StartWorkers` | src/strategy_codebot/evals.py:243-248 | The filling loop is the `Fill` step. |
| `CaseScheduler.CheckWorkers` | src/strategy_codebot/evals.py:249-271 | The loop over a snapshot of the active list, removing and writing slots in place, is the `CheckAll` step. |
| `CaseScheduler.SafeAtEveryPoll` | src/strategy_codebot/evals.py:242-274 | At every poll pending, active and reported indices partition the cases, at most `concurrency` are active, and after filling the active set is full or nothing is pending. |
| `CaseScheduler.SlotsWrittenOnce` | src/strategy_codebot/evals.py:255-268 | A written slot never changes. |
| `CaseScheduler.SlotsSay` | src/strategy_codebot/evals.py:242-271 | What each slot says, in terms of what the polls saw: it was written at the first poll since the launch of its own case that saw a message, a dead worker or a passed deadline, the deadline counting from that launch. A message decides, dead worker or not: a report is stored as it is, a failure under the case's id. Without a message a dead worker gives the exit error, and only a live one the timeout. |
| `CaseScheduler.AllFinish` | src/strategy_codebot/evals.py:242-273 | After ceil(n / concurrency) * (20 * timeout + 2) polls every case has its report, whatever the workers deliver, omit or stall on. |
| `CaseScheduler.LifetimeReports` | src/strategy_codebot/evals.py:242-273 | Within one lifetime of 20 * timeout + 2 polls `concurrency` of the open cases are reported, or all. |
| `CaseScheduler.StateCheckpointed` | src/strategy_codebot/evals.py:256-270 | Each checkpoint is an input-order subsequence of the current reports, one longer than the one before; the last one is current. |
| `EvalReports.FinalReportComplete` | src/strategy_codebot/evals.py:165-204 | The final report misses no case and passes exactly when every case passed. |
| `EvalReports.ReportCounts` | src/strategy_codebot/evals.py:165-204 | Passed and failed are the numbers of cases with status pass and with any other, and the report's status, its missing cases and its totals follow from the cases. |
| `EvalReports.CheckpointReports` | src/strategy_codebot/evals.py:95-109 | With distinct case ids the j-th checkpoint reports j cases done and n - j pending. |
| `EvalReports.MissingCount` | src/strategy_codebot/evals.py:190-191 | Missing ids number expected minus reported. |
| `RuntimeStates.OnlyTheTypesMatter` | src/strategy_codebot/nautilus_runtime.py:166-182 | For a fixed kill switch, the state after any event sequence from any state is a closed form of the set of event types in it. |
| `RuntimeStates.OrderDoesNotMatter` | src/strategy_codebot/nautilus_runtime.py:166-182 | Event order and repetition do not matter. |
| `RuntimeManagement.EveryRun` | src/strategy_codebot/nautilus_runtime.py:100-163 | Over every run of manager calls: runtime ids pairwise distinct, only requested, running, degraded and stopping reachable, event counts summing to the successful ingests. |
| `RuntimeManagement.ApplyTouchesOne` | src/strategy_codebot/nautilus_runtime.py:121-163 | A call changes at most the addressed record; keys and ids never change. |
| `RuntimeManagement.KillSwitchIsFinal` | src/strategy_codebot/nautilus_runtime.py:135-139 | Once the switch is set, every later run leaves the record stopping and non-restartable. |
| `RuntimeManagement.EveryRecord` | src/strategy_codebot/nautilus_runtime.py:100-163 | Closed form of every run of manager calls, from any numbered records, for every record it leaves: stopping with the switch set if a kill addressed it, else the state settled by the set of event types addressed to it since it exists. |
| `RuntimeManagement.EveryRecordStrategies` | src/strategy_codebot/nautilus_runtime.py:104-110 | In every run a record's strategies are those it started with, none if the run created it, and all that the run requested for its key. |
| `RuntimeManagement.EveryRecordCounts` | src/strategy_codebot/nautilus_runtime.py:121-133 | In every run a record counts every event addressed to it since it exists, and keeps the timestamp of the last heartbeat among them. |
| `RuntimeManagement.CallOrderDoesNotMatter` | src/strategy_codebot/nautilus_runtime.py:121-163 | Two runs with the same set of event types and the same kill for a record leave it in the same state, in any order of the calls. |
| `RuntimeManagement.RuntimeManager.RecordByRuntimeId` | src/strategy_codebot/nautilus_runtime.py:159-163 | Lookup finds the unique record with the id, or reports the KeyError. |
| `RuntimeManagement.RuntimeManager.RequestStrategyRuntime` | src/strategy_codebot/nautilus_runtime.py:104-110 | Returns the existing or one new record for the key, with the strategy added; the record objects stay distinct. |
| `RuntimeManagement.RuntimeManager.IngestRuntimeEvent` | src/strategy_codebot/nautilus_runtime.py:121-133 | Counts the event and moves the state of the one record found; an unknown id changes nothing. |
| `RuntimeManagement.RuntimeManager.Activate` | src/strategy_codebot/nautilus_runtime.py:135-139 | Sets the switch and the state of the one record found; an unknown id changes nothing. |
| `RuntimeManagement.ScaleSummary` | src/strategy_codebot/nautilus_runtime.py:219-232 | The tier counts partition the runtimes; strategies are counted per runtime. |
| `RuntimeManagement.PooledMeans` | src/strategy_codebot/nautilus_runtime.py:219-232 | Pooled are the paper runtimes with at most five strategies. |
| `RuntimeManagement.StrategiesAdd` | src/strategy_codebot/nautilus_runtime.py:219-232 | Strategies add up over lists of runtimes. |
| `RuntimeManagement.RestartIff` | src/strategy_codebot/nautilus_runtime.py:209-216 | A runtime is left running exactly when it is not killed, failed, degraded or stale, and a kill overrides everything. |
| `EquityRepair.NormalizeEquity` | scripts/repair-backtest-indexes.py:187-205 | The one-pass loop over `previous` and `peak` gives each point its equity, its rounded change from the previous equity and its rounded fall from the highest level so far. |
| `EquityRepair.CurveMetrics` | scripts/repair-backtest-indexes.py:86-92 | The metric step reports rounded profit, rounded percentage (0 for zero capital) and the rounded maximum of the drawdowns. |
| `EquityRepair.ReportMeans` | scripts/repair-backtest-indexes.py:86-92 | The reported profit is final minus initial, the percentage is that of the initial capital which makes up the profit, the drawdown is the greatest one, each rounded. |
| `EquityRepair.OnePassDrawdownIff` | scripts/repair-backtest-indexes.py:193-203 | For every capital and every non-empty curve: the maximum of the one-pass values is the largest fall over all pairs of a point and an earlier-or-equal level if and only if no point with a positive level before it is negative, or a largest fall starts from the only height its positive levels have. |
| `EquityRepair.OnePassDrawdownIsAllPairs` | scripts/repair-backtest-indexes.py:86-92 | Under that condition the reported maximum drawdown is the rounded largest fall. |
| `EquityRepair.PositiveCapital` | scripts/repair-backtest-indexes.py:193-203 | For positive capital the condition reads: no equity is negative, or some negative point falls furthest, by cross products of inputs, and all its positive levels equal the capital. |
| `EquityRepair.AllPairsIsLargest` | scripts/repair-backtest-indexes.py:193-203 | The largest fall over all pairs exists: one pair attains it and no pair exceeds it. |
| `EquityRepair.PointFall` | scripts/repair-backtest-indexes.py:193-203 | At each point that is not below zero under a positive level the one-pass value is not exceeded among its earlier-or-equal levels. |
| `EquityRepair.OnePassIff` | scripts/repair-backtest-indexes.py:193-203 | For any sign: the one-pass value of a point is its largest fall if and only if its equity is not negative or all its positive levels are equally high. |
| `EquityRepair.NegativeEquityUnderstated` | scripts/repair-backtest-indexes.py:86-92 | From 100 over 200 to -100 the reported maximum is 150, the rounded largest fall is 200. |
| `EquityRepair.PeakIsMaximum` | scripts/repair-backtest-indexes.py:188-194 | The running peak is one of the levels seen and at least all of them. |
| `EquityRepair.ProfitTelescopes` | scripts/repair-backtest-indexes.py:202-204 | The rounded profits of the emitted points sum to final minus initial within n * 0.00005. |
| `EquityRepair.EquitiesNonNegative` | scripts/repair-backtest-indexes.py:193 | Missing, zero or unreadable equities repeat the previous one, so non-negative inputs give a non-negative curve. |
| `EquityRepair.EquityCases` | scripts/repair-backtest-indexes.py:193 | A number other than zero in the equity stands, a missing or zero equity makes way for the value, and without a number other than zero the previous equity is repeated. |
| `EquityRepair.EquitiesAppend` | scripts/repair-backtest-indexes.py:187-205 | A curve goes on from its last equity; points that are no objects add nothing. |
| `EquityRepair.RoundMonotone` | scripts/repair-backtest-indexes.py:249-250 | Rounding half to even at four decimals is monotone. |
| `EquityRepair.RoundTies` | scripts/repair-backtest-indexes.py:249-250 | Halves round to the even neighbour, everything else to the nearest. |
| `TradeSelection.IndexedTrades` | scripts/repair-backtest-indexes.py:208-217 | The three loops over the `selected` dictionary, with override and setdefault, produce exactly the trades that have a bucket by their ranking position, in trade order. |
| `TradeSelection.RanksAscend` | migrations/versions/0006_backtest_hybrid_indexes.py:74 | The selected indices ascend strictly, so ranks 1 to m number distinct trades, as the unique constraint demands. |
| `TradeSelection.WinnersAndLosers` | scripts/repair-backtest-indexes.py:209-214 | Exactly min(n, 25) winners and min(25, max(0, n - 25)) losers, whatever the ties. |
| `TradeSelection.SelectionSize` | scripts/repair-backtest-indexes.py:208-217 | At most 100 trades are selected, and all of them when n is at most 50. |
| `TradeSelection.BucketsOrdered` | scripts/repair-backtest-indexes.py:209-216 | No loser earns more than a sample, no sample more than a winner. |
| `TradeSelection.BucketsByRecord` | scripts/repair-backtest-indexes.py:209-216 | The same on the recorded profits, where a trade without one counts as zero. |
| `TradeSelection.RankedByRecord` | scripts/repair-backtest-indexes.py:209 | The ranking ascends in the recorded profits, earlier trades first among equal ones. |
| `TradeSelection.EarlySelected` | scripts/repair-backtest-indexes.py:215-216 | Each of the first fifty trades is selected under its own position. |
| `TradeSelection.RankedIsTheOrder` | scripts/repair-backtest-indexes.py:209 | The ranking is the only arrangement of the trades ordered by P&L and then by position. |
| `PineText.StripStrings` | src/strategy_codebot/pine.py:193-218 | The loop over `quote` and `escaped` is the scanner automaton, which preserves length. |
| `PineText.ScanAt` | src/strategy_codebot/pine.py:193-218 | Each character outside a literal is unchanged; inside, what is shown depends only on the scanner state before it. |
| `PineText.ScanIdempotent` | src/strategy_codebot/pine.py:193-218 | Scanning scanned code changes nothing. |
| `PineText.EscapeRoundTrip` | src/strategy_codebot/pine.py:280-281 | The two replacements are undone by reading escape pairs, and leave no bare quote or dangling backslash. |
| `PineText.EscapedIsOneLiteral` | src/strategy_codebot/pine.py:193-218 | For every wording, its quoted escape scans to one blanked literal, and scanning resumes cleanly behind it. |
| `PineText.OneLiteralIff` | src/strategy_codebot/pine.py:188-218 | With comments stripped first: the executable text shows exactly one blanked literal if and only if the wording, without its block comments, does not end in a line comment. |
| `PineText.SlashesBreakOut` | src/strategy_codebot/pine.py:188-190 | The wording of two slashes always loses its closing quote. |
| `PineText.StripBlocksEscape` | src/strategy_codebot/pine.py:188-190 | Stripping block comments commutes with escaping. |
| `PineText.BlockRemoved` | src/strategy_codebot/pine.py:189 | A block comment is taken out up to its nearest end marker, and what follows is stripped in turn. |
| `PineText.LinesAround` | src/strategy_codebot/pine.py:190 | A line comment reaches over a quote exactly when the text before the quote ends in one. |
| `PineText.ProgramShape` | src/strategy_codebot/pine.py:9-67 | A generated program whose wording has no comment markers shows its executable code unchanged around one blanked literal per value. |
| `PineText.CheckIgnoresWording` | src/strategy_codebot/pine.py:126-145 | Such programs that differ only in wording pass or fail the blocked-construct check together. |
| `PineText.BlockedCallFails` | src/strategy_codebot/pine.py:126-145 | Code without comment markers that calls one of the four blocked constructs outside literals, in any case and with any white space before the parenthesis, fails the check. |
| `PineGenerator.GeneratedScript` | src/strategy_codebot/pine.py:9-67 | Both templates of the generator, indicator and strategy, are such programs for every title and notes without comment markers, and their fixed code has no open comment or literal. |
| `PineGenerator.ScriptPasses` | src/strategy_codebot/pine.py:126-145 | Hence every script generated from such wording passes the blocked-construct check, also when the wording names a blocked call. |
| `PolicyEngine.CollectFragments` | src/strategy_codebot/policy_engine.py:313-323 | The recursive collector appends exactly the in-order string leaves that have no safe context key above them. |
| `PolicyEngine.SafeFieldsIgnored` | src/strategy_codebot/policy_engine.py:313-315 | What stands under safe context keys has no influence on the fragments. |
| `PolicyEngine.IsAllowedMatch` | src/strategy_codebot/policy_engine.py:290-300 | A match is allowed exactly when some allow match holds it with no contrast word between their starts. |
| `PolicyEngine.EvaluateFragments` | src/strategy_codebot/policy_engine.py:247-273 | The nested loops with their early break yield, per sentence and applicable rule, the first block pattern whose match is not allowed, in order. |
| `PolicyEngine.DedupeFindings` | src/strategy_codebot/policy_engine.py:333-342 | The loop over `seen` keeps the findings whose key no earlier one has. |
| `Seqs.FirstPerKeyKeys` | src/strategy_codebot/policy_engine.py:333-342 | Every key is kept, and none twice. |
| `Seqs.FirstPerKeyKeepsFirst` | src/strategy_codebot/policy_engine.py:333-342 | The first finding with its key is kept. |
| `PolicyEngine.VerdictsAgree` | src/strategy_codebot/policy_engine.py:93-125 | With unique rule ids the early exit on raw findings and the de-duplicated evaluation give the same verdict on every text. |
| `PolicyEngine.DedupeKeepsVerdict` | src/strategy_codebot/policy_engine.py:93-104 | More generally, when rules with one id agree on being blockers. |
| `PolicyMeaning.VerdictIff` | src/strategy_codebot/policy_engine.py:93-104 | The verdict in terms of the payload: a string is parsed first and judged as it is if that fails; otherwise, and for every other payload, it is refused if and only if some string in it, at any depth and not under a safe context key, has a sentence that a blocker rule for this surface and level blocks. |
| `PolicyMeaning.EarlyVerdictIff` | src/strategy_codebot/policy_engine.py:120-125 | The early exit on a text gives the same verdict. |
| `PolicyMeaning.FindingSays` | src/strategy_codebot/policy_engine.py:247-273 | Each finding carries the id, category, severity, code and message of a rule, the sentence, and the first match of one of its block patterns there. |
| `PolicyMeaning.LeafReached` | src/strategy_codebot/policy_engine.py:313-323 | Every string that is read lies at the end of some steps into the payload, under the keys on the way. |
| `PolicyMeaning.ReachedLeaf` | src/strategy_codebot/policy_engine.py:313-323 | Conversely every string at the end of some steps is listed. |
| `PolicyEngine.RawOrigin` | src/strategy_codebot/policy_engine.py:247-273 | A finding is reported exactly when some rule reports it about some sentence of some fragment. |
| `PolicyEngine.SharedIdDisagrees` | src/strategy_codebot/policy_engine.py:93-125 | With one id for a warning and a blocker the two verdicts differ. |
| `PolicyEngine.DuplicateIds` | src/strategy_codebot/policy_engine.py:179-193 | The loader's id check reports no error exactly when rule ids are distinct. |
| `PolicyEngine.EvaluatePolicy` | src/strategy_codebot/policy_engine.py:93-104 | The evaluation computes the decision that the lemmas speak about. |
| `PolicyEngine.ContainsBlockingPolicy` | src/strategy_codebot/policy_engine.py:120-125 | The early exit is true exactly when a raw finding is a blocker. |

## Left out

- `search_knowledge` and the mutators over Postgres, file and network I/O, URL fetching, timestamps, latency fields and the echoed raw query: they differ on every call.
- Displayed scores rounded to six places, chunk fields copied unchanged, confidence, citations, missing context and statistics: functions of what is modelled.
- SHA-256 is modelled by its input (injective). The bucket hash and the normalisation of the local embedding, and the remote embedding service, are arbitrary functions.
- Floats are reals, so ties and sums carry no rounding error; `round(x, 4)` is exact rounding half to even, and not-a-number and infinities do not occur.
- Text is ASCII: no Unicode case rules or white space, no `\u` escapes in the option JSON.
- Cache dictionaries with malformed entries; an empty query embedding, for which `_rank_vector` would embed again (local embeddings are never empty).
- Item construction from documents and the registry, with the tags and types inferred for them, and candidate wording: items arrive built, and the candidate store is a map from unique ids.
- KnowledgeBase.KnowledgeIndex.ApproveCandidate: the nested merge of review metadata into the candidate is not modelled; no item depends on it.
- Rejecting candidates, learning from runs, source snapshots and summaries, evaluation suites: no effect on the index or single-branch.
- ResultCache.ResultCacheTransparent: gives conditions under which the cache is invisible; a run outside them may still be answered rightly, since an ingest need not change an answer. `Served` says what each search returns in any case.
- ResultCache.BothCachesTransparent: asks for the local provider throughout, because remote embeddings of equal keys need not be equal.
- AmbiguousKeys.SourceNamedOnce: says when answers differ, not conversely; alike requests are the case where they agree.
- IndexRuns.EmbeddingCacheSound: speaks of entries under the local provider, for the same reason.
- CaseScheduler.RunCasesWithTimeout: real processes, queues and sleeping are an oracle that may deliver, die or stall at any poll, with a clock that grows by at least 0.05 seconds a poll; an exception raised by the checkpoint callback and the time spent in `join` are not modelled. It does not say that a finished worker gets an "ok" report: the code may see the exit first.
- EvalReports.FinalReportComplete: a worker's own report is taken to carry the id of its case; the gate counts and the optimizer summary of the report are not modelled.
- RuntimeManagement.RuntimeManager.IngestRuntimeEvent: heartbeat staleness, `updated_at`, validation of keys and events, the market data fan-out and the readiness assessment are not modelled.
- EquityRepair.NormalizeEquity: the `index` and `timestamp` of a point and its copied fields are not modelled, nor the cut to 5000 stored points.
- TradeSelection.IndexedTrades: trade normalisation and quality flags come before and after it and are left out; a trade is its P&L and an opaque payload.
- PineText.ProgramShape: the wording is asked to be free of `//`, `/*` and `*/`, while `OneLiteralIff` treats all wordings of one literal. The other static checks are not modelled.
- PineGenerator.GeneratedScript: the title and the notes are any texts; how the title is put together and which rules the note filter drops are not modelled.
- PineText.CheckIgnoresWording: a match of a blocked construct is a stretch of text after a non-word character; the name of the first match is not reported.
- PolicyEngine.EvaluatePolicy: JSON parsing, sentence splitting, the contrast pattern, regular expressions and message formatting are arbitrary functions; of the rule loader only the id check is modelled.
- CLI, server, worker, model routing, prompt text, migrations as code and the threshold helpers: I/O, or single-branch facts.
