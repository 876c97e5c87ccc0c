/** Scoring and ranking of chunks for one query. */
module Ranking {
  import opened Seqs
  import opened Sorting
  import opened Text
  import opened QuerySignals

  datatype Chunk = Chunk(
    chunkId: string, itemId: string, sourceId: string, chunkIndex: nat,
    itemType: string, title: string, text: string, sectionTitle: string, parentTitle: string, kind: string,
    domainTags: seq<string>, marketTags: seq<string>, platformTags: seq<string>,
    trustLevel: string, sourceType: string, sourceUri: string, status: string, stages: seq<string>,
    embeddingProvider: string, embeddingModel: string, embedding: seq<real>,
    searchTerms: seq<string>, tokenFrequencies: map<string, nat>)

  datatype Features =
    | NoFeatures
    | Reranked(domainOverlap: real, marketOverlap: real, expansionBonus: real, riskPolicyBonus: real,
               metadataPenalty: real, trustPenalty: real, lexicalStrength: real)
    | RequiredSource

  /** A chunk on its way through the pipeline; a score that was never set is 0. */
  datatype Hit = Hit(chunk: Chunk, lexical: real, vector: real, rrf: real, score: real,
                     features: Features, approvedInclusion: bool)

  function IdOf(c: Chunk): string { c.chunkId }
  function HitId(h: Hit): string { h.chunk.chunkId }
  function LexicalOf(h: Hit): real { h.lexical }
  function VectorOf(h: Hit): real { h.vector }
  function RrfOf(h: Hit): real { h.rrf }
  function ScoreOf(h: Hit): real { h.score }

  ghost predicate DistinctIds(hits: seq<Hit>) { Distinct(Map(HitId, hits)) }
  ghost predicate DistinctChunkIds(chunks: seq<Chunk>) { Distinct(Map(IdOf, chunks)) }
  ghost predicate HitsFrom(hits: seq<Hit>, pool: seq<Chunk>) { forall h :: h in hits ==> h.chunk in pool }

  predicate Approved(c: Chunk) { c.sourceType == "approved_candidate" }

  // The sort key (-score, chunk_id)

  predicate BestFirst(key: Hit -> real, a: Hit, b: Hit) {
    key(a) > key(b) || (key(a) == key(b) && StringLe(HitId(a), HitId(b)))
  }

  function BestFirstBy(key: Hit -> real): (Hit, Hit) -> bool {
    (a, b) => BestFirst(key, a, b)
  }

  function SortHits(key: Hit -> real, hits: seq<Hit>): (r: seq<Hit>)
    ensures multiset(r) == multiset(hits) && |r| == |hits|
    ensures forall h :: h in r <==> h in hits
  {
    Sort(BestFirstBy(key), hits)
  }

  lemma BestFirstTotal(key: Hit -> real)
    ensures TotalPreorder(BestFirstBy(key))
  {
    StringLeOrder();
    var le := BestFirstBy(key);
    forall a: Hit, b: Hit ensures le(a, b) || le(b, a) {
      StringLeTotal(HitId(a), HitId(b));
    }
    forall a: Hit, b: Hit, c: Hit | le(a, b) && le(b, c) ensures le(a, c) {
      if key(a) == key(b) == key(c) {
        StringLeTransitive(HitId(a), HitId(b), HitId(c));
      }
    }
  }

  /** Sorted output: descending in the key, ids ascending among equals, ids kept distinct. */
  lemma SortedHits(key: Hit -> real, hits: seq<Hit>)
    ensures forall i, j :: 0 <= i < j < |hits| ==>
                             BestFirst(key, SortHits(key, hits)[i], SortHits(key, hits)[j])
    ensures DistinctIds(hits) ==> DistinctIds(SortHits(key, hits))
  {
    BestFirstTotal(key);
    SortSorted(BestFirstBy(key), hits);
    var r := SortHits(key, hits);
    forall i, j | 0 <= i < j < |r| ensures BestFirst(key, r[i], r[j]) {
      assert BestFirstBy(key)(r[i], r[j]);
    }
    if DistinctIds(hits) {
      SortDistinct(BestFirstBy(key), HitId, hits);
    }
  }

  /** Score every chunk, drop the unscored ones, sort. */
  function RankBy(key: Hit -> real, scorer: Chunk -> Option<Hit>, chunks: seq<Chunk>): seq<Hit> {
    SortHits(key, Collect(scorer, chunks))
  }

  /** A ranking lists exactly the scored chunks, each at most once, best first. */
  lemma RankByFacts(key: Hit -> real, scorer: Chunk -> Option<Hit>, chunks: seq<Chunk>)
    requires forall c :: scorer(c).Some? ==> scorer(c).value.chunk == c
    ensures forall h :: h in RankBy(key, scorer, chunks) <==> h.chunk in chunks && scorer(h.chunk) == Some(h)
    ensures DistinctChunkIds(chunks) ==> DistinctIds(RankBy(key, scorer, chunks))
    ensures var r := RankBy(key, scorer, chunks); forall i, j :: 0 <= i < j < |r| ==> BestFirst(key, r[i], r[j])
  {
    SortedHits(key, Collect(scorer, chunks));
    if DistinctChunkIds(chunks) {
      CollectDistinct(scorer, IdOf, HitId, chunks);
    }
  }

  // Lexical ranking

  function Count(token: string, tokens: seq<string>): nat { multiset(tokens)[token] }

  /** The score of one token: the stored frequency when there are any frequencies, else a count. */
  function TokenWeight(c: Chunk, token: string): nat {
    if |c.tokenFrequencies| > 0 then if token in c.tokenFrequencies then c.tokenFrequencies[token] else 0
    else Count(token, c.searchTerms)
  }

  function TokenScore(c: Chunk, queryTokens: seq<string>): nat {
    if queryTokens == [] then 0 else TokenWeight(c, queryTokens[0]) + TokenScore(c, queryTokens[1..])
  }

  function PhraseScore(lowered: string, phrases: seq<string>): nat {
    if phrases == [] then 0 else (if Contains(lowered, phrases[0]) then 4 else 0) + PhraseScore(lowered, phrases[1..])
  }

  function LexicalScore(c: Chunk, queryText: string): nat {
    TokenScore(c, Tokens(queryText)) + PhraseScore(Lower(c.text), ImportantPhrases(queryText))
  }

  function LexicalHit(c: Chunk, queryText: string): Option<Hit> {
    var score := LexicalScore(c, queryText);
    if score == 0 then None else Some(Hit(c, score as real, 0.0, 0.0, 0.0, NoFeatures, false))
  }

  function LexicalScorer(queryText: string): Chunk -> Option<Hit> {
    (c: Chunk) => LexicalHit(c, queryText)
  }

  function RankLexical(chunks: seq<Chunk>, queryText: string): seq<Hit> {
    RankBy(LexicalOf, LexicalScorer(queryText), chunks)
  }

  // Vector ranking

  /** sum(a * b for a, b in zip(left, right)) */
  function Cosine(left: seq<real>, right: seq<real>): real {
    if left == [] || right == [] then 0.0 else left[0] * right[0] + Cosine(left[1..], right[1..])
  }

  function VectorHit(c: Chunk, queryEmbedding: seq<real>): Option<Hit> {
    var score := Cosine(queryEmbedding, c.embedding);
    if score > 0.0 then Some(Hit(c, 0.0, score, 0.0, 0.0, NoFeatures, false)) else None
  }

  function VectorScorer(queryEmbedding: seq<real>): Chunk -> Option<Hit> {
    (c: Chunk) => VectorHit(c, queryEmbedding)
  }

  /** _rank_vector with the query embedding that search_knowledge always passes in. */
  function RankVector(chunks: seq<Chunk>, queryEmbedding: seq<real>): seq<Hit> {
    RankBy(VectorOf, VectorScorer(queryEmbedding), chunks)
  }
}
